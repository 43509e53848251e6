/**
 * The menu table and wording of the variant with the telephony adapter
 * (milestone_3/main.py), and what the engine does over them.
 */
module Milestone3 {
  import opened Wrappers
  import opened MenuGraph
  import opened Engine
  import opened EngineProperties
  import opened Server

  const Menu: Table := map[
    "main" := Node(
      "Welcome to HarshAir. For quick access press:\n1 Booking\n2 Flight Status\n3 Baggage Help\n4 Refunds & Cancellations\n5 Seat Selection\n6 Loyalty & Miles\n7 Travel Advisory\n8 Feedback\n9 Talk to Agent",
      [ Choice("1", Goto("booking", "Booking selected. Redirecting to booking options.")),
        Choice("2", Goto("flight_status", "Flight Status selected. We will ask for your PNR.")),
        Choice("3", Goto("baggage", "Baggage help. Few options coming up.")),
        Choice("4", Goto("refunds", "Refunds & cancellations. Please choose.")),
        Choice("5", Goto("seat", "Seat selection. Help coming.")),
        Choice("6", Goto("loyalty", "Loyalty program options.")),
        Choice("7", Goto("advisory", "Travel advisory and guidelines.")),
        Choice("8", Goto("feedback", "We appreciate feedback. Short survey.")),
        Choice("9", Transfer("Connecting to an agent. Please hold.")) ]),
    "booking" := Node(
      "Booking — Press 1 New booking, 2 Modify booking, 3 Cancel booking, 0 Back to main.",
      [ Choice("1", End("New booking selected. Our booking team will call you.")),
        Choice("2", End("Modify booking selected. We will email details.")),
        Choice("3", End("Cancel booking selected. Refund policy explained via email.")),
        Choice("0", Goto("main", "Returning to main menu.")) ]),
    "flight_status" := Node(
      "Please type your 6-digit PNR followed by the hash.",
      [ Choice("#", LookupPnr("Checking PNR...")) ]),
    "baggage" := Node(
      "Baggage — Press 1 Lost item, 2 Excess baggage charges, 0 Back.",
      [ Choice("1", End("Lost item reported. We'll initiate tracing.")),
        Choice("2", End("Excess baggage info: charges apply as per fare rules.")),
        Choice("0", Goto("main", "Back to main menu.")) ]),
    "refunds" := Node(
      "Refunds — Press 1 Fare rules, 2 Request refund, 0 Back.",
      [ Choice("1", End("Fare rules guided to your email.")),
        Choice("2", End("Refund request received. We will process it.")),
        Choice("0", Goto("main", "Back to main.")) ]),
    "seat" := Node(
      "Seat Selection — Press 1 Aisle, 2 Window, 3 Extra legroom, 0 Back.",
      [ Choice("1", End("Aisle preference noted.")),
        Choice("2", End("Window preference noted.")),
        Choice("3", End("Extra legroom request recorded.")),
        Choice("0", Goto("main", "Back to main.")) ]),
    "loyalty" := Node(
      "Loyalty — Press 1 Check miles, 2 Redeem miles, 0 Back.",
      [ Choice("1", End("Miles balance will be sent to your registered email.")),
        Choice("2", End("Redeem flow initiated. Agent will assist.")),
        Choice("0", Goto("main", "Back to main.")) ]),
    "advisory" := Node(
      "Travel advisory — Press 1 Covid rules, 2 Visa & docs, 0 Back.",
      [ Choice("1", End("Covid travel guidelines: check official site.")),
        Choice("2", End("Visa & docs details: refer to airline website.")),
        Choice("0", Goto("main", "Back to main.")) ]),
    "feedback" := Node(
      "Feedback — Press 1 Rate 1-3, 2 Rate 4-5, 0 Back.",
      [ Choice("1", End("Thanks for your feedback. We'll improve.")),
        Choice("2", End("Thanks! Glad you had a great experience.")),
        Choice("0", Goto("main", "Back to main.")) ])
  ]

  const Texts: Wording := Wording(
    "bad menu",
    "unhandled",
    "Please enter digits only for PNR.",
    _ => "Digit received. Enter more digits.",
    "6 digits received. Press # to confirm or * to restart.",
    "Invalid option. Try again.",
    "PNR incomplete. Returning to main.",
    "Pune->Mumbai",
    "")

  lemma NodeOk(id: string)
    requires id in Menu
    ensures DistinctKeys(Menu[id].options)
    ensures forall i :: 0 <= i < |Menu[id].options| ==> ChoiceOk(Menu, id, Menu[id].options[i])
  {
  }

  lemma CollectNodeIsSink()
    ensures CollectIsSink(Menu)
  {
  }

  lemma MenuWellFormed()
    ensures WellFormed(Menu)
  {
    assert Root in Menu;
    forall id | id in Menu
      ensures DistinctKeys(Menu[id].options)
      ensures forall i :: 0 <= i < |Menu[id].options| ==> ChoiceOk(Menu, id, Menu[id].options[i])
    {
      NodeOk(id);
    }
  }

  /** From process start, whatever requests came in, no call away from `flight_status` holds PNR digits. */
  lemma BufferOnlyAtCollect(qs: seq<Request>)
    ensures var st := Run(Menu, Texts, Store(map[], []), qs);
            forall id :: id in st.active && st.active[id].currentMenu != CollectNode ==> st.active[id].pnrBuffer == ""
  {
    CollectNodeIsSink();
    RunKeepsBufferConfined(Menu, Texts, Store(map[], []), qs);
  }

  /** Process start: the empty `active_calls` and `call_history` over this variant's table. */
  method Launch() returns (app: IvrServer)
    ensures fresh(app) && app.table == Menu && app.texts == Texts
    ensures app.activeCalls == map[] && app.callHistory == []
    ensures WellFormed(app.table)
  {
    app := new IvrServer(Menu, Texts);
    MenuWellFormed();
  }

  /** Scenario: `1` at the root navigates to the booking node and reads its prompt. */
  lemma MainToBooking(s: Session, now: string)
    requires s.currentMenu == Root
    ensures var r := Step(Menu, Texts, s, "1", now);
            && r.outcome == Processed("Booking selected. Redirecting to booking options.", Menu["booking"].prompt, "booking")
            && r.session.currentMenu == "booking" && r.session.menuPath == s.menuPath + ["booking"]
  {
    MenuWellFormed();
    LookupFindsChoice(Menu[Root].options, 0);
  }

  /** Scenario: the root has no `0` option, so `0` there is rejected with all nine keys. */
  lemma ZeroAtMainRejected(s: Session, now: string)
    requires s.currentMenu == Root
    ensures var r := Step(Menu, Texts, s, "0", now);
            && r.outcome == InvalidOption("Invalid option. Try again.", ["1", "2", "3", "4", "5", "6", "7", "8", "9"])
            && r.session.currentMenu == Root && r.session.menuPath == s.menuPath
  {
    assert Keys(Menu[Root].options) == ["1", "2", "3", "4", "5", "6", "7", "8", "9"];
  }

  /**
   * Scenario: digits that join to `123456`, then `#`, confirm the code,
   * quote it, and finish the call. The symbols may carry several digits each
   * (`isdigit` accepts `"12"`).
   */
  lemma SixDigitsFound(s: Session, ds: seq<string>, now: string)
    requires s.currentMenu == CollectNode && s.pnrBuffer == ""
    requires forall i :: 0 <= i < |ds| ==> IsDigits(ds[i]) && ds[i] != Terminator
    requires Concat(ds) == "123456"
    ensures var f := Feed(Menu, Texts, s, ds, now);
            var r := Step(Menu, Texts, f, "#", now);
            && f.pnrBuffer == "123456" && f.currentMenu == CollectNode
            && r.outcome == PnrFound(FoundMessage(Texts, "123456"))
            && Contains(r.outcome.message, "123456")
            && r.archived
  {
    FeedCollects(Menu, Texts, s, ds, now);
    var f := Feed(Menu, Texts, s, ds, now);
    LookupFindsChoice(Menu[CollectNode].options, 0);
    LookupSucceeds(Menu, Texts, f, now, "Checking PNR...");
  }

  /** Scenario: `#` after two digits clears the buffer and keeps the call active at the same node. */
  lemma EarlyHashKeepsCall(s: Session, now: string)
    requires s.currentMenu == CollectNode && s.pnrBuffer == "12"
    ensures var r := Step(Menu, Texts, s, "#", now);
            && r.outcome == InvalidPnr("PNR incomplete. Returning to main.")
            && r.session.pnrBuffer == "" && r.session.currentMenu == CollectNode
            && !r.archived
  {
    LookupFindsChoice(Menu[CollectNode].options, 0);
    LookupFails(Menu, Texts, s, now, "Checking PNR...");
  }
}
