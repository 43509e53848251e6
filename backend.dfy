/**
 * The menu table and wording of the plain HTTP variant
 * (backend/ivr_simulator_backend.py), and what the engine does over them.
 * Its table differs from the other variant's only in the collecting node's
 * prompt; its wording echoes each PNR digit back.
 */
module Backend {
  import opened Wrappers
  import opened MenuGraph
  import opened Engine
  import opened EngineProperties
  import opened Server

  const Menu: Table := map[
    "main" := Node(
      "Welcome to HarshAir. For quick access press:\n1 Booking\n2 Flight Status\n3 Baggage Help\n4 Refunds & Cancellations\n5 Seat Selection\n6 Loyalty & Miles\n7 Travel Advisory\n8 Feedback\n9 Talk to Agent",
      [ Choice("1", Goto("booking", "Booking selected. Redirecting to booking options.")),
        Choice("2", Goto("flight_status", "Flight Status selected. We will ask for your PNR.")),
        Choice("3", Goto("baggage", "Baggage help. Few options coming up.")),
        Choice("4", Goto("refunds", "Refunds & cancellations. Please choose.")),
        Choice("5", Goto("seat", "Seat selection. Help coming.")),
        Choice("6", Goto("loyalty", "Loyalty program options.")),
        Choice("7", Goto("advisory", "Travel advisory and guidelines.")),
        Choice("8", Goto("feedback", "We appreciate feedback. Short survey.")),
        Choice("9", Transfer("Connecting to an agent. Please hold.")) ]),
    "booking" := Node(
      "Booking — Press 1 New booking, 2 Modify booking, 3 Cancel booking, 0 Back to main.",
      [ Choice("1", End("New booking selected. Our booking team will call you.")),
        Choice("2", End("Modify booking selected. We will email details.")),
        Choice("3", End("Cancel booking selected. Refund policy explained via email.")),
        Choice("0", Goto("main", "Returning to main menu.")) ]),
    "flight_status" := Node(
      "Please type your 6-digit PNR followed by the hash key.",
      [ Choice("#", LookupPnr("Checking PNR...")) ]),
    "baggage" := Node(
      "Baggage — Press 1 Lost item, 2 Excess baggage charges, 0 Back.",
      [ Choice("1", End("Lost item reported. We'll initiate tracing.")),
        Choice("2", End("Excess baggage info: charges apply as per fare rules.")),
        Choice("0", Goto("main", "Back to main menu.")) ]),
    "refunds" := Node(
      "Refunds — Press 1 Fare rules, 2 Request refund, 0 Back.",
      [ Choice("1", End("Fare rules guided to your email.")),
        Choice("2", End("Refund request received. We will process it.")),
        Choice("0", Goto("main", "Back to main.")) ]),
    "seat" := Node(
      "Seat Selection — Press 1 Aisle, 2 Window, 3 Extra legroom, 0 Back.",
      [ Choice("1", End("Aisle preference noted.")),
        Choice("2", End("Window preference noted.")),
        Choice("3", End("Extra legroom request recorded.")),
        Choice("0", Goto("main", "Back to main.")) ]),
    "loyalty" := Node(
      "Loyalty — Press 1 Check miles, 2 Redeem miles, 0 Back.",
      [ Choice("1", End("Miles balance will be sent to your registered email.")),
        Choice("2", End("Redeem flow initiated. Agent will assist.")),
        Choice("0", Goto("main", "Back to main.")) ]),
    "advisory" := Node(
      "Travel advisory — Press 1 Covid rules, 2 Visa & docs, 0 Back.",
      [ Choice("1", End("Covid travel guidelines: check official site.")),
        Choice("2", End("Visa & docs details: refer to airline website.")),
        Choice("0", Goto("main", "Back to main.")) ]),
    "feedback" := Node(
      "Feedback — Press 1 Rate 1-3, 2 Rate 4-5, 0 Back.",
      [ Choice("1", End("Thanks for your feedback. We'll improve.")),
        Choice("2", End("Thanks! Glad you had a great experience.")),
        Choice("0", Goto("main", "Back to main.")) ])
  ]

  const Texts: Wording := Wording(
    "Invalid menu state",
    "Unhandled action",
    "Only digits are allowed for PNR. Please enter numbers.",
    d => "You entered " + d + ". Enter remaining digits.",
    "You entered 6 digits. Press # to confirm PNR or press * to restart.",
    "Invalid option. Please try again.",
    "PNR invalid or incomplete. Returning to main menu.",
    "Pune → Mumbai",
    ".")

  lemma NodeOk(id: string)
    requires id in Menu
    ensures DistinctKeys(Menu[id].options)
    ensures forall i :: 0 <= i < |Menu[id].options| ==> ChoiceOk(Menu, id, Menu[id].options[i])
  {
  }

  lemma CollectNodeIsSink()
    ensures CollectIsSink(Menu)
  {
  }

  lemma MenuWellFormed()
    ensures WellFormed(Menu)
  {
    assert Root in Menu;
    forall id | id in Menu
      ensures DistinctKeys(Menu[id].options)
      ensures forall i :: 0 <= i < |Menu[id].options| ==> ChoiceOk(Menu, id, Menu[id].options[i])
    {
      NodeOk(id);
    }
  }

  /** From process start, whatever requests came in, no call away from `flight_status` holds PNR digits. */
  lemma BufferOnlyAtCollect(qs: seq<Request>)
    ensures var st := Run(Menu, Texts, Store(map[], []), qs);
            forall id :: id in st.active && st.active[id].currentMenu != CollectNode ==> st.active[id].pnrBuffer == ""
  {
    CollectNodeIsSink();
    RunKeepsBufferConfined(Menu, Texts, Store(map[], []), qs);
  }

  /** Process start: the empty `active_calls` and `call_history` over this variant's table. */
  method Launch() returns (app: IvrServer)
    ensures fresh(app) && app.table == Menu && app.texts == Texts
    ensures app.activeCalls == map[] && app.callHistory == []
    ensures WellFormed(app.table)
  {
    app := new IvrServer(Menu, Texts);
    MenuWellFormed();
  }

  /** Each digit before the sixth is echoed back; from the sixth on, the caller is asked for `#`. */
  lemma DigitPrompts(s: Session, digit: string, now: string)
    requires s.currentMenu == CollectNode && IsDigits(digit)
    ensures var r := Step(Menu, Texts, s, digit, now);
            && r.outcome.Collecting?
            && r.outcome.collected == s.pnrBuffer + digit
            && (|s.pnrBuffer + digit| < PnrLength ==> r.outcome.prompt == "You entered " + digit + ". Enter remaining digits.")
            && (|s.pnrBuffer + digit| >= PnrLength ==> r.outcome.prompt == "You entered 6 digits. Press # to confirm PNR or press * to restart.")
  {
    assert digit != Terminator by { assert digit[0] != '#'; }
    CollectDigit(Menu, Texts, s, digit, now);
  }

  /**
   * Scenario: a seventh digit is accepted with the press-hash prompt, and `#`
   * then fails the length check: the buffer is cleared and the call stays
   * active at the collecting node, not at the root.
   */
  lemma SeventhDigitSpoilsLookup(s: Session, now: string)
    requires s.currentMenu == CollectNode && s.pnrBuffer == "123456"
    ensures var r1 := Step(Menu, Texts, s, "7", now);
            var r2 := Step(Menu, Texts, r1.session, "#", now);
            && r1.outcome == Collecting("You entered 6 digits. Press # to confirm PNR or press * to restart.", "1234567")
            && r2.outcome == InvalidPnr("PNR invalid or incomplete. Returning to main menu.")
            && r2.session.currentMenu == CollectNode && r2.session.pnrBuffer == ""
            && !r1.archived && !r2.archived
  {
    LookupFindsChoice(Menu[CollectNode].options, 0);
    assert IsDigits("7");
    BufferGrowsPastSix(Menu, Texts, s, "7", now, "Checking PNR...");
  }
}
