/**
 * The call-session engine as pure functions over values: one session record,
 * the store of active and archived records, and the effect of each endpoint
 * on them. The imperative server in module Server is proved equal to these.
 */
module Engine {
  import opened Wrappers
  import opened MenuGraph

  /** The only PNR length the lookup accepts. */
  const PnrLength := 6
  /** Fields of the mocked reservation record returned by a successful lookup. */
  const MockFlight := "HS123"
  const MockStatus := "Confirmed"

  /**
   * One call's record. `endTime` is absent while the call is active and set
   * just before the record is copied into the history.
   */
  datatype Session = Session(
    callId: string,
    callerNumber: string,
    startTime: string,
    currentMenu: string,
    menuPath: seq<string>,
    inputs: seq<string>,
    pnrBuffer: string,
    endTime: Option<string>)

  /** The two process-wide collections: active calls by id, and the archive. */
  datatype Store = Store(active: map<string, Session>, history: seq<Session>)

  /**
   * The texts the engine itself produces (as opposed to those carried by the
   * menu table). `collectMore` takes the digit just received, since one
   * variant echoes it. `route` and `foundTail` shape the success message.
   */
  datatype Wording = Wording(
    badMenu: string,
    unhandled: string,
    digitsOnly: string,
    collectMore: string -> string,
    pressHash: string,
    invalidOption: string,
    pnrIncomplete: string,
    route: string,
    foundTail: string)

  /** Body of a start request; its optional `callId` is never read. */
  datatype CallStart = CallStart(callerNumber: string, callId: Option<string>)

  /** Body of a digit request; its `currentMenu` is never read. */
  datatype DtmfInput = DtmfInput(callId: string, digit: string, currentMenu: string)

  /** The reply of one digit request, by its `status` field. */
  datatype Outcome =
    | SessionMissing                                      // HTTP 404
    | StateError(message: string)                         // "error": bad menu or unhandled action
    | MenuKeyError                                        // goto target missing: uncaught KeyError
    | Collecting(prompt: string, collected: string)
    | InvalidDigit(prompt: string)                        // non-digit at the collecting node
    | InvalidOption(prompt: string, valid: seq<string>)
    | Processed(message: string, prompt: string, currentMenu: string)
    | CallEnded(message: string)                          // call_action hangup
    | Transferring(message: string)                       // call_action transfer
    | PnrFound(message: string)
    | InvalidPnr(message: string)                         // call_action hangup

  /** Reply of a start request: `MENU["main"]` raises after the session was stored when there is no root. */
  datatype StartReply = Connected(callId: string, prompt: string) | StartKeyError

  datatype EndReply = Ended(callId: string) | NotFound(callId: string)

  datatype PnrInfo = PnrInfo(pnr: string, flight: string, status: string, route: string)

  /** Python's `str.isdigit`, restricted to the ASCII digits. */
  function IsDigits(d: string): (r: bool)
    ensures r <==> d != "" && AllDigits(d)
  {
    |d| > 0 && forall i :: 0 <= i < |d| ==> '0' <= d[i] <= '9'
  }

  ghost predicate AllDigits(s: string)
  {
    forall i :: 0 <= i < |s| ==> '0' <= s[i] <= '9'
  }

  ghost predicate OccursAt(s: string, part: string, k: nat)
  {
    k + |part| <= |s| && s[k..k + |part|] == part
  }

  ghost predicate Contains(s: string, part: string)
  {
    exists k: nat :: OccursAt(s, part, k)
  }

  /** A fresh record: at the root, which is also the whole path, with nothing entered yet. */
  function NewSession(callId: string, callerNumber: string, startTime: string): (r: Session)
    ensures r.callId == callId && r.callerNumber == callerNumber && r.startTime == startTime
    ensures r.currentMenu == Root && r.menuPath == [Root]
    ensures r.inputs == [] && r.pnrBuffer == "" && r.endTime.None?
  {
    Session(callId, callerNumber, startTime, Root, [Root], [], "", None)
  }

  /** The copy put in the history: stamped with the end time, every other field kept. */
  function Archive(s: Session, now: string): (r: Session)
    ensures r.endTime == Some(now)
    ensures r.(endTime := s.endTime) == s
  {
    s.(endTime := Some(now))
  }

  /** The mocked reservation: the code asked for, on a fixed flight and status. */
  function MockLookup(w: Wording, pnr: string): (r: PnrInfo)
    ensures r.pnr == pnr && r.flight == MockFlight && r.status == MockStatus && r.route == w.route
  {
    PnrInfo(pnr, MockFlight, MockStatus, w.route)
  }

  /** The confirmation read to the caller; it always quotes the captured code. */
  function FoundMessage(w: Wording, pnr: string): (m: string)
    ensures Contains(m, pnr)
  {
    var info := MockLookup(w, pnr);
    var m := "PNR " + info.pnr + " confirmed. Flight " + info.flight + " " + info.route + w.foundTail;
    assert OccursAt(m, pnr, 4);
    m
  }

  /** The effect of one digit on one active session. */
  datatype Transition = Transition(outcome: Outcome, session: Session, archived: bool)

  /**
   * Applies one option's action to a session whose input is already logged.
   */
  function Dispatch(t: Table, w: Wording, s: Session, a: Action, now: string): (r: Transition)
    // archived on hangup, transfer, or a lookup with exactly six characters
    ensures r.archived <==> a.End? || a.Transfer? || (a.LookupPnr? && |s.pnrBuffer| == PnrLength)
    ensures r.archived ==> r.session == Archive(s, now)
    // a goto moves to its target even when the target is missing
    ensures a.Goto? ==> r.session == s.(currentMenu := a.target, menuPath := s.menuPath + [a.target])
    ensures a.Goto? ==> (r.outcome.MenuKeyError? <==> a.target !in t)
    // a failed lookup only clears the buffer; an unknown kind changes nothing
    ensures a.LookupPnr? && !r.archived ==> r.session == s.(pnrBuffer := "")
    ensures a.Unknown? ==> r.session == s && r.outcome.StateError?
  {
    match a
    case Goto(target, msg) =>
      var moved := s.(currentMenu := target, menuPath := s.menuPath + [target]);
      if target in t then Transition(Processed(msg, t[target].prompt, target), moved, false)
      else Transition(MenuKeyError, moved, false)
    case End(msg) => Transition(CallEnded(msg), Archive(s, now), true)
    case Transfer(msg) => Transition(Transferring(msg), Archive(s, now), true)
    case LookupPnr(_) =>
      if |s.pnrBuffer| == PnrLength then
        Transition(PnrFound(FoundMessage(w, s.pnrBuffer)), Archive(s, now), true)
      else
        Transition(InvalidPnr(w.pnrIncomplete), s.(pnrBuffer := ""), false)
    case Unknown(_, _) => Transition(StateError(w.unhandled), s, false)
  }

  /**
   * The body of the digit endpoint for a session that is active: log the
   * symbol, absorb digits at the collecting node, reject unknown options,
   * otherwise dispatch on the option's action.
   */
  function Step(t: Table, w: Wording, s: Session, digit: string, now: string): (r: Transition)
    // the symbol is logged on every outcome, and the call's identity is kept
    ensures r.session.inputs == s.inputs + [digit]
    ensures r.session.callId == s.callId && r.session.callerNumber == s.callerNumber
            && r.session.startTime == s.startTime
    // exactly the hangup, transfer and successful-lookup outcomes archive, stamped with `now`
    ensures r.archived <==> r.outcome.CallEnded? || r.outcome.Transferring? || r.outcome.PnrFound?
    ensures r.archived ==> r.session == Archive(s.(inputs := s.inputs + [digit]), now)
    ensures !r.archived ==> r.session.endTime == s.endTime
    // the position moves only by a goto, which appends its target to the path
    ensures if r.outcome.Processed? || r.outcome.MenuKeyError?
            then r.session.menuPath == s.menuPath + [r.session.currentMenu]
            else r.session.menuPath == s.menuPath && r.session.currentMenu == s.currentMenu
    ensures r.outcome.Processed? ==> r.outcome.currentMenu == r.session.currentMenu
    // the buffer changes only by collecting a digit there or by a failed lookup
    ensures r.outcome.Collecting? ==>
              && s.currentMenu == CollectNode && IsDigits(digit)
              && r.session.pnrBuffer == s.pnrBuffer + digit
              && r.outcome.collected == r.session.pnrBuffer
    ensures r.outcome.InvalidPnr? ==> r.session.pnrBuffer == "" && |s.pnrBuffer| != PnrLength
    ensures !r.outcome.Collecting? && !r.outcome.InvalidPnr? ==> r.session.pnrBuffer == s.pnrBuffer
  {
    var logged := s.(inputs := s.inputs + [digit]);
    var key := s.currentMenu;
    if key !in t then Transition(StateError(w.badMenu), logged, false)
    else if key == CollectNode && digit != Terminator then
      if IsDigits(digit) then
        var collected := logged.pnrBuffer + digit;
        var prompt := if |collected| < PnrLength then w.collectMore(digit) else w.pressHash;
        Transition(Collecting(prompt, collected), logged.(pnrBuffer := collected), false)
      else
        Transition(InvalidDigit(w.digitsOnly), logged, false)
    else
      var opts := t[key].options;
      match Lookup(opts, digit)
      case None => Transition(InvalidOption(w.invalidOption, Keys(opts)), logged, false)
      case Some(a) => Dispatch(t, w, logged, a, now)
  }

  /** `create_session`: store a fresh record under the given id, replacing any record already there. */
  function CreateSpec(st: Store, callId: string, callerNumber: string, startTime: string): (r: Store)
    ensures callId in r.active
    ensures var s := r.active[callId];
            && s.callId == callId && s.callerNumber == callerNumber && s.startTime == startTime
            && s.currentMenu == Root && s.menuPath == [Root] && s.inputs == [] && s.pnrBuffer == ""
            && s.endTime == None
    ensures forall id :: id != callId ==>
              (id in r.active <==> id in st.active) && (id in st.active ==> r.active[id] == st.active[id])
    ensures r.history == st.history
  {
    Store(st.active[callId := NewSession(callId, callerNumber, startTime)], st.history)
  }

  /** The digit endpoint over the whole store. */
  function DtmfSpec(t: Table, w: Wording, st: Store, input: DtmfInput, now: string): (r: (Outcome, Store))
    ensures input.callId !in st.active ==> r == (SessionMissing, st)
    ensures forall id :: id != input.callId ==>
              (id in r.1.active <==> id in st.active) && (id in st.active ==> r.1.active[id] == st.active[id])
    ensures r.1.history == st.history
            || (input.callId in st.active && input.callId !in r.1.active
                && r.1.history == st.history + [Archive(st.active[input.callId].(inputs := st.active[input.callId].inputs + [input.digit]), now)])
  {
    var id := input.callId;
    if id !in st.active then (SessionMissing, st)
    else
      var tr := Step(t, w, st.active[id], input.digit, now);
      if tr.archived then (tr.outcome, Store(st.active - {id}, st.history + [tr.session]))
      else (tr.outcome, Store(st.active[id := tr.session], st.history))
  }

  /** The hangup endpoint: archive an active call, or report it missing. */
  function EndSpec(st: Store, callId: string, now: string): (r: (EndReply, Store))
    ensures r.0 == Ended(callId) <==> callId in st.active
    ensures r.0 == Ended(callId) || r.0 == NotFound(callId)
    ensures callId in st.active ==>
              && r.1.active.Keys == st.active.Keys - {callId}
              && (forall id :: id in r.1.active ==> r.1.active[id] == st.active[id])
              && r.1.history == st.history + [Archive(st.active[callId], now)]
    ensures callId !in st.active ==> r.1 == st
  {
    if callId in st.active then
      (Ended(callId), Store(st.active - {callId}, st.history + [Archive(st.active[callId], now)]))
    else
      (NotFound(callId), st)
  }

  /** The path starts at the root, ends at the current node and follows goto options. */
  ghost predicate PathOk(t: Table, path: seq<string>, current: string)
  {
    && |path| > 0 && path[0] == Root && path[|path| - 1] == current
    && forall i :: 0 <= i < |path| - 1 ==> Linked(t, path[i], path[i + 1])
  }

  ghost predicate SessionInv(t: Table, s: Session)
  {
    && s.currentMenu in t
    && PathOk(t, s.menuPath, s.currentMenu)
    && AllDigits(s.pnrBuffer)
  }

  /**
   * Every active record sits under its own id, is not yet stamped and keeps
   * the session invariant; every archived record is stamped and kept it too.
   */
  ghost predicate StoreInv(t: Table, st: Store)
  {
    && (forall id :: id in st.active ==>
          st.active[id].callId == id && st.active[id].endTime.None? && SessionInv(t, st.active[id]))
    && (forall k :: 0 <= k < |st.history| ==>
          st.history[k].endTime.Some? && SessionInv(t, st.history[k]))
  }
}
