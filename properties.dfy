/**
 * What the engine guarantees, stated over the functions of module Engine:
 * the per-branch behaviour of one digit, the archive discipline of the
 * store, the hangup endpoint, and the invariants every reachable state keeps
 * when the menu table is well formed.
 */
module EngineProperties {
  import opened Wrappers
  import opened MenuGraph
  import opened Engine

  /** The session with the symbol appended to its input log and nothing else changed. */
  function Logged(s: Session, digit: string): Session
  {
    s.(inputs := s.inputs + [digit])
  }

  /** The symbol is looked up in the node's options rather than absorbed as a PNR digit. */
  predicate Dispatched(s: Session, digit: string)
  {
    s.currentMenu != CollectNode || digit == Terminator
  }

  // ---------------------------------------------------------------------
  // One digit, branch by branch
  // ---------------------------------------------------------------------

  /** A digit string at the collecting node is appended to the buffer; the position is kept. */
  lemma CollectDigit(t: Table, w: Wording, s: Session, digit: string, now: string)
    requires s.currentMenu == CollectNode && CollectNode in t
    requires digit != Terminator && IsDigits(digit)
    ensures var r := Step(t, w, s, digit, now);
            && r.outcome.Collecting? && r.outcome.collected == s.pnrBuffer + digit
            && (r.outcome.prompt == if |s.pnrBuffer + digit| < PnrLength then w.collectMore(digit) else w.pressHash)
            && r.session == Logged(s, digit).(pnrBuffer := s.pnrBuffer + digit)
            && !r.archived
  {
  }

  /** Any other symbol there, `*` included, is rejected and leaves the buffer as it was. */
  lemma NonDigitRejected(t: Table, w: Wording, s: Session, digit: string, now: string)
    requires s.currentMenu == CollectNode && CollectNode in t
    requires digit != Terminator && !IsDigits(digit)
    ensures var r := Step(t, w, s, digit, now);
            r.outcome == InvalidDigit(w.digitsOnly) && r.session == Logged(s, digit) && !r.archived
  {
  }

  /** `*` does not restart PNR entry, although the six-digit prompt says it does. */
  lemma StarDoesNotRestart(t: Table, w: Wording, s: Session, now: string)
    requires s.currentMenu == CollectNode && CollectNode in t
    ensures var r := Step(t, w, s, "*", now);
            r.outcome == InvalidDigit(w.digitsOnly) && r.session.pnrBuffer == s.pnrBuffer
  {
    assert !IsDigits("*") by { assert "*"[0] == '*'; }
  }

  /** A symbol that is not an option key is rejected with the node's keys, in table order. */
  lemma UnknownOptionRejected(t: Table, w: Wording, s: Session, digit: string, now: string)
    requires s.currentMenu in t && Dispatched(s, digit)
    requires digit !in Keys(t[s.currentMenu].options)
    ensures var r := Step(t, w, s, digit, now);
            && r.outcome == InvalidOption(w.invalidOption, Keys(t[s.currentMenu].options))
            && r.session == Logged(s, digit) && !r.archived
  {
  }

  /** A goto moves to its target, extends the path by it and answers with the target's prompt. */
  lemma GotoMoves(t: Table, w: Wording, s: Session, digit: string, now: string, target: string, msg: string)
    requires s.currentMenu in t && Dispatched(s, digit)
    requires Lookup(t[s.currentMenu].options, digit) == Some(Goto(target, msg))
    requires target in t
    ensures var r := Step(t, w, s, digit, now);
            && r.outcome == Processed(msg, t[target].prompt, target)
            && r.session == Logged(s, digit).(currentMenu := target, menuPath := s.menuPath + [target])
            && !r.archived
  {
  }

  /** Exactly end, transfer and a lookup over a six-character buffer finish a dispatched call. */
  lemma ArchivingActions(t: Table, w: Wording, s: Session, digit: string, now: string, a: Action)
    requires s.currentMenu in t && Dispatched(s, digit)
    requires Lookup(t[s.currentMenu].options, digit) == Some(a)
    ensures Step(t, w, s, digit, now).archived <==> a.End? || a.Transfer? || (a.LookupPnr? && |s.pnrBuffer| == PnrLength)
    ensures a.End? ==> Step(t, w, s, digit, now).outcome == CallEnded(a.msg)
    ensures a.Transfer? ==> Step(t, w, s, digit, now).outcome == Transferring(a.msg)
  {
  }

  /** A lookup over exactly six characters confirms the code, quoting it, and archives. */
  lemma LookupSucceeds(t: Table, w: Wording, s: Session, now: string, msg: string)
    requires s.currentMenu in t && Dispatched(s, Terminator)
    requires Lookup(t[s.currentMenu].options, Terminator) == Some(LookupPnr(msg))
    requires |s.pnrBuffer| == PnrLength
    ensures var r := Step(t, w, s, Terminator, now);
            && r.outcome == PnrFound(FoundMessage(w, s.pnrBuffer))
            && Contains(r.outcome.message, s.pnrBuffer)
            && r.archived && r.session == Archive(Logged(s, Terminator), now)
  {
  }

  /**
   * A lookup over any other length clears the buffer and leaves the call
   * active where it is, although its message speaks of returning to main.
   */
  lemma LookupFails(t: Table, w: Wording, s: Session, now: string, msg: string)
    requires s.currentMenu in t && Dispatched(s, Terminator)
    requires Lookup(t[s.currentMenu].options, Terminator) == Some(LookupPnr(msg))
    requires |s.pnrBuffer| != PnrLength
    ensures var r := Step(t, w, s, Terminator, now);
            && r.outcome == InvalidPnr(w.pnrIncomplete)
            && r.session == Logged(s, Terminator).(pnrBuffer := "")
            && !r.archived
  {
  }

  /**
   * Digits keep accumulating past six, each answered with the press-hash
   * prompt, and the terminator then fails the length check.
   */
  lemma {:induction false} BufferGrowsPastSix(t: Table, w: Wording, s: Session, digit: string, now: string, msg: string)
    requires s.currentMenu == CollectNode && CollectNode in t
    requires Lookup(t[CollectNode].options, Terminator) == Some(LookupPnr(msg))
    requires |s.pnrBuffer| >= PnrLength && IsDigits(digit) && digit != Terminator
    ensures var r1 := Step(t, w, s, digit, now);
            var r2 := Step(t, w, r1.session, Terminator, now);
            && r1.outcome == Collecting(w.pressHash, s.pnrBuffer + digit) && !r1.archived
            && |r1.session.pnrBuffer| > PnrLength
            && r2.outcome == InvalidPnr(w.pnrIncomplete) && !r2.archived
            && r2.session.currentMenu == CollectNode && r2.session.pnrBuffer == ""
  {
    CollectDigit(t, w, s, digit, now);
    var r1 := Step(t, w, s, digit, now);
    LookupFails(t, w, r1.session, now, msg);
  }

  // ---------------------------------------------------------------------
  // Several digits in a row
  // ---------------------------------------------------------------------

  /** The symbols joined, as successive `pnr_buffer += digit` produce them. */
  function Concat(ds: seq<string>): string
    decreases |ds|
  {
    if ds == [] then "" else ds[0] + Concat(ds[1..])
  }

  /** The session after several digits, none of which finishes the call. */
  function Feed(t: Table, w: Wording, s: Session, ds: seq<string>, now: string): Session
    decreases |ds|
  {
    if ds == [] then s else Feed(t, w, Step(t, w, s, ds[0], now).session, ds[1..], now)
  }

  /** Digit strings fed at the collecting node pile up in the buffer; nothing else but the log moves. */
  lemma {:induction false} FeedCollects(t: Table, w: Wording, s: Session, ds: seq<string>, now: string)
    requires s.currentMenu == CollectNode && CollectNode in t
    requires forall i :: 0 <= i < |ds| ==> IsDigits(ds[i]) && ds[i] != Terminator
    ensures var f := Feed(t, w, s, ds, now);
            && f == s.(inputs := s.inputs + ds, pnrBuffer := s.pnrBuffer + Concat(ds))
    decreases |ds|
  {
    if ds != [] {
      CollectDigit(t, w, s, ds[0], now);
      var s1 := Step(t, w, s, ds[0], now).session;
      FeedCollects(t, w, s1, ds[1..], now);
      assert s.inputs + ds == s.inputs + [ds[0]] + ds[1..];
      assert s.pnrBuffer + Concat(ds) == s.pnrBuffer + ds[0] + Concat(ds[1..]);
    }
  }

  // ---------------------------------------------------------------------
  // The digit endpoint over the store
  // ---------------------------------------------------------------------

  /** The `current_menu` field of the request never changes the result. */
  lemma PayloadMenuIgnored(t: Table, w: Wording, st: Store, a: DtmfInput, b: DtmfInput, now: string)
    requires a.callId == b.callId && a.digit == b.digit
    ensures DtmfSpec(t, w, st, a, now) == DtmfSpec(t, w, st, b, now)
  {
  }

  /** A finishing digit removes the call and appends exactly its final record, stamped. */
  lemma ArchiveMovesOneRecord(t: Table, w: Wording, st: Store, input: DtmfInput, now: string)
    requires input.callId in st.active
    requires Step(t, w, st.active[input.callId], input.digit, now).archived
    ensures var r := DtmfSpec(t, w, st, input, now).1;
            && input.callId !in r.active
            && |r.active| == |st.active| - 1
            && |r.history| == |st.history| + 1
            && r.history[|st.history|] == Archive(Logged(st.active[input.callId], input.digit), now)
  {
    var id := input.callId;
    assert (st.active - {id}).Keys == st.active.Keys - {id};
  }

  /** Any other digit keeps the call active under its id and leaves the history alone. */
  lemma NonFinishingKeepsCall(t: Table, w: Wording, st: Store, input: DtmfInput, now: string)
    requires input.callId in st.active
    requires !Step(t, w, st.active[input.callId], input.digit, now).archived
    ensures var r := DtmfSpec(t, w, st, input, now).1;
            && input.callId in r.active
            && r.active[input.callId] == Step(t, w, st.active[input.callId], input.digit, now).session
            && |r.active| == |st.active|
            && r.history == st.history
  {
    assert st.active[input.callId := Step(t, w, st.active[input.callId], input.digit, now).session].Keys == st.active.Keys;
  }

  // ---------------------------------------------------------------------
  // The hangup endpoint
  // ---------------------------------------------------------------------

  /** Hanging up twice gives ended and then not-found, with a single archived record. */
  lemma EndTwice(st: Store, callId: string, now1: string, now2: string)
    requires callId in st.active
    ensures var (r1, st1) := EndSpec(st, callId, now1);
            var (r2, st2) := EndSpec(st1, callId, now2);
            && r1 == Ended(callId) && r2 == NotFound(callId) && st2 == st1
            && |st2.history| == |st.history| + 1 && |st2.active| == |st.active| - 1
  {
    var st1 := EndSpec(st, callId, now1).1;
    assert callId !in st1.active;
    assert st1.active.Keys == st.active.Keys - {callId};
  }

  // ---------------------------------------------------------------------
  // Invariants of reachable states
  // ---------------------------------------------------------------------

  lemma NewSessionInv(t: Table, callId: string, callerNumber: string, startTime: string)
    requires Root in t
    ensures SessionInv(t, NewSession(callId, callerNumber, startTime))
  {
  }

  /** In a well-formed table one digit keeps the session invariant, archived or not. */
  lemma StepKeepsSessionInv(t: Table, w: Wording, s: Session, digit: string, now: string)
    requires WellFormed(t) && SessionInv(t, s)
    ensures SessionInv(t, Step(t, w, s, digit, now).session)
  {
    var r := Step(t, w, s, digit, now);
    if r.outcome.Processed? || r.outcome.MenuKeyError? {
      LookupInWellFormed(t, s.currentMenu, digit);
      var target := r.session.currentMenu;
      assert Linked(t, s.currentMenu, target);
      var p := r.session.menuPath;
      assert p == s.menuPath + [target];
      forall i | 0 <= i < |p| - 1 ensures Linked(t, p[i], p[i + 1]) {
        if i < |s.menuPath| - 1 {
          assert p[i] == s.menuPath[i] && p[i + 1] == s.menuPath[i + 1];
        }
      }
    } else if r.outcome.Collecting? {
      var b := r.session.pnrBuffer;
      assert b == s.pnrBuffer + digit;
      forall i | 0 <= i < |b| ensures '0' <= b[i] <= '9' {
        if i >= |s.pnrBuffer| { assert b[i] == digit[i - |s.pnrBuffer|]; }
      }
    }
  }

  /** In a well-formed table a session in the invariant never reaches an error reply. */
  lemma StepNeverFails(t: Table, w: Wording, s: Session, digit: string, now: string)
    requires WellFormed(t) && SessionInv(t, s)
    ensures var o := Step(t, w, s, digit, now).outcome;
            !o.StateError? && !o.MenuKeyError?
  {
    LookupInWellFormed(t, s.currentMenu, digit);
  }

  /** In a well-formed table a lookup is reached only by the terminator at the collecting node. */
  lemma LookupOnlyOnTerminator(t: Table, w: Wording, s: Session, digit: string, now: string)
    requires WellFormed(t) && SessionInv(t, s)
    ensures var o := Step(t, w, s, digit, now).outcome;
            o.PnrFound? || o.InvalidPnr? ==> s.currentMenu == CollectNode && digit == Terminator
  {
    LookupInWellFormed(t, s.currentMenu, digit);
  }

  lemma CreateKeepsStoreInv(t: Table, st: Store, callId: string, callerNumber: string, startTime: string)
    requires Root in t && StoreInv(t, st)
    ensures StoreInv(t, CreateSpec(st, callId, callerNumber, startTime))
  {
    NewSessionInv(t, callId, callerNumber, startTime);
  }

  lemma DtmfKeepsStoreInv(t: Table, w: Wording, st: Store, input: DtmfInput, now: string)
    requires WellFormed(t) && StoreInv(t, st)
    ensures StoreInv(t, DtmfSpec(t, w, st, input, now).1)
  {
    if input.callId in st.active {
      StepKeepsSessionInv(t, w, st.active[input.callId], input.digit, now);
    }
  }

  lemma EndKeepsStoreInv(t: Table, st: Store, callId: string, now: string)
    requires StoreInv(t, st)
    ensures StoreInv(t, EndSpec(st, callId, now).1)
  {
  }

  /** One request to any of the three state-changing endpoints. */
  datatype Request =
    | StartCall(payload: CallStart, callId: string, startTime: string)
    | Press(input: DtmfInput, now: string)
    | HangUp(callId: string, now: string)

  function Serve(t: Table, w: Wording, st: Store, q: Request): Store
  {
    match q
    case StartCall(payload, callId, startTime) => CreateSpec(st, callId, payload.callerNumber, startTime)
    case Press(input, now) => DtmfSpec(t, w, st, input, now).1
    case HangUp(callId, now) => EndSpec(st, callId, now).1
  }

  function Run(t: Table, w: Wording, st: Store, qs: seq<Request>): Store
    decreases |qs|
  {
    if qs == [] then st else Run(t, w, Serve(t, w, st, qs[0]), qs[1..])
  }

  /**
   * Over any sequence of requests against a well-formed table the store
   * invariant holds throughout, and archived records are never changed or
   * removed: the old history is a prefix of the new one.
   */
  lemma {:induction false} RunKeepsStoreInv(t: Table, w: Wording, st: Store, qs: seq<Request>)
    requires WellFormed(t) && StoreInv(t, st)
    ensures StoreInv(t, Run(t, w, st, qs))
    ensures st.history <= Run(t, w, st, qs).history
    decreases |qs|
  {
    if qs != [] {
      var next := Serve(t, w, st, qs[0]);
      match qs[0] {
        case StartCall(payload, callId, startTime) => CreateKeepsStoreInv(t, st, callId, payload.callerNumber, startTime);
        case Press(input, now) => DtmfKeepsStoreInv(t, w, st, input, now);
        case HangUp(callId, now) => EndKeepsStoreInv(t, st, callId, now);
      }
      RunKeepsStoreInv(t, w, next, qs[1..]);
    }
  }

  /**
   * From process start, whatever requests came before, a digit request
   * against a well-formed table never yields "bad menu", "unhandled" or a
   * missing-target fault.
   */
  lemma NeverFailsAfterAnyRun(t: Table, w: Wording, qs: seq<Request>, input: DtmfInput, now: string)
    requires WellFormed(t)
    ensures var o := DtmfSpec(t, w, Run(t, w, Store(map[], []), qs), input, now).0;
            !o.StateError? && !o.MenuKeyError?
  {
    var st := Run(t, w, Store(map[], []), qs);
    RunKeepsStoreInv(t, w, Store(map[], []), qs);
    if input.callId in st.active {
      StepNeverFails(t, w, st.active[input.callId], input.digit, now);
    }
  }

  // ---------------------------------------------------------------------
  // The buffer outside the collecting node
  // ---------------------------------------------------------------------

  /** The collecting node has no goto, so a call that reaches it can only leave by being archived. */
  ghost predicate CollectIsSink(t: Table)
  {
    CollectNode in t && forall i :: 0 <= i < |t[CollectNode].options| ==> !t[CollectNode].options[i].action.Goto?
  }

  ghost predicate BufferConfined(s: Session)
  {
    s.currentMenu != CollectNode ==> s.pnrBuffer == ""
  }

  /** When the collecting node is a sink, the buffer stays empty everywhere else. */
  lemma StepKeepsBufferConfined(t: Table, w: Wording, s: Session, digit: string, now: string)
    requires CollectIsSink(t) && BufferConfined(s)
    ensures BufferConfined(Step(t, w, s, digit, now).session)
  {
  }

  /** Every active record keeps its buffer empty away from the collecting node. */
  ghost predicate StoreConfined(st: Store)
  {
    forall id :: id in st.active ==> BufferConfined(st.active[id])
  }

  lemma ServeKeepsBufferConfined(t: Table, w: Wording, st: Store, q: Request)
    requires CollectIsSink(t) && StoreConfined(st)
    ensures StoreConfined(Serve(t, w, st, q))
  {
    match q {
      case StartCall(payload, callId, startTime) =>
      case Press(input, now) =>
        if input.callId in st.active {
          StepKeepsBufferConfined(t, w, st.active[input.callId], input.digit, now);
        }
      case HangUp(callId, now) =>
    }
  }

  /**
   * When the collecting node is a sink, after any sequence of requests every
   * active call outside that node has an empty buffer.
   */
  lemma {:induction false} RunKeepsBufferConfined(t: Table, w: Wording, st: Store, qs: seq<Request>)
    requires CollectIsSink(t) && StoreConfined(st)
    ensures StoreConfined(Run(t, w, st, qs))
    decreases |qs|
  {
    if qs != [] {
      ServeKeepsBufferConfined(t, w, st, qs[0]);
      RunKeepsBufferConfined(t, w, Serve(t, w, st, qs[0]), qs[1..]);
    }
  }
}
