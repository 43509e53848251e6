/**
 * The simulator's endpoints as they run: two process-wide collections that
 * every request updates in place. Each method follows the source's steps and
 * is proved equal to the matching function of module Engine.
 */
module Server {
  import opened Wrappers
  import opened MenuGraph
  import opened Engine

  class IvrServer {
    const table: Table
    const texts: Wording
    /** `active_calls`: id to live session record. */
    var activeCalls: map<string, Session>
    /** `call_history`: archived copies, appended to only. */
    var callHistory: seq<Session>

    function Snapshot(): Store
      reads this
    {
      Store(activeCalls, callHistory)
    }

    /** Process start: empty collections over a fixed menu table. */
    constructor (table: Table, texts: Wording)
      ensures this.table == table && this.texts == texts
      ensures activeCalls == map[] && callHistory == []
    {
      this.table := table;
      this.texts := texts;
      activeCalls := map[];
      callHistory := [];
    }

    /** `create_session`, with the random id and the clock reading passed in. */
    method CreateSession(callId: string, callerNumber: string, startTime: string) returns (cid: string)
      modifies this
      ensures cid == callId
      ensures Snapshot() == CreateSpec(old(Snapshot()), callId, callerNumber, startTime)
      ensures activeCalls[cid].currentMenu == Root && activeCalls[cid].menuPath == [Root]
      ensures activeCalls[cid].inputs == [] && activeCalls[cid].pnrBuffer == ""
    {
      cid := callId;
      activeCalls := activeCalls[cid := Session(cid, callerNumber, startTime, Root, [Root], [], "", None)];
    }

    /** The status endpoint: the two counts, nothing changed. */
    method Status() returns (activeCount: nat, totalCalls: nat)
      ensures activeCount == |activeCalls| && totalCalls == |callHistory|
    {
      activeCount := |activeCalls|;
      totalCalls := |callHistory|;
    }

    /** The start endpoint: create a session, then read the root prompt. */
    method Start(payload: CallStart, callId: string, startTime: string) returns (reply: StartReply)
      modifies this
      ensures Snapshot() == CreateSpec(old(Snapshot()), callId, payload.callerNumber, startTime)
      ensures Root in table ==> reply == Connected(callId, table[Root].prompt)
      ensures Root !in table ==> reply == StartKeyError
    {
      var cid := CreateSession(callId, payload.callerNumber, startTime);
      if Root in table {
        reply := Connected(cid, table[Root].prompt);
      } else {
        reply := StartKeyError;
      }
    }

    /** The digit endpoint; `now` is the clock reading used if the call ends. */
    method Dtmf(input: DtmfInput, now: string) returns (out: Outcome)
      modifies this
      ensures (out, Snapshot()) == DtmfSpec(table, texts, old(Snapshot()), input, now)
    {
      var callId := input.callId;
      var digit := input.digit;
      if callId !in activeCalls {
        return SessionMissing;
      }
      ghost var step := Step(table, texts, activeCalls[callId], digit, now);
      var session := activeCalls[callId];
      var menuKey := session.currentMenu;
      session := session.(inputs := session.inputs + [digit]);
      activeCalls := activeCalls[callId := session];
      if menuKey !in table {
        return StateError(texts.badMenu);
      }
      var menu := table[menuKey];
      if menuKey == CollectNode && digit != Terminator {
        if IsDigits(digit) {
          session := session.(pnrBuffer := session.pnrBuffer + digit);
          activeCalls := activeCalls[callId := session];
          out := if |session.pnrBuffer| < PnrLength
                 then Collecting(texts.collectMore(digit), session.pnrBuffer)
                 else Collecting(texts.pressHash, session.pnrBuffer);
          assert step == Transition(out, session, false);
          assert activeCalls == old(activeCalls)[callId := session];
        } else {
          out := InvalidDigit(texts.digitsOnly);
        }
        return;
      }
      var options := menu.options;
      var found := Lookup(options, digit);
      if found.None? {
        return InvalidOption(texts.invalidOption, Keys(options));
      }
      match found.value
      case Goto(target, msg) =>
        session := session.(currentMenu := target);
        session := session.(menuPath := session.menuPath + [target]);
        activeCalls := activeCalls[callId := session];
        if target in table {
          out := Processed(msg, table[target].prompt, target);
        } else {
          out := MenuKeyError;
        }
        assert step == Transition(out, session, false);
        assert activeCalls == old(activeCalls)[callId := session];
      case End(msg) =>
        session := session.(endTime := Some(now));
        callHistory := callHistory + [session];
        activeCalls := activeCalls - {callId};
        out := CallEnded(msg);
        assert step == Transition(out, session, true);
        assert activeCalls == old(activeCalls) - {callId};
      case Transfer(msg) =>
        session := session.(endTime := Some(now));
        callHistory := callHistory + [session];
        activeCalls := activeCalls - {callId};
        out := Transferring(msg);
        assert step == Transition(out, session, true);
        assert activeCalls == old(activeCalls) - {callId};
      case LookupPnr(_) =>
        var pnr := session.pnrBuffer;
        if |pnr| == PnrLength {
          session := session.(endTime := Some(now));
          callHistory := callHistory + [session];
          activeCalls := activeCalls - {callId};
          out := PnrFound(FoundMessage(texts, pnr));
          assert step == Transition(out, session, true);
          assert activeCalls == old(activeCalls) - {callId};
        } else {
          session := session.(pnrBuffer := "");
          activeCalls := activeCalls[callId := session];
          out := InvalidPnr(texts.pnrIncomplete);
          assert step == Transition(out, session, false);
          assert activeCalls == old(activeCalls)[callId := session];
        }
      case Unknown(_, _) =>
        out := StateError(texts.unhandled);
    }

    /** The hangup endpoint. */
    method End(callId: string, now: string) returns (reply: EndReply)
      modifies this
      ensures (reply, Snapshot()) == EndSpec(old(Snapshot()), callId, now)
    {
      if callId in activeCalls {
        var session := activeCalls[callId];
        session := session.(endTime := Some(now));
        callHistory := callHistory + [session];
        activeCalls := activeCalls - {callId};
        return Ended(callId);
      }
      return NotFound(callId);
    }
  }
}
