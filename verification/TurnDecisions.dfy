/** What decides a turn for a result event that must be delivered: exactly which
    scripts end it waiting, and which have it answered without any message
    accepted by the provider. */
module TurnDecisions {
  import opened Wrappers
  import opened Interaction
  import opened TurnProperties

  // ------------------------------------------------------- the two model runs

  /** The model run returns an answer. */
  predicate Completes(e: Event, a: Attempt, t: Turn) { RunCalls(e.kind, t, a.calls).1 && a.ending.Finished? }

  function RanTurn(e: Event, a: Attempt, t: Turn): Turn { RunCalls(e.kind, t, a.calls).0 }

  /** The code-owned result message is refused by the message table, or its
      reservation is reported as failed. */
  predicate ResultLost(e: Event, a: Attempt, u: Turn) {
    && !Blank(e.resultBody) && Allocate(u, Some(RESULT_ID)).1 <= 5
    && (a.resultNet.ReserveFails? || a.resultNet.ReserveUnknown?)
  }

  /** The run reserves nothing and raises, or its result message is lost. */
  predicate Replays(e: Event, a: Attempt, t: Turn) {
    && RanTurn(e, a, t).reserved == {}
    && (if Completes(e, a, t) then ResultLost(e, a, RanTurn(e, a, t))
        else !RunCalls(e.kind, t, a.calls).1 || a.ending.Raised?)
  }

  /** The turn as the next run finds it. */
  function ReplayTurn(e: Event, a: Attempt, t: Turn): Turn {
    var u := RanTurn(e, a, t);
    if Completes(e, a, t) then SendStep(u, Some(RESULT_ID), e.resultBody, a.resultNet).0 else u
  }

  lemma LostExactly(e: Event, a: Attempt, u: Turn)
    requires u.reserved == {}
    ensures var (v, sent) := SendStep(u, Some(RESULT_ID), e.resultBody, a.resultNet);
            !sent && v.reserved == {} <==> ResultLost(e, a, u)
  {}

  lemma ReplaysExactly(e: Event, s: Script, i: nat, t: Turn, phases: seq<Phase>)
    requires MustDeliver(e) && i < 2
    ensures var next := AttemptStep(e, s, i, t, phases);
            && (next.Retry? <==> Replays(e, s.At(i), t))
            && (next.Retry? ==> next.turn == ReplayTurn(e, s.At(i), t))
  {
    var u := RanTurn(e, s.At(i), t);
    if u.reserved == {} { LostExactly(e, s.At(i), u); }
  }

  /** How a run that is not replayed ends the turn. */
  lemma StopsExactly(e: Event, s: Script, i: nat, t: Turn, phases: seq<Phase>)
    requires MustDeliver(e) && i < 2 && TurnOk(t) && !Replays(e, s.At(i), t)
    ensures var report := Attempts(e, s, i, t, phases);
            var a := s.At(i);
            var u := RanTurn(e, a, t);
            var (v, sent) := SendStep(u, Some(RESULT_ID), e.resultBody, a.resultNet);
            && (Answered(report) <==>
                 Completes(e, a, t) && if u.reserved != {} then Delivered(u) else sent && Delivered(v))
            && (Answered(report) && u.reserved != {} ==>
                 report.turn == u && report.end.state.value == a.ending.state)
            && (Answered(report) && u.reserved == {} ==> report.turn == v && report.end.state.value == Done)
  {
    ReplaysExactly(e, s, i, t, phases);
    assert EffectiveState(e, RanTurn(e, s.At(i), t), Done) == Done;
  }

  predicate Answered(r: Report) { r.end.Returned? && r.end.state.Some? }

  /** A replayed first run, then the second, then the apology, which answers nothing. */
  lemma SecondRunDecides(e: Event, s: Script)
    requires MustDeliver(e) && e.loaded && !e.stagedByThisRun && Replays(e, s.first, NEW_TURN)
    ensures exists phases :: RunTurn(e, s) == Attempts(e, s, 1, ReplayTurn(e, s.first, NEW_TURN), phases)
  {
    ReplaysExactly(e, s, 0, NEW_TURN, []);
    var next := AttemptStep(e, s, 0, NEW_TURN, []);
    assert RunTurn(e, s) == Attempts(e, s, 1, next.turn, next.phases);
  }

  lemma TwiceReplayedAnswersNothing(e: Event, s: Script, t: Turn, phases: seq<Phase>)
    requires MustDeliver(e) && Replays(e, s.second, t)
    ensures !Answered(Attempts(e, s, 1, t, phases))
  {
    ReplaysExactly(e, s, 1, t, phases);
    var next := AttemptStep(e, s, 1, t, phases);
    assert Attempts(e, s, 1, t, phases) == Attempts(e, s, 2, next.turn, next.phases);
  }

  lemma ReplayTurnOk(e: Event, a: Attempt, t: Turn)
    requires TurnOk(t)
    ensures TurnOk(RanTurn(e, a, t)) && TurnOk(ReplayTurn(e, a, t))
    ensures Extends(t, RanTurn(e, a, t)) && Extends(RanTurn(e, a, t), ReplayTurn(e, a, t))
  {
    CallsKeep(e.kind, t, a.calls);
    SendKeeps(RanTurn(e, a, t), Some(RESULT_ID), e.resultBody, a.resultNet);
  }

  // ----------------------------------------------------------------- waiting

  /** The run asks to wait, with a message reserved and one delivered. */
  predicate AsksToWait(e: Event, a: Attempt, t: Turn) {
    && Completes(e, a, t) && a.ending.state.WaitingExecution?
    && RanTurn(e, a, t).reserved != {} && Delivered(RanTurn(e, a, t))
  }

  predicate EndsWaiting(r: Report) { r.end == Returned(Some(WaitingExecution)) }

  lemma ConfirmationNeverWaits(e: Event, s: Script)
    ensures !EndsWaiting(Confirmation(e, s, NEW_TURN))
  {}

  /** WAITING SURVIVES ON A RESULT exactly when the deciding model run, the first
      one that is not replayed, asks to wait having reserved and delivered. */
  lemma WaitingOnResultExactly(e: Event, s: Script)
    requires MustDeliver(e)
    ensures EndsWaiting(RunTurn(e, s)) <==>
            && e.loaded && !e.stagedByThisRun
            && if Replays(e, s.first, NEW_TURN) then AsksToWait(e, s.second, ReplayTurn(e, s.first, NEW_TURN))
               else AsksToWait(e, s.first, NEW_TURN)
  {
    if e.loaded && !e.stagedByThisRun {
      if Replays(e, s.first, NEW_TURN) {
        SecondRunDecides(e, s);
        var t := ReplayTurn(e, s.first, NEW_TURN);
        var phases :| RunTurn(e, s) == Attempts(e, s, 1, t, phases);
        ReplayTurnOk(e, s.first, NEW_TURN);
        if Replays(e, s.second, t) {
          TwiceReplayedAnswersNothing(e, s, t, phases);
        } else {
          StopsExactly(e, s, 1, t, phases);
        }
      } else {
        StopsExactly(e, s, 0, NEW_TURN, []);
      }
    }
  }

  /** Such a turn exists: one accepted message, then a request to wait. */
  lemma WaitingOnResultHappens()
    ensures exists s: Script :: EndsWaiting(RunTurn(RESULT_EVENT, s))
  {
    var calls := [Send(Some("x"), "a", Accepted)];
    var first := Attempt(calls, Finished(WaitingExecution), Accepted);
    var s := Script(first, first, Accepted, Accepted);
    assert calls[1..] == [];
    var u := RunCall(ExecutionResult, NEW_TURN, calls[0]).0;
    assert RunCalls(ExecutionResult, NEW_TURN, calls) == (u, true);
    assert Allocate(NEW_TURN, Some("x")).1 == 1 && u.reserved == {1} && u.outcomes == [SentAndPersisted];
    assert Visible(u.outcomes[0]);
    WaitingOnResultExactly(RESULT_EVENT, s);
  }

  // ------------------------------------------------- answered without a message

  predicate AnsweredUnsent(r: Report) { Answered(r) && r.turn.accepted == [] }

  /** The send would reach its reservation. */
  predicate Reserves(t: Turn, id: Option<string>, body: string, net: Net) {
    && !Blank(body) && Allocate(t, id).1 <= 5 && !net.ReserveFails? && !net.ReserveUnknown?
  }

  /** An earlier send under its number was reserved already: it is not sent again. */
  predicate Repeats(t: Turn, id: Option<string>, body: string, net: Net) {
    Reserves(t, id, body, net) && Allocate(t, id).1 in t.rows
  }

  /** The provider takes the message. */
  predicate Taken(t: Turn, id: Option<string>, body: string, net: Net) {
    Reserves(t, id, body, net) && Allocate(t, id).1 !in t.rows && (net.Accepted? || net.AcceptedNotRecorded?)
  }

  /** u notes at most one more outcome than t. */
  predicate OneMoreNote(t: Turn, u: Turn) {
    t.outcomes <= u.outcomes && |u.outcomes| <= |t.outcomes| + 1
  }

  predicate NotesVisible(t: Turn, u: Turn) {
    u.outcomes != [] && u.outcomes != t.outcomes && Visible(u.outcomes[|u.outcomes| - 1])
  }

  lemma DeliveredAfter(t: Turn, u: Turn)
    requires OneMoreNote(t, u)
    ensures Delivered(u) <==> Delivered(t) || NotesVisible(t, u)
  {
    if Delivered(t) {
      var i :| 0 <= i < |t.outcomes| && Visible(t.outcomes[i]);
      assert u.outcomes[i] == t.outcomes[i];
    }
    if Delivered(u) {
      var i :| 0 <= i < |u.outcomes| && Visible(u.outcomes[i]);
      if i < |t.outcomes| { assert t.outcomes[i] == u.outcomes[i]; }
    }
  }

  lemma NumberedNotes(t: Turn, n: nat, net: Net)
    requires n <= 5 && !net.ReserveFails? && !net.ReserveUnknown?
    ensures var u := SendNumbered(t, n, net).0;
            && OneMoreNote(t, u)
            && (NotesVisible(t, u) <==> n in t.rows || net.Accepted? || net.AcceptedNotRecorded?)
            && (u.accepted == [] <==> t.accepted == [] && (n in t.rows || !(net.Accepted? || net.AcceptedNotRecorded?)))
  {}

  lemma UnreservedNotes(t: Turn, id: Option<string>, body: string, net: Net)
    requires !Reserves(t, id, body, net)
    ensures var u := SendStep(t, id, body, net).0;
            OneMoreNote(t, u) && !NotesVisible(t, u) && u.accepted == t.accepted
  {}

  /** What one send adds to the log. */
  lemma SendNotes(t: Turn, id: Option<string>, body: string, net: Net)
    ensures var u := SendStep(t, id, body, net).0;
            && OneMoreNote(t, u)
            && (NotesVisible(t, u) <==> Repeats(t, id, body, net) || Taken(t, id, body, net))
            && (u.accepted == [] <==> t.accepted == [] && !Taken(t, id, body, net))
  {
    if Reserves(t, id, body, net) {
      var (u, n) := Allocate(t, id);
      assert SendStep(t, id, body, net) == SendNumbered(u, n, net) && u.rows == t.rows;
      NumberedNotes(u, n, net);
    } else {
      UnreservedNotes(t, id, body, net);
    }
  }

  /** The exact guard of one send: it counts as delivered by repeating a reserved
      number or by being taken, and is accepted only by being taken. */
  lemma SendExactly(t: Turn, id: Option<string>, body: string, net: Net)
    ensures var u := SendStep(t, id, body, net).0;
            && (Delivered(u) <==> Delivered(t) || Repeats(t, id, body, net) || Taken(t, id, body, net))
            && (u.accepted == [] <==> t.accepted == [] && !Taken(t, id, body, net))
  {
    SendNotes(t, id, body, net);
    DeliveredAfter(t, SendStep(t, id, body, net).0);
  }

  predicate CallRepeats(t: Turn, c: Call) { c.Send? && Repeats(t, c.id, c.body, c.net) }

  predicate CallTaken(t: Turn, c: Call) { c.Send? && Taken(t, c.id, c.body, c.net) }

  /** Some call of the run repeats a number, in the turn its predecessors left. */
  predicate SomeRepeats(e: Event, t: Turn, calls: seq<Call>)
    decreases |calls|
  {
    calls != [] && (CallRepeats(t, calls[0]) || SomeRepeats(e, RunCall(e.kind, t, calls[0]).0, calls[1..]))
  }

  /** Some call of the run is taken. */
  predicate SomeTaken(e: Event, t: Turn, calls: seq<Call>)
    decreases |calls|
  {
    calls != [] && (CallTaken(t, calls[0]) || SomeTaken(e, RunCall(e.kind, t, calls[0]).0, calls[1..]))
  }

  lemma CallExactly(kind: EventKind, t: Turn, c: Call)
    requires TurnOk(t)
    ensures var u := RunCall(kind, t, c).0;
            && TurnOk(u)
            && (Delivered(u) <==> Delivered(t) || CallRepeats(t, c) || CallTaken(t, c))
            && (u.accepted == [] <==> t.accepted == [] && !CallTaken(t, c))
  {
    if c.Send? {
      SendKeeps(t, c.id, c.body, c.net);
      SendExactly(t, c.id, c.body, c.net);
    }
  }

  /** The guard over a whole run of calls that does not raise. */
  lemma {:induction false} RunExactly(e: Event, t: Turn, calls: seq<Call>)
    requires TurnOk(t) && RunCalls(e.kind, t, calls).1
    ensures var u := RunCalls(e.kind, t, calls).0;
            && (Delivered(u) <==> Delivered(t) || SomeRepeats(e, t, calls) || SomeTaken(e, t, calls))
            && (u.accepted == [] <==> t.accepted == [] && !SomeTaken(e, t, calls))
    decreases |calls|
  {
    if calls != [] {
      CallExactly(e.kind, t, calls[0]);
      RunExactly(e, RunCall(e.kind, t, calls[0]).0, calls[1..]);
    }
  }

  /** The run answers although nothing was accepted: some call repeated a number
      whose row was reserved and never accepted, and no call was taken; or it
      reserved nothing and the result message repeats such a number. */
  ghost predicate AnswersUnsent(e: Event, a: Attempt, t: Turn) {
    var u := RanTurn(e, a, t);
    && Completes(e, a, t)
    && if u.reserved != {} then SomeRepeats(e, t, a.calls) && !SomeTaken(e, t, a.calls)
       else Repeats(u, Some(RESULT_ID), e.resultBody, a.resultNet)
  }

  /** What the run answers with, if it does: its own messages or the result message. */
  lemma AnswersUnsentExactly(e: Event, a: Attempt, t: Turn)
    requires TurnOk(t) && t.reserved == {} && Completes(e, a, t)
    ensures var u := RanTurn(e, a, t);
            var (v, sent) := SendStep(u, Some(RESULT_ID), e.resultBody, a.resultNet);
            && (u.reserved != {} ==> (AnswersUnsent(e, a, t) <==> Delivered(u) && u.accepted == []))
            && (u.reserved == {} ==> (AnswersUnsent(e, a, t) <==> sent && Delivered(v) && v.accepted == []))
  {
    var u := RanTurn(e, a, t);
    NothingYet(t);
    RunExactly(e, t, a.calls);
    CallsKeep(e.kind, t, a.calls);
    if u.reserved == {} {
      NothingYet(u);
      SendExactly(u, Some(RESULT_ID), e.resultBody, a.resultNet);
      RepeatsAreSent(u, Some(RESULT_ID), e.resultBody, a.resultNet);
    }
  }

  lemma StopsUnsentExactly(e: Event, s: Script, i: nat, t: Turn, phases: seq<Phase>)
    requires MustDeliver(e) && i < 2 && TurnOk(t) && t.reserved == {} && !Replays(e, s.At(i), t)
    ensures AnsweredUnsent(Attempts(e, s, i, t, phases)) <==> AnswersUnsent(e, s.At(i), t)
  {
    StopsExactly(e, s, i, t, phases);
    if Completes(e, s.At(i), t) { AnswersUnsentExactly(e, s.At(i), t); }
  }

  lemma RepeatsAreSent(t: Turn, id: Option<string>, body: string, net: Net)
    ensures Repeats(t, id, body, net) ==> SendStep(t, id, body, net).1
  {}

  lemma ConfirmationIsSent(e: Event, s: Script)
    requires MustDeliver(e)
    ensures !AnsweredUnsent(Confirmation(e, s, NEW_TURN))
  {
    SendExactly(NEW_TURN, Some(CONFIRMATION_ID), e.confirmationBody, s.confirmationNet);
  }

  /** ANSWERED WITHOUT A MESSAGE: a result event is answered although the provider
      accepted nothing exactly when the deciding run answers so. */
  lemma AnsweredUnsentExactly(e: Event, s: Script)
    requires MustDeliver(e)
    ensures AnsweredUnsent(RunTurn(e, s)) <==>
            && e.loaded && !e.stagedByThisRun
            && if Replays(e, s.first, NEW_TURN) then
                 var t := ReplayTurn(e, s.first, NEW_TURN);
                 !Replays(e, s.second, t) && AnswersUnsent(e, s.second, t)
               else AnswersUnsent(e, s.first, NEW_TURN)
  {
    ConfirmationIsSent(e, s);
    if e.loaded && !e.stagedByThisRun {
      if Replays(e, s.first, NEW_TURN) {
        SecondRunDecides(e, s);
        var t := ReplayTurn(e, s.first, NEW_TURN);
        var phases :| RunTurn(e, s) == Attempts(e, s, 1, t, phases);
        ReplayTurnOk(e, s.first, NEW_TURN);
        if Replays(e, s.second, t) {
          TwiceReplayedAnswersNothing(e, s, t, phases);
        } else {
          ReplayReservesNothing(e, s.first, NEW_TURN);
          StopsUnsentExactly(e, s, 1, t, phases);
        }
      } else {
        StopsUnsentExactly(e, s, 0, NEW_TURN, []);
      }
    }
  }

  lemma ReplayReservesNothing(e: Event, a: Attempt, t: Turn)
    requires Replays(e, a, t)
    ensures ReplayTurn(e, a, t).reserved == {}
  {
    LostExactly(e, a, RanTurn(e, a, t));
  }

  // --------------------------------------------------- with fresh call ids only

  /** The model never reuses a call id, across both runs and the turn's own. */
  ghost predicate FreshIds(s: Script) {
    && DistinctIds(s.first.calls) && DistinctIds(s.second.calls)
    && Ids(s.first.calls) !! Ids(s.second.calls)
    && Ids(s.first.calls) !! OWN_IDS && Ids(s.second.calls) !! OWN_IDS
  }

  /** The run completes silently: an answer, and nothing reserved. */
  predicate Silently(e: Event, a: Attempt, t: Turn) { Completes(e, a, t) && RanTurn(e, a, t).reserved == {} }

  /** Both runs complete silently, and the result message is reserved by the first
      without its acknowledgement and found reserved by the second. */
  predicate LostReservation(e: Event, s: Script) {
    var t := ReplayTurn(e, s.first, NEW_TURN);
    && Silently(e, s.first, NEW_TURN) && ResultLost(e, s.first, RanTurn(e, s.first, NEW_TURN))
    && s.first.resultNet.ReserveUnknown?
    && Silently(e, s.second, t) && !s.second.resultNet.ReserveFails? && !s.second.resultNet.ReserveUnknown?
  }

  lemma UnrepeatedIsAccepted(u: Turn)
    requires TurnOk(u) && Delivered(u) && !Deduplicates(u)
    ensures u.accepted != []
  {
    var i :| 0 <= i < |u.outcomes| && Visible(u.outcomes[i]);
    assert u.outcomes[i] in u.outcomes;
  }

  /** A run of fresh ids that reserved something never answers unsent. */
  lemma FreshRunIsSent(e: Event, a: Attempt, t: Turn)
    requires TurnOk(t) && t.reserved == {} && !Deduplicates(t)
    requires DistinctIds(a.calls) && Ids(a.calls) !! t.sequenceOf.Keys
    ensures RanTurn(e, a, t).reserved != {} ==> !AnswersUnsent(e, a, t)
  {
    var u := RanTurn(e, a, t);
    CallsKeep(e.kind, t, a.calls);
    CallsAreNotDeduplicated(e.kind, t, a.calls);
    NothingYet(t);
    if Completes(e, a, t) {
      RunExactly(e, t, a.calls);
      if Delivered(u) { UnrepeatedIsAccepted(u); }
    }
  }

  lemma ResultNumber(e: Event, u: Turn, net: Net)
    requires TurnOk(u) && RESULT_ID !in u.sequenceOf && !Blank(e.resultBody)
    requires Allocate(u, Some(RESULT_ID)).1 <= 5 && (net.ReserveFails? || net.ReserveUnknown?)
    ensures var v := SendStep(u, Some(RESULT_ID), e.resultBody, net).0;
            && RESULT_ID in v.sequenceOf && v.sequenceOf[RESULT_ID] == Allocate(u, Some(RESULT_ID)).1
            && (v.sequenceOf[RESULT_ID] in v.rows <==> net.ReserveUnknown?)
            && v.sequenceOf.Keys == u.sequenceOf.Keys + {RESULT_ID} && v.outcomes == u.outcomes
  {
    AllocateKeeps(u, Some(RESULT_ID));
  }

  /** After the first run, replayed: fresh ids, and the result's number is in the
      message table exactly if its reservation was lost. */
  lemma AfterFirst(e: Event, s: Script)
    requires FreshIds(s) && Replays(e, s.first, NEW_TURN)
    ensures var t := ReplayTurn(e, s.first, NEW_TURN);
            && TurnOk(t) && !Deduplicates(t) && t.sequenceOf.Keys <= Ids(s.first.calls) + {RESULT_ID}
            && (!Unused(t, RESULT_ID) <==> Completes(e, s.first, NEW_TURN) && s.first.resultNet.ReserveUnknown?)
            && (!Unused(t, RESULT_ID) ==> t.sequenceOf[RESULT_ID] <= 5 && !Blank(e.resultBody))
  {
    var u := RanTurn(e, s.first, NEW_TURN);
    assert RESULT_ID in OWN_IDS;
    ReplayTurnOk(e, s.first, NEW_TURN);
    CallsAreNotDeduplicated(e.kind, NEW_TURN, s.first.calls);
    assert RESULT_ID !in u.sequenceOf;
    if Completes(e, s.first, NEW_TURN) { ResultNumber(e, u, s.first.resultNet); }
  }

  /** A first run of fresh ids, if it decides, never answers unsent. */
  lemma FirstRunIsSent(e: Event, s: Script)
    requires FreshIds(s)
    ensures !AnswersUnsent(e, s.first, NEW_TURN)
  {
    var u := RanTurn(e, s.first, NEW_TURN);
    assert RESULT_ID in OWN_IDS;
    ReplayTurnOk(e, s.first, NEW_TURN);
    CallsAreNotDeduplicated(e.kind, NEW_TURN, s.first.calls);
    FreshRunIsSent(e, s.first, NEW_TURN);
    AllocateKeeps(u, Some(RESULT_ID));
  }

  lemma SecondRunExactly(e: Event, s: Script, t: Turn)
    requires FreshIds(s) && TurnOk(t) && t.reserved == {} && !Deduplicates(t)
    requires t.sequenceOf.Keys <= Ids(s.first.calls) + {RESULT_ID}
    requires !Unused(t, RESULT_ID) ==> t.sequenceOf[RESULT_ID] <= 5 && !Blank(e.resultBody)
    ensures AnswersUnsent(e, s.second, t) <==>
            && Silently(e, s.second, t) && !Unused(t, RESULT_ID)
            && !s.second.resultNet.ReserveFails? && !s.second.resultNet.ReserveUnknown?
  {
    var u := RanTurn(e, s.second, t);
    assert RESULT_ID in OWN_IDS;
    FreshRunIsSent(e, s.second, t);
    CallsKeep(e.kind, t, s.second.calls);
    CallsAreNotDeduplicated(e.kind, t, s.second.calls);
    assert Unused(t, RESULT_ID) ==> Unused(u, RESULT_ID);
    ResultRepeatsExactly(e, u, s.second.resultNet, t);
  }

  /** The result message repeats a number exactly if it was used before. */
  lemma ResultRepeatsExactly(e: Event, u: Turn, net: Net, t: Turn)
    requires TurnOk(u) && Extends(t, u) && (Unused(t, RESULT_ID) ==> Unused(u, RESULT_ID))
    requires !Unused(t, RESULT_ID) ==> t.sequenceOf[RESULT_ID] <= 5 && !Blank(e.resultBody)
    ensures Repeats(u, Some(RESULT_ID), e.resultBody, net)
        <==> !Unused(t, RESULT_ID) && !net.ReserveFails? && !net.ReserveUnknown?
  {
    if Unused(t, RESULT_ID) { AllocateKeeps(u, Some(RESULT_ID)); }
  }

  /** WITH FRESH CALL IDS a result event is answered without an accepted message
      exactly when both model runs complete silently and the reservation of the
      first result message committed although it was reported as failed. */
  lemma FreshAnsweredUnsentExactly(e: Event, s: Script)
    requires MustDeliver(e) && FreshIds(s)
    ensures AnsweredUnsent(RunTurn(e, s)) <==> e.loaded && !e.stagedByThisRun && LostReservation(e, s)
  {
    AnsweredUnsentExactly(e, s);
    FirstRunIsSent(e, s);
    var t := ReplayTurn(e, s.first, NEW_TURN);
    if Replays(e, s.first, NEW_TURN) {
      AfterFirst(e, s);
      ReplayReservesNothing(e, s.first, NEW_TURN);
      SecondRunExactly(e, s, t);
    }
  }
}
