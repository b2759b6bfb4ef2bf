/** How every Interaction turn ends: with which state it answers, when it sends the
    fixed apology, and when it raises, for every event and script. */
module TurnEnds {
  import opened Wrappers
  import opened Interaction
  import opened TurnProperties
  import opened TurnDecisions

  // ----------------------------------------------------------- the active flag

  /** What the last dispatch that was run reported, if any was. */
  function Reported(t: Turn, calls: seq<Call>, before: bool): bool
    decreases |calls|
  {
    if calls == [] then before
    else
      var (u, ok) := RunCall(UserInbound, t, calls[0]);
      var now := if calls[0].Dispatch? then calls[0].hasActiveRun else before;
      if ok then Reported(u, calls[1..], now) else now
  }

  lemma CallReports(t: Turn, c: Call)
    ensures RunCall(UserInbound, t, c).0.hasActiveRun == if c.Dispatch? then c.hasActiveRun else t.hasActiveRun
  {}

  lemma {:induction false} FlagIsReported(t: Turn, calls: seq<Call>)
    ensures RunCalls(UserInbound, t, calls).0.hasActiveRun == Reported(t, calls, t.hasActiveRun)
    decreases |calls|
  {
    if calls != [] {
      CallReports(t, calls[0]);
      FlagIsReported(RunCall(UserInbound, t, calls[0]).0, calls[1..]);
    }
  }

  /** The first run reserves nothing and raises, so a second one is made. */
  predicate TriesAgain(e: Event, s: Script) {
    var (u, ok) := RunCalls(e.kind, NEW_TURN, s.first.calls);
    u.reserved == {} && (!ok || s.first.ending == Raised)
  }

  /** The deciding run and the turn as it finds it. */
  function Deciding(e: Event, s: Script): (Attempt, Turn) {
    if TriesAgain(e, s) then (s.second, RunCalls(e.kind, NEW_TURN, s.first.calls).0) else (s.first, NEW_TURN)
  }

  /** An active run was loaded, or reported by the last dispatch of the turn. */
  predicate SomethingRuns(e: Event, s: Script) {
    e.activeRunLoaded
    || var first := Reported(NEW_TURN, s.first.calls, false);
       if TriesAgain(e, s) then Reported(Deciding(e, s).1, s.second.calls, first) else first
  }

  /** The event is one that need not be answered visibly by a result. */
  predicate Ordinary(e: Event) {
    e.loaded && !(e.kind == ExecutionResult && (e.requireVisible || e.stagedByThisRun))
  }

  lemma OrdinaryStep(e: Event, s: Script, i: nat, t: Turn, phases: seq<Phase>)
    requires Ordinary(e) && i < 2
    ensures var a := s.At(i);
            var (u, ok) := RunCalls(e.kind, t, a.calls);
            var next := AttemptStep(e, s, i, t, phases);
            && (next.Retry? <==> u.reserved == {} && (!ok || a.ending == Raised))
            && (next.Retry? ==> next.turn == u)
            && (forall state :: next.Stop? && next.report.end == Returned(Some(state)) <==>
                 ok && a.ending.Finished? && state == EffectiveState(e, u, a.ending.state))
  {}

  lemma OrdinaryAttempts(e: Event, s: Script)
    requires Ordinary(e)
    ensures var (a, t) := Deciding(e, s);
            var (u, ok) := RunCalls(e.kind, t, a.calls);
            forall state :: RunTurn(e, s).end == Returned(Some(state)) <==>
                 ok && a.ending.Finished? && state == EffectiveState(e, u, a.ending.state)
  {
    OrdinaryStep(e, s, 0, NEW_TURN, []);
    var next := AttemptStep(e, s, 0, NEW_TURN, []);
    if next.Retry? {
      OrdinaryStep(e, s, 1, next.turn, next.phases);
      var last := AttemptStep(e, s, 1, next.turn, next.phases);
      assert RunTurn(e, s) == Attempts(e, s, 1, next.turn, next.phases);
      if last.Retry? { assert RunTurn(e, s) == Attempts(e, s, 2, last.turn, last.phases); }
    }
  }

  lemma DecidedFlag(e: Event, s: Script)
    requires e.kind == UserInbound
    ensures var (a, t) := Deciding(e, s);
            (RunCalls(e.kind, t, a.calls).0.hasActiveRun || e.activeRunLoaded) <==> SomethingRuns(e, s)
  {
    FlagIsReported(NEW_TURN, s.first.calls);
    FlagIsReported(Deciding(e, s).1, s.second.calls);
  }

  /** HOW AN ORDINARY TURN ANSWERS: with the state its deciding run finished with, and
      only then; except that a person is not left waiting when nothing runs. */
  lemma OrdinaryTurnAnswers(e: Event, s: Script, state: TurnState)
    requires Ordinary(e)
    ensures var (a, t) := Deciding(e, s);
            RunTurn(e, s).end == Returned(Some(state)) <==>
              && RunCalls(e.kind, t, a.calls).1 && a.ending.Finished?
              && if e.kind == UserInbound && a.ending.state == WaitingExecution && !SomethingRuns(e, s)
                 then state == Done else state == a.ending.state
  {
    OrdinaryAttempts(e, s);
    if e.kind == UserInbound { DecidedFlag(e, s); }
  }

  /** A PERSON WAITS exactly for work: the deciding run asked to wait, and a run was
      active when the context was loaded or as the last dispatch reported. */
  lemma PersonWaitsExactly(e: Event, s: Script)
    requires Ordinary(e) && e.kind == UserInbound
    ensures var (a, t) := Deciding(e, s);
            RunTurn(e, s).end == Returned(Some(WaitingExecution)) <==>
              RunCalls(e.kind, t, a.calls).1 && a.ending == Finished(WaitingExecution) && SomethingRuns(e, s)
  {
    OrdinaryTurnAnswers(e, s, WaitingExecution);
  }

  /** Such a turn exists: it dispatches, hears that a run is active, and waits. */
  lemma PersonWaitsHappens()
    ensures exists e: Event, s: Script ::
              e.kind == UserInbound && !e.activeRunLoaded && RunTurn(e, s).end == Returned(Some(WaitingExecution))
  {
    var e := Event(UserInbound, false, true, false, false, "", "");
    var first := Attempt([Dispatch(true)], Finished(WaitingExecution), Accepted);
    var s := Script(first, first, Accepted, Accepted);
    assert s.first.calls[1..] == [];
    PersonWaitsExactly(e, s);
  }

  // ------------------------------------------------------------ result events

  /** The run has a message taken by the provider, or repeats a reserved number. */
  predicate Reaches(e: Event, a: Attempt, t: Turn) { SomeRepeats(e, t, a.calls) || SomeTaken(e, t, a.calls) }

  /** The result message is taken, or repeats a reserved number. */
  predicate ResultReaches(e: Event, a: Attempt, u: Turn) {
    var id := Some("execution-result-fallback");
    Repeats(u, id, e.resultBody, a.resultNet) || Taken(u, id, e.resultBody, a.resultNet)
  }

  /** With which state the run answers, if it is not replayed. */
  predicate AnswersWith(e: Event, a: Attempt, t: Turn, state: TurnState) {
    var u := RanTurn(e, a, t);
    && Completes(e, a, t)
    && if u.reserved != {} then Reaches(e, a, t) && state == a.ending.state
       else ResultReaches(e, a, u) && state == Done
  }

  lemma ResultSends(e: Event, a: Attempt, u: Turn)
    requires TurnOk(u) && u.reserved == {}
    ensures var (v, sent) := SendStep(u, Some(RESULT_ID), e.resultBody, a.resultNet);
            sent && Delivered(v) <==> ResultReaches(e, a, u)
  {
    SendExactly(u, Some(RESULT_ID), e.resultBody, a.resultNet);
    NothingYet(u);
    SendRaisesExactly(u, Some(RESULT_ID), e.resultBody, a.resultNet);
  }

  /** A send raises exactly if its reservation fails or is reported as failed, or a
      refusal of a new number cannot be recorded. */
  lemma SendRaisesExactly(t: Turn, id: Option<string>, body: string, net: Net)
    ensures !SendStep(t, id, body, net).1 <==>
              && !Blank(body) && Allocate(t, id).1 <= 5
              && (net.ReserveFails? || net.ReserveUnknown?
                  || (net.RejectedNotRecorded? && Allocate(t, id).1 !in t.rows))
  {}

  lemma AnswersExactly(e: Event, s: Script, i: nat, t: Turn, phases: seq<Phase>, state: TurnState)
    requires MustDeliver(e) && i < 2 && TurnOk(t) && t.reserved == {} && !Replays(e, s.At(i), t)
    ensures Attempts(e, s, i, t, phases).end == Returned(Some(state)) <==> AnswersWith(e, s.At(i), t, state)
  {
    var a := s.At(i);
    var u := RanTurn(e, a, t);
    StopsExactly(e, s, i, t, phases);
    CallsKeep(e.kind, t, a.calls);
    NothingYet(t);
    if Completes(e, a, t) { RunExactly(e, t, a.calls); }
    if u.reserved == {} { ResultSends(e, a, u); }
  }

  /** HOW A RESULT TURN ANSWERS, when it must be visible: with the state its deciding run
      finished with if that run reserved and reached the person, with done if it
      reserved nothing and the result message did, and in no other case. */
  lemma ResultTurnAnswers(e: Event, s: Script, state: TurnState)
    requires e.loaded && e.kind == ExecutionResult && e.requireVisible && !e.stagedByThisRun
    ensures RunTurn(e, s).end == Returned(Some(state)) <==>
              if Replays(e, s.first, NEW_TURN) then
                var t := ReplayTurn(e, s.first, NEW_TURN);
                !Replays(e, s.second, t) && AnswersWith(e, s.second, t, state)
              else AnswersWith(e, s.first, NEW_TURN, state)
  {
    if Replays(e, s.first, NEW_TURN) {
      SecondRunDecides(e, s);
      var t := ReplayTurn(e, s.first, NEW_TURN);
      var phases :| RunTurn(e, s) == Attempts(e, s, 1, t, phases);
      ReplayTurnOk(e, s.first, NEW_TURN);
      ReplayReservesNothing(e, s.first, NEW_TURN);
      if Replays(e, s.second, t) {
        TwiceReplayedAnswersNothing(e, s, t, phases);
      } else {
        AnswersExactly(e, s, 1, t, phases, state);
      }
    } else {
      AnswersExactly(e, s, 0, NEW_TURN, [], state);
    }
  }

  /** THE CODE-OWNED CONFIRMATION answers done if the provider took it, or it need not be
      visible and did not raise; raises if it did; and answers nothing otherwise. */
  lemma ConfirmationAnswers(e: Event, s: Script)
    requires e.loaded && e.kind == ExecutionResult && e.stagedByThisRun
    ensures var raises := !Blank(e.confirmationBody)
                          && s.confirmationNet in {ReserveFails, ReserveUnknown, RejectedNotRecorded};
            var taken := !Blank(e.confirmationBody) && s.confirmationNet in {Accepted, AcceptedNotRecorded};
            RunTurn(e, s).end == if raises then Propagated
                                 else Returned(if taken || !e.requireVisible then Some(Done) else None)
    ensures SendsVisibly(NEW_TURN, RunTurn(e, s).turn, Some("pending-action-confirmation"), e.confirmationBody,
                         s.confirmationNet, RunTurn(e, s).end.Returned?)
  {
    SendStepSends(NEW_TURN, Some(CONFIRMATION_ID), e.confirmationBody, s.confirmationNet);
    SendExactly(NEW_TURN, Some(CONFIRMATION_ID), e.confirmationBody, s.confirmationNet);
    SendRaisesExactly(NEW_TURN, Some(CONFIRMATION_ID), e.confirmationBody, s.confirmationNet);
    assert Allocate(NEW_TURN, Some(CONFIRMATION_ID)).1 == 1;
  }

  /** Without its context a turn answers nothing and does nothing. */
  lemma UnloadedAnswersNothing(e: Event, s: Script)
    requires !e.loaded
    ensures RunTurn(e, s) == Report(Returned(None), Turn(map[], {}, [], false, map[], [], []), [])
  {}

  // -------------------------------------------------------------- the apology

  predicate Apologizes(r: Report) { r.phases != [] && r.phases[|r.phases| - 1].FixedFallback? }

  /** The apology is sent last, and the turn answers nothing or raises with it. */
  ghost predicate ApologizedFrom(t: Turn, r: Report, s: Script) {
    && SendsVisibly(t, r.turn, Some("fallback"), "desculpa, tive um problema… tenta de novo em instantes.",
                    s.fallbackNet, r.end.Returned?)
    && (r.end == Returned(None) || r.end == Propagated)
  }

  lemma FallbackApologizes(s: Script, t: Turn, phases: seq<Phase>)
    ensures ApologizedFrom(t, Fallback(s, t, phases), s) && Apologizes(Fallback(s, t, phases))
  {
    SendStepSends(t, Some(FALLBACK_ID), FALLBACK_REPLY, s.fallbackNet);
  }

  /** The run hits its request limit having reserved nothing. */
  predicate Exhausted(e: Event, a: Attempt, t: Turn) {
    RunCalls(e.kind, t, a.calls).1 && a.ending.UsageLimit? && RanTurn(e, a, t).reserved == {}
  }

  /** The run reserves nothing and raises, or its result message is lost. */
  predicate Retried(e: Event, a: Attempt, t: Turn) {
    var u := RanTurn(e, a, t);
    && u.reserved == {}
    && (|| !RunCalls(e.kind, t, a.calls).1 || a.ending.Raised?
        || (a.ending.Finished? && e.requireVisible && e.kind == ExecutionResult && ResultLost(e, a, u)))
  }

  function RetryTurn(e: Event, a: Attempt, t: Turn): Turn {
    var u := RanTurn(e, a, t);
    if Completes(e, a, t) then SendStep(u, Some("execution-result-fallback"), e.resultBody, a.resultNet).0 else u
  }

  lemma StepApologizes(e: Event, s: Script, i: nat, t: Turn, phases: seq<Phase>)
    requires i < 2 && forall k :: 0 <= k < |phases| ==> !phases[k].FixedFallback?
    ensures var next := AttemptStep(e, s, i, t, phases);
            && (next.Retry? <==> Retried(e, s.At(i), t))
            && (next.Retry? ==> next.turn == RetryTurn(e, s.At(i), t)
                                && forall k :: 0 <= k < |next.phases| ==> !next.phases[k].FixedFallback?)
            && (next.Stop? ==> (Apologizes(next.report) <==> Exhausted(e, s.At(i), t)))
  {
    var u := RanTurn(e, s.At(i), t);
    if u.reserved == {} { LostExactly(e, s.At(i), u); }
  }

  lemma ExhaustedApologizes(e: Event, s: Script, i: nat, t: Turn, phases: seq<Phase>)
    requires i < 2 && Exhausted(e, s.At(i), t)
    ensures var next := AttemptStep(e, s, i, t, phases);
            next.Stop? && ApologizedFrom(RanTurn(e, s.At(i), t), next.report, s)
  {
    FallbackApologizes(s, RanTurn(e, s.At(i), t), phases + [ModelRun(t.reserved, |t.sends|)]);
  }

  /** THE APOLOGY IS SENT exactly if a run hits its request limit having reserved nothing,
      or both runs have to be retried; it is the last thing the turn sends, which answers
      nothing, and raises if the apology does. */
  lemma ApologyExactly(e: Event, s: Script)
    requires e.loaded && !(e.kind == ExecutionResult && e.stagedByThisRun)
    ensures var t := RetryTurn(e, s.first, NEW_TURN);
            Apologizes(RunTurn(e, s)) <==>
              if Retried(e, s.first, NEW_TURN) then Retried(e, s.second, t) || Exhausted(e, s.second, t)
              else Exhausted(e, s.first, NEW_TURN)
    ensures Apologizes(RunTurn(e, s)) ==> exists t :: ApologizedFrom(t, RunTurn(e, s), s)
  {
    StepApologizes(e, s, 0, NEW_TURN, []);
    var next := AttemptStep(e, s, 0, NEW_TURN, []);
    if Exhausted(e, s.first, NEW_TURN) { ExhaustedApologizes(e, s, 0, NEW_TURN, []); }
    if next.Retry? {
      StepApologizes(e, s, 1, next.turn, next.phases);
      if Exhausted(e, s.second, next.turn) { ExhaustedApologizes(e, s, 1, next.turn, next.phases); }
      var last := AttemptStep(e, s, 1, next.turn, next.phases);
      assert RunTurn(e, s) == Attempts(e, s, 1, next.turn, next.phases);
      if last.Retry? {
        assert RunTurn(e, s) == Attempts(e, s, 2, last.turn, last.phases);
        FallbackApologizes(s, last.turn, last.phases);
      }
    }
  }
}
