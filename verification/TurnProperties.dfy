/** What every Interaction turn keeps, whatever the model, the provider and the
    database do: sequence numbering, the fuse, replay safety and delivery. */
module TurnProperties {
  import opened Wrappers
  import opened Interaction
  import Table

  ghost predicate NoRepeats(xs: seq<nat>) {
    forall i, j :: 0 <= i < j < |xs| ==> xs[i] != xs[j]
  }

  ghost predicate HasNumber(m: map<string, nat>, n: nat) { exists k :: k in m && m[k] == n }

  /** Call ids are numbered 1..n without gaps or collisions. */
  ghost predicate Numbered(m: map<string, nat>) {
    && (forall k :: k in m ==> 1 <= m[k] <= |m|)
    && (forall j, k :: j in m && k in m && m[j] == m[k] ==> j == k)
    && (forall n: nat :: 1 <= n <= |m| ==> HasNumber(m, n))
  }

  predicate ProviderAccepted(o: Outcome) { o.SentAndPersisted? || o.SentNotPersisted? }

  /** A recorded acceptance is an acceptance, and nothing counts as delivered
      without a reservation. */
  ghost predicate OutcomesOk(t: Turn) {
    forall i :: 0 <= i < |t.outcomes| ==>
      && (ProviderAccepted(t.outcomes[i]) ==> t.accepted != [])
      && (Visible(t.outcomes[i]) ==> t.reserved != {})
  }

  /** The recorded delivery of a row is what the provider did with it. */
  ghost predicate RowsOk(t: Turn) {
    forall n :: n in t.rows ==>
      && 1 <= n <= |t.sequenceOf| && n <= 5
      && (t.rows[n].Sent? ==> n in t.accepted)
      && (t.rows[n].Undelivered? ==> n in t.sends && n !in t.accepted)
  }

  /** Sends stay behind reservations and reservations behind the fuse. */
  ghost predicate LogOk(t: Turn) {
    && t.reserved <= t.rows.Keys
    && NoRepeats(t.sends) && NoRepeats(t.accepted)
    && (forall n :: n in t.sends ==> n in t.reserved)
    && (forall n :: n in t.accepted ==> n in t.sends)
  }

  ghost predicate TurnOk(t: Turn) { Numbered(t.sequenceOf) && RowsOk(t) && LogOk(t) && OutcomesOk(t) }

  /** Nothing already numbered, reserved, sent or noted is ever revised. */
  ghost predicate Extends(t: Turn, u: Turn) {
    && (forall k :: k in t.sequenceOf ==> k in u.sequenceOf && u.sequenceOf[k] == t.sequenceOf[k])
    && t.reserved <= u.reserved && t.rows.Keys <= u.rows.Keys
    && t.sends <= u.sends && t.accepted <= u.accepted && t.outcomes <= u.outcomes
  }

  lemma AllocateKeeps(t: Turn, id: Option<string>)
    requires TurnOk(t)
    ensures var (u, n) := Allocate(t, id);
            && TurnOk(u) && Extends(t, u)
            && CallKey(t, id) in u.sequenceOf && u.sequenceOf[CallKey(t, id)] == n
            && (CallKey(t, id) !in t.sequenceOf ==> n !in t.rows)
  {
    var key := CallKey(t, id);
    if key !in t.sequenceOf {
      var m := t.sequenceOf[key := |t.sequenceOf| + 1];
      forall n: nat | 1 <= n <= |m| ensures HasNumber(m, n) {
        if n == |m| {
          assert m[key] == n;
        } else {
          assert HasNumber(t.sequenceOf, n);
          var k :| k in t.sequenceOf && t.sequenceOf[k] == n;
          assert m[k] == n;
        }
      }
    }
  }

  lemma NoteKeeps(t: Turn, o: Outcome)
    requires TurnOk(t)
    requires (ProviderAccepted(o) ==> t.accepted != []) && (Visible(o) ==> t.reserved != {})
    ensures TurnOk(Note(t, o)) && Extends(t, Note(t, o))
  {}

  lemma CalledKeeps(t: Turn, n: nat)
    requires TurnOk(t) && n in t.reserved && n !in t.sends
    ensures TurnOk(t.(sends := t.sends + [n])) && Extends(t, t.(sends := t.sends + [n]))
  {}

  lemma AcceptedKeeps(t: Turn, n: nat)
    requires TurnOk(t) && n in t.sends && n !in t.accepted && n in t.rows && t.rows[n].Reserved?
    ensures TurnOk(t.(accepted := t.accepted + [n])) && Extends(t, t.(accepted := t.accepted + [n]))
  {}

  lemma RowKeeps(t: Turn, n: nat, d: Delivery)
    requires TurnOk(t) && n in t.rows && n in t.sends
    requires (d.Sent? ==> n in t.accepted) && (d.Undelivered? ==> n !in t.accepted)
    ensures TurnOk(t.(rows := t.rows[n := d])) && Extends(t, t.(rows := t.rows[n := d]))
  {}

  lemma AcceptedSendKeeps(t: Turn, n: nat)
    requires TurnOk(t) && n in t.sends && n !in t.accepted && n in t.rows && t.rows[n].Reserved?
    ensures var u := t.(accepted := t.accepted + [n]);
            && TurnOk(Note(u, SentNotPersisted)) && Extends(t, Note(u, SentNotPersisted))
            && TurnOk(Note(u, SentAndPersisted).(rows := t.rows[n := Sent]))
            && Extends(t, Note(u, SentAndPersisted).(rows := t.rows[n := Sent]))
  {
    var u := t.(accepted := t.accepted + [n]);
    AcceptedKeeps(t, n);
    assert n in t.reserved;
    NoteKeeps(u, SentNotPersisted);
    NoteKeeps(u, SentAndPersisted);
    RowKeeps(Note(u, SentAndPersisted), n, Sent);
  }

  lemma DeliverKeeps(t: Turn, n: nat, net: Net)
    requires TurnOk(t) && n in t.reserved && n !in t.sends && t.rows[n].Reserved?
    ensures TurnOk(Deliver(t, n, net).0) && Extends(t, Deliver(t, n, net).0)
  {
    var sent := t.(sends := t.sends + [n]);
    CalledKeeps(t, n);
    if net.Rejected? || net.RejectedNotRecorded? {
      NoteKeeps(sent, SendFailed);
      RowKeeps(Note(sent, SendFailed), n, Undelivered);
    } else {
      AcceptedSendKeeps(sent, n);
    }
  }

  lemma NumberedSendKeeps(t: Turn, n: nat, net: Net)
    requires TurnOk(t) && 1 <= n <= |t.sequenceOf|
    ensures TurnOk(SendNumbered(t, n, net).0) && Extends(t, SendNumbered(t, n, net).0)
  {
    if n > 5 {
      NoteKeeps(t, SkippedLimit);
    } else if !net.ReserveFails? && !net.ReserveUnknown? {
      if n in t.rows {
        NoteKeeps(t.(reserved := t.reserved + {n}), Deduplicated);
      } else {
        DeliverKeeps(t.(reserved := t.reserved + {n}, rows := t.rows[n := Reserved]), n, net);
      }
    }
  }

  lemma SendKeeps(t: Turn, id: Option<string>, body: string, net: Net)
    requires TurnOk(t)
    ensures TurnOk(SendStep(t, id, body, net).0) && Extends(t, SendStep(t, id, body, net).0)
  {
    if Blank(body) {
      NoteKeeps(t, SkippedEmpty);
    } else {
      AllocateKeeps(t, id);
      var (u, n) := Allocate(t, id);
      NumberedSendKeeps(u, n, net);
    }
  }

  lemma {:induction false} CallsKeep(kind: EventKind, t: Turn, calls: seq<Call>)
    requires TurnOk(t)
    ensures TurnOk(RunCalls(kind, t, calls).0) && Extends(t, RunCalls(kind, t, calls).0)
    decreases |calls|
  {
    if calls != [] {
      var (u, ok) := RunCall(kind, t, calls[0]);
      if calls[0].Send? { SendKeeps(t, calls[0].id, calls[0].body, calls[0].net); }
      if ok { CallsKeep(kind, u, calls[1..]); }
    }
  }

  // ------------------------------------------------------------- whole turns

  function IsModelRun(): Phase -> bool { (p: Phase) => p.ModelRun? }

  /** A model replay or a fallback starts only with a clean slate: nothing
      reserved by this process and nothing handed to the provider. */
  predicate CleanSlate(p: Phase) { p.reserved == {} && p.sends == 0 }

  ghost predicate PhasesOk(phases: seq<Phase>) {
    && Table.Count(phases, IsModelRun()) <= 2
    && (forall i :: 0 <= i < |phases| ==> CleanSlate(phases[i]))
    && (forall i :: 0 <= i < |phases| - 1 ==> !phases[i].FixedFallback?)
  }

  lemma FallbackKeeps(s: Script, t: Turn, phases: seq<Phase>)
    requires TurnOk(t) && t.reserved == {} && PhasesOk(phases)
    requires forall i :: 0 <= i < |phases| ==> !phases[i].FixedFallback?
    ensures var r := Fallback(s, t, phases);
            TurnOk(r.turn) && PhasesOk(r.phases) && (r.end.Returned? ==> r.end.state.None?)
  {
    SendKeeps(t, Some(FALLBACK_ID), FALLBACK_REPLY, s.fallbackNet);
    NoSends(t);
    Table.CountAppend(phases, FixedFallback(t.reserved, |t.sends|), IsModelRun());
  }

  lemma SendsAreReserved(t: Turn)
    requires TurnOk(t) && t.sends != []
    ensures t.reserved != {}
  {
    assert t.sends[0] in t.reserved;
  }

  lemma NoSends(t: Turn)
    requires TurnOk(t) && t.reserved == {}
    ensures t.sends == [] && !Delivered(t)
  {
    if t.sends != [] { SendsAreReserved(t); }
  }

  lemma AcceptedAreReserved(t: Turn)
    requires TurnOk(t) && t.accepted != []
    ensures t.reserved != {}
  {
    assert t.accepted[0] in t.sends;
  }

  lemma NothingYet(t: Turn)
    requires TurnOk(t) && t.reserved == {}
    ensures !Delivered(t) && t.accepted == []
  {
    NoSends(t);
    if t.accepted != [] { AcceptedAreReserved(t); }
  }

  ghost predicate ReportOk(e: Event, r: Report) {
    && TurnOk(r.turn) && PhasesOk(r.phases)
    && (MustDeliver(e) && r.end.Returned? && r.end.state.Some? ==> Delivered(r.turn))
    && (e.kind.UserInbound? && r.end == Returned(Some(WaitingExecution)) ==>
        r.turn.hasActiveRun || e.activeRunLoaded)
  }

  /** The phases before the i-th model run. */
  ghost predicate Before(i: nat, phases: seq<Phase>) {
    && PhasesOk(phases) && Table.Count(phases, IsModelRun()) == i
    && forall k :: 0 <= k < |phases| ==> !phases[k].FixedFallback?
  }

  lemma PhaseAdded(i: nat, phases: seq<Phase>, p: Phase)
    requires Before(i, phases) && CleanSlate(p)
    requires !p.FixedFallback? && (p.ModelRun? ==> i < 2)
    ensures Before(if p.ModelRun? then i + 1 else i, phases + [p])
  {
    Table.CountAppend(phases, p, IsModelRun());
  }

  lemma ResultFallbackKeeps(e: Event, s: Script, i: nat, t: Turn, phases: seq<Phase>)
    requires i < 2 && TurnOk(t) && t.reserved == {} && Before(i + 1, phases) && MustDeliver(e)
    ensures var (v, sent) := SendStep(t, Some(RESULT_ID), e.resultBody, s.At(i).resultNet);
            var fell := phases + [ResultFallback(t.reserved, |t.sends|)];
            && TurnOk(v) && Before(i + 1, fell)
            && (sent ==> ReportOk(e, Conclude(e, v, Done, fell)))
            && (v.reserved != {} ==> ReportOk(e, Report(Returned(None), v, fell)))
  {
    NoSends(t);
    SendKeeps(t, Some(RESULT_ID), e.resultBody, s.At(i).resultNet);
    PhaseAdded(i + 1, phases, ResultFallback(t.reserved, |t.sends|));
  }

  lemma ConcludeKeeps(e: Event, t: Turn, state: TurnState, phases: seq<Phase>)
    requires TurnOk(t) && PhasesOk(phases)
    ensures ReportOk(e, Conclude(e, t, EffectiveState(e, t, state), phases))
  {}

  ghost predicate NextOk(e: Event, i: nat, next: Next) {
    match next
    case Stop(report) => ReportOk(e, report)
    case Retry(t, phases) => TurnOk(t) && t.reserved == {} && Before(i + 1, phases)
  }

  lemma ModelRunKeeps(e: Event, s: Script, i: nat, u: Turn, ok: bool, ran: seq<Phase>)
    requires i < 2 && TurnOk(u) && Before(i + 1, ran)
    ensures NextOk(e, i, AfterModelRun(e, s, s.At(i), u, ok, ran))
  {
    var a := s.At(i);
    if ok && a.ending.UsageLimit? && u.reserved == {} {
      FallbackKeeps(s, u, ran);
    } else if ok && a.ending.Finished? {
      if MustDeliver(e) && u.reserved == {} {
        ResultFallbackKeeps(e, s, i, u, ran);
      } else {
        ConcludeKeeps(e, u, a.ending.state, ran);
      }
    }
  }

  lemma {:induction false} AttemptsKeep(e: Event, s: Script, i: nat, t: Turn, phases: seq<Phase>)
    requires i <= 2 && TurnOk(t) && t.reserved == {} && Before(i, phases)
    ensures ReportOk(e, Attempts(e, s, i, t, phases))
    decreases 2 - i
  {
    if i == 2 {
      FallbackKeeps(s, t, phases);
    } else {
      NoSends(t);
      var (u, ok) := RunCalls(e.kind, t, s.At(i).calls);
      CallsKeep(e.kind, t, s.At(i).calls);
      PhaseAdded(i, phases, ModelRun(t.reserved, |t.sends|));
      ModelRunKeeps(e, s, i, u, ok, phases + [ModelRun(t.reserved, |t.sends|)]);
      var next := AttemptStep(e, s, i, t, phases);
      if next.Retry? { AttemptsKeep(e, s, i + 1, next.turn, next.phases); }
    }
  }

  /** THE TURN IS SAFE. Sequence numbers are exactly 1..n, one per call id; at
      most five provider calls happen, no two for one sequence; the model runs
      at most twice; every replay or fallback starts with nothing reserved and
      nothing sent; the fixed apology is the last thing tried. */
  lemma TurnIsSafe(e: Event, s: Script)
    ensures var r := RunTurn(e, s);
            && Numbered(r.turn.sequenceOf)
            && |r.turn.sends| <= 5 && NoRepeats(r.turn.sends)
            && (forall n :: n in r.turn.accepted ==> n in r.turn.sends)
            && RowsOk(r.turn)
            && PhasesOk(r.phases)
  {
    TurnKeeps(e, s);
    FuseHolds(RunTurn(e, s).turn);
  }

  lemma TurnKeeps(e: Event, s: Script)
    ensures TurnOk(RunTurn(e, s).turn) && PhasesOk(RunTurn(e, s).phases)
  {
    if e.loaded {
      if e.kind.ExecutionResult? && e.stagedByThisRun {
        SendKeeps(NEW_TURN, Some(CONFIRMATION_ID), e.confirmationBody, s.confirmationNet);
      } else {
        AttemptsKeep(e, s, 0, NEW_TURN, []);
      }
    }
  }

  lemma FuseHolds(t: Turn)
    requires TurnOk(t)
    ensures |t.sends| <= 5
  {
    forall i | 0 <= i < |t.sends| ensures 1 <= t.sends[i] <= 5 {
      assert t.sends[i] in t.sends;
    }
    Pigeonhole(t.sends, 5);
  }

  lemma {:induction false} Pigeonhole(xs: seq<nat>, n: nat)
    requires NoRepeats(xs) && forall i :: 0 <= i < |xs| ==> 1 <= xs[i] <= n
    ensures |xs| <= n
  {
    if n in xs {
      var k :| 0 <= k < |xs| && xs[k] == n;
      var ys := xs[..k] + xs[k + 1..];
      forall i | 0 <= i < |ys| ensures 1 <= ys[i] <= n - 1 {
        assert ys[i] == xs[if i < k then i else i + 1];
      }
      Pigeonhole(ys, n - 1);
    } else if xs != [] {
      assert forall i :: 0 <= i < |xs| ==> xs[i] in xs;
      assert 1 <= xs[0] <= n;
      Pigeonhole(xs, n - 1);
    }
  }

  /** ACKNOWLEDGED IMPLIES DELIVERED. A result event that must be delivered is
      answered only if some outbound was sent, sent without its record, or had
      already been reserved. */
  lemma AnsweredIsDelivered(e: Event, s: Script)
    requires MustDeliver(e)
    ensures var r := RunTurn(e, s); r.end.Returned? && r.end.state.Some? ==> Delivered(r.turn) && r.turn.reserved != {}
  {
    TurnKeeps(e, s);
    if e.loaded && !e.stagedByThisRun { AttemptsKeep(e, s, 0, NEW_TURN, []); }
  }

  /** A person's turn is left waiting only for work that was active when the
      context was loaded or according to the last dispatch. */
  lemma WaitingHasActiveRun(e: Event, s: Script)
    requires e.kind.UserInbound?
    ensures var r := RunTurn(e, s);
            r.end == Returned(Some(WaitingExecution)) ==> r.turn.hasActiveRun || e.activeRunLoaded
  {
    if e.loaded { AttemptsKeep(e, s, 0, NEW_TURN, []); }
  }

  function LastDispatch(calls: seq<Call>, before: bool): bool {
    if calls == [] then before
    else if calls[|calls| - 1].Dispatch? then calls[|calls| - 1].hasActiveRun
    else LastDispatch(calls[..|calls| - 1], before)
  }

  lemma {:induction false} LastDispatchStep(calls: seq<Call>, before: bool)
    requires calls != []
    ensures LastDispatch(calls, before)
         == LastDispatch(calls[1..], if calls[0].Dispatch? then calls[0].hasActiveRun else before)
  {
    var n := |calls| - 1;
    if n > 0 && !calls[n].Dispatch? {
      assert calls[1..][..n - 1] == calls[..n][1..];
      LastDispatchStep(calls[..n], before);
    }
  }

  /** The flag behind `WaitingHasActiveRun` is that of the last dispatch call. */
  lemma {:induction false} ActiveFlagIsLastDispatch(t: Turn, calls: seq<Call>)
    ensures var (u, ok) := RunCalls(UserInbound, t, calls);
            ok ==> u.hasActiveRun == LastDispatch(calls, t.hasActiveRun)
    decreases |calls|
  {
    if calls != [] {
      var (u, ok) := RunCall(UserInbound, t, calls[0]);
      LastDispatchStep(calls, t.hasActiveRun);
      ActiveFlagIsLastDispatch(u, calls[1..]);
    }
  }

  // -------------------------------------------- when acknowledged means accepted

  function Ids(calls: seq<Call>): set<string> {
    set c | c in calls && c.Send? && c.id.Some? :: c.id.value
  }

  ghost predicate DistinctIds(calls: seq<Call>) {
    && (forall c :: c in calls && c.Send? ==> c.id.Some? && c.id.value != "")
    && (forall i, j :: 0 <= i < j < |calls| && calls[i].Send? && calls[j].Send? ==> calls[i].id != calls[j].id)
  }

  const OWN_IDS := {CONFIRMATION_ID, RESULT_ID, FALLBACK_ID}

  /** The model never reuses a call id, and the reservation of the first result
      fallback is not lost between commit and acknowledgement. */
  ghost predicate NoReuse(s: Script) {
    && DistinctIds(s.first.calls) && DistinctIds(s.second.calls)
    && Ids(s.first.calls) !! Ids(s.second.calls)
    && Ids(s.first.calls) !! OWN_IDS && Ids(s.second.calls) !! OWN_IDS
    && !s.first.resultNet.ReserveUnknown?
  }

  predicate Deduplicates(t: Turn) { Deduplicated in t.outcomes }

  /** The key is new, or its number was never written to the message table. */
  predicate Unused(t: Turn, key: string) { key in t.sequenceOf ==> t.sequenceOf[key] !in t.rows }

  lemma FreshNumberIsNotDeduplicated(t: Turn, n: nat, net: Net)
    requires n !in t.rows && !Deduplicates(t)
    ensures var (u, ok) := SendNumbered(t, n, net);
            && !Deduplicates(u) && u.sequenceOf == t.sequenceOf && u.rows.Keys <= t.rows.Keys + {n}
            && (net.ReserveFails? ==> n !in u.rows)
            && (ok || net.ReserveFails? || net.ReserveUnknown? || u.reserved != {})
  {}

  lemma FreshNumber(t: Turn, id: string)
    requires Numbered(t.sequenceOf) && RowsOk(t) && id != "" && Unused(t, id)
    ensures var (u, n) := Allocate(t, Some(id));
            && n !in t.rows && id in u.sequenceOf && u.sequenceOf[id] == n
            && u.sequenceOf.Keys == t.sequenceOf.Keys + {id}
            && (forall key :: key != id && key in t.sequenceOf ==> u.sequenceOf[key] == t.sequenceOf[key] != n)
  {
    if id in t.sequenceOf { assert t.sequenceOf.Keys == t.sequenceOf.Keys + {id}; }
  }

  lemma OthersStayUnused(t: Turn, u: Turn, id: string, n: nat)
    requires u.sequenceOf.Keys == t.sequenceOf.Keys + {id} && u.rows.Keys <= t.rows.Keys + {n}
    requires forall key :: key != id && key in t.sequenceOf ==> u.sequenceOf[key] == t.sequenceOf[key] != n
    ensures forall key :: key != id && Unused(t, key) ==> Unused(u, key)
  {}

  lemma UnusedIdIsNotDeduplicated(t: Turn, id: string, body: string, net: Net)
    requires TurnOk(t) && id != "" && Unused(t, id) && !Deduplicates(t)
    ensures var (u, ok) := SendStep(t, Some(id), body, net);
            && !Deduplicates(u) && u.sequenceOf.Keys <= t.sequenceOf.Keys + {id}
            && (forall key :: key != id && Unused(t, key) ==> Unused(u, key))
            && (net.ReserveFails? ==> Unused(u, id))
            && (ok || net.ReserveFails? || net.ReserveUnknown? || u.reserved != {})
  {
    if !Blank(body) {
      FreshNumber(t, id);
      var (u, n) := Allocate(t, Some(id));
      FreshNumberIsNotDeduplicated(u, n, net);
      OthersStayUnused(t, SendNumbered(u, n, net).0, id, n);
    }
  }

  lemma FirstIdIsNew(calls: seq<Call>)
    requires calls != [] && DistinctIds(calls)
    ensures DistinctIds(calls[1..]) && Ids(calls) >= Ids(calls[1..])
    ensures calls[0].Send? ==>
              && calls[0].id.Some? && calls[0].id.value != ""
              && calls[0].id.value in Ids(calls) && calls[0].id.value !in Ids(calls[1..])
  {
    assert calls[0] in calls;
    if calls[0].Send? {
      forall d | d in calls[1..] && d.Send? ensures d.id != calls[0].id {
        var i :| 0 <= i < |calls[1..]| && calls[1..][i] == d;
        assert calls[i + 1] == d;
      }
    }
  }

  lemma {:induction false} CallsAreNotDeduplicated(kind: EventKind, t: Turn, calls: seq<Call>)
    requires TurnOk(t) && DistinctIds(calls) && Ids(calls) !! t.sequenceOf.Keys && !Deduplicates(t)
    ensures var u := RunCalls(kind, t, calls).0;
            && !Deduplicates(u) && u.sequenceOf.Keys <= t.sequenceOf.Keys + Ids(calls)
            && (forall key :: key !in Ids(calls) && Unused(t, key) ==> Unused(u, key))
    decreases |calls|
  {
    if calls != [] {
      var c := calls[0];
      var (u, ok) := RunCall(kind, t, c);
      FirstIdIsNew(calls);
      if c.Send? {
        SendKeeps(t, c.id, c.body, c.net);
        UnusedIdIsNotDeduplicated(t, c.id.value, c.body, c.net);
      }
      if ok { CallsAreNotDeduplicated(kind, u, calls[1..]); }
    }
  }

  ghost function Known(s: Script, i: nat): set<string> {
    if i == 0 then {}
    else Ids(s.first.calls) + {RESULT_ID} + if i == 1 then {} else Ids(s.second.calls)
  }

  lemma FallbackIsNotDeduplicated(s: Script, t: Turn, phases: seq<Phase>)
    requires TurnOk(t) && !Deduplicates(t) && FALLBACK_ID !in t.sequenceOf
    ensures !Deduplicates(Fallback(s, t, phases).turn)
  {
    UnusedIdIsNotDeduplicated(t, FALLBACK_ID, FALLBACK_REPLY, s.fallbackNet);
  }

  /** Nothing is deduplicated so far, and the ids still to come are unused. */
  ghost predicate Unrepeated(s: Script, i: nat, t: Turn) {
    && TurnOk(t) && !Deduplicates(t)
    && t.sequenceOf.Keys <= Known(s, i) && (i < 2 ==> Unused(t, RESULT_ID))
  }

  lemma CallsStayUnrepeated(kind: EventKind, s: Script, i: nat, t: Turn)
    requires i < 2 && NoReuse(s) && Unrepeated(s, i, t)
    ensures var u := RunCalls(kind, t, s.At(i).calls).0;
            Unrepeated(s, i + 1, u) && Unused(u, RESULT_ID) && FALLBACK_ID !in u.sequenceOf
  {
    assert RESULT_ID in OWN_IDS && FALLBACK_ID in OWN_IDS;
    assert FALLBACK_ID != RESULT_ID;
    CallsKeep(kind, t, s.At(i).calls);
    CallsAreNotDeduplicated(kind, t, s.At(i).calls);
  }

  lemma AnswerStaysUnrepeated(e: Event, s: Script, i: nat, t: Turn, ran: seq<Phase>)
    requires i < 2 && NoReuse(s) && s.At(i).ending.Finished?
    requires Unrepeated(s, i + 1, t) && Unused(t, RESULT_ID)
    ensures var (answer, u, phases) := AnswerStep(e, s.At(i), t, ran);
            && (answer.Some? ==> !Deduplicates(answer.value.turn))
            && (answer.None? && u.reserved == {} ==> Unrepeated(s, i + 1, u))
  {
    SendKeeps(t, Some(RESULT_ID), e.resultBody, s.At(i).resultNet);
    UnusedIdIsNotDeduplicated(t, RESULT_ID, e.resultBody, s.At(i).resultNet);
  }

  ghost predicate NextUnrepeated(s: Script, i: nat, next: Next) {
    match next
    case Stop(report) => !Deduplicates(report.turn)
    case Retry(t, phases) => Unrepeated(s, i, t)
  }

  lemma ModelRunStaysUnrepeated(e: Event, s: Script, i: nat, t: Turn, ok: bool, ran: seq<Phase>)
    requires i < 2 && NoReuse(s) && Unrepeated(s, i + 1, t) && Unused(t, RESULT_ID) && FALLBACK_ID !in t.sequenceOf
    ensures NextUnrepeated(s, i + 1, AfterModelRun(e, s, s.At(i), t, ok, ran))
  {
    var a := s.At(i);
    var next := AfterModelRun(e, s, a, t, ok, ran);
    if !ok || a.ending.Raised? {
      assert next == if t.reserved != {} then Stop(Report(Returned(None), t, ran)) else Retry(t, ran);
    } else if a.ending.UsageLimit? {
      FallbackIsNotDeduplicated(s, t, ran);
      assert next == if t.reserved != {} then Stop(Report(Returned(None), t, ran)) else Stop(Fallback(s, t, ran));
    } else {
      AnswerStaysUnrepeated(e, s, i, t, ran);
      var (answer, u, phases) := AnswerStep(e, a, t, ran);
      assert !Deduplicates(u) by { UnusedIdIsNotDeduplicated(t, RESULT_ID, e.resultBody, a.resultNet); }
    }
  }

  lemma {:induction false} AttemptsAreNotDeduplicated(e: Event, s: Script, i: nat, t: Turn, phases: seq<Phase>)
    requires i <= 2 && NoReuse(s) && Unrepeated(s, i, t)
    ensures !Deduplicates(Attempts(e, s, i, t, phases).turn)
    decreases 2 - i
  {
    if i == 2 {
      assert FALLBACK_ID in OWN_IDS;
      assert FALLBACK_ID != RESULT_ID;
      FallbackIsNotDeduplicated(s, t, phases);
    } else {
      var (u, ok) := RunCalls(e.kind, t, s.At(i).calls);
      CallsStayUnrepeated(e.kind, s, i, t);
      ModelRunStaysUnrepeated(e, s, i, u, ok, phases + [ModelRun(t.reserved, |t.sends|)]);
      var next := AttemptStep(e, s, i, t, phases);
      if next.Retry? { AttemptsAreNotDeduplicated(e, s, i + 1, next.turn, next.phases); }
    }
  }

  /** With fresh call ids an answered result event was accepted by the provider. */
  lemma AnsweredIsAccepted(e: Event, s: Script)
    requires MustDeliver(e) && NoReuse(s)
    ensures var r := RunTurn(e, s); r.end.Returned? && r.end.state.Some? ==> r.turn.accepted != []
  {
    TurnKeeps(e, s);
    AnsweredIsDelivered(e, s);
    if e.loaded {
      if e.stagedByThisRun {
        UnusedIdIsNotDeduplicated(NEW_TURN, CONFIRMATION_ID, e.confirmationBody, s.confirmationNet);
      } else {
        AttemptsAreNotDeduplicated(e, s, 0, NEW_TURN, []);
      }
    }
    var t := RunTurn(e, s).turn;
    if Delivered(t) {
      var i :| 0 <= i < |t.outcomes| && Visible(t.outcomes[i]);
      assert t.outcomes[i] in t.outcomes;
    }
  }

  const RESULT_EVENT := Event(ExecutionResult, true, true, false, false, "c", "r")

  predicate AcknowledgedUnsent(r: Report) { r.end == Returned(Some(Done)) && r.turn.accepted == [] }

  /** A reused call id is acknowledged although its only send was rejected. */
  lemma ReusedIdIsAcknowledgedUnsent()
    ensures exists s: Script :: !s.first.resultNet.ReserveUnknown? && AcknowledgedUnsent(RunTurn(RESULT_EVENT, s))
  {
    var calls := [Send(Some("x"), "a", Rejected), Send(Some("x"), "a", Accepted)];
    var first := Attempt(calls, Finished(Done), Accepted);
    var s := Script(first, first, Accepted, Accepted);
    assert calls[1..] == [calls[1]] && calls[1..][1..] == [];
    var t := RunCall(ExecutionResult, NEW_TURN, calls[0]).0;
    assert Allocate(t, Some("x")) == (t, 1) && t.reserved == {1};
    var u := RunCall(ExecutionResult, t, calls[1]).0;
    assert RunCalls(ExecutionResult, NEW_TURN, calls) == (u, true);
    assert u.outcomes[1] == Deduplicated && Delivered(u);
    assert RunTurn(RESULT_EVENT, s).turn == u;
  }

  /** So is a result fallback whose first reservation committed unacknowledged. */
  lemma LostReservationIsAcknowledgedUnsent()
    ensures exists s: Script ::
              s.first.calls == [] && s.second.calls == [] && AcknowledgedUnsent(RunTurn(RESULT_EVENT, s))
  {
    var lost := Attempt([], Finished(Done), ReserveUnknown);
    var s := Script(lost, Attempt([], Finished(Done), Accepted), Accepted, Accepted);
    var t := SendStep(NEW_TURN, Some(RESULT_ID), "r", ReserveUnknown).0;
    var next := AttemptStep(RESULT_EVENT, s, 0, NEW_TURN, []);
    assert next.Retry? && next.turn == t && t.reserved == {};
    var u := SendStep(t, Some(RESULT_ID), "r", Accepted).0;
    assert u.outcomes == [Deduplicated] && Visible(u.outcomes[0]);
    assert RunTurn(RESULT_EVENT, s).turn == u;
  }
}
