/** Exactly which interleavings make the wake-up upsert leave nothing of its own. */
module UpsertRaces {
  import opened Wrappers
  import opened Table
  import opened Scheduler
  import E = Executions

  predicate NoRequeues(races: seq<Race>) { forall i :: 0 <= i < |races| ==> !races[i].Requeues? }

  /** Some worker claims in the gap. */
  predicate Taken(races: seq<Race>) { exists i :: 0 <= i < |races| && races[i].Claims? }

  /** Whether a wake-up is pending after the gap, by its transactions alone. */
  function Present(before: bool, races: seq<Race>): bool {
    if races == [] then before
    else
      var last := races[|races| - 1];
      if last.Claims? then false
      else if last.Inserts? then true
      else Present(before, races[..|races| - 1])
  }

  lemma {:induction false} PresentExactly(
    jobs: seq<Job>, contact: E.ContactId, a: AutomationId, races: seq<Race>, now: Instant)
    requires UniqueWakes(jobs) && NoRequeues(races)
    ensures HasPendingWake(Folded(jobs, contact, a, races, now), a) <==> Present(HasPendingWake(jobs, a), races)
  {
    if races != [] {
      var init := Folded(jobs, contact, a, races[..|races| - 1], now);
      var race := races[|races| - 1];
      PresentExactly(jobs, contact, a, races[..|races| - 1], now);
      FoldKeeps(jobs, contact, a, races[..|races| - 1], now);
      InterferedPresence(init, contact, a, race, now);
    }
  }

  lemma OnlyOnePending(jobs: seq<Job>, a: AutomationId, i: JobId, j: JobId)
    requires UniqueWakes(jobs) && i < |jobs| && j < |jobs| && PendingWake(a)(jobs[i]) && PendingWake(a)(jobs[j])
    ensures i == j
  {
    assert ArmedWake(jobs[i]) && ArmedWake(jobs[j]);
  }

  lemma InterferedPresence(jobs: seq<Job>, contact: E.ContactId, a: AutomationId, race: Race, now: Instant)
    requires UniqueWakes(jobs) && !race.Requeues?
    ensures HasPendingWake(Interfered(jobs, contact, a, race, now), a)
        <==> race.Inserts? || (!race.Claims? && HasPendingWake(jobs, a))
  {
    var after := Interfered(jobs, contact, a, race, now);
    var pending := FindLast(jobs, PendingWake(a));
    if pending.None? {
      if race.Inserts? { assert PendingWake(a)(after[|jobs|]); }
    } else if race.Claims? {
      forall i: JobId | i < |jobs| && PendingWake(a)(jobs[i]) ensures i == pending.value {
        OnlyOnePending(jobs, a, i, pending.value);
      }
    } else {
      assert PendingWake(a)(after[pending.value]);
    }
  }

  /** A row found pending is still pending exactly if nobody claims in the gap. */
  lemma {:induction false} FoundExactly(
    jobs: seq<Job>, contact: E.ContactId, a: AutomationId, j: JobId, races: seq<Race>, now: Instant)
    requires UniqueWakes(jobs) && NoRequeues(races) && j < |jobs| && PendingWake(a)(jobs[j])
    ensures var after := Folded(jobs, contact, a, races, now);
            && j < |after| && IsWakeOf(after[j], a)
            && (Taken(races) ==> after[j].status.Running?) && (!Taken(races) ==> after[j].status.Pending?)
  {
    if races != [] {
      var n := |races| - 1;
      var init := Folded(jobs, contact, a, races[..n], now);
      FoundExactly(jobs, contact, a, j, races[..n], now);
      FoldKeeps(jobs, contact, a, races[..n], now);
      TakenByLast(races);
      if Taken(races[..n]) {
        StillTaken(init, contact, a, j, races[n], now);
      } else {
        StillFound(init, contact, a, j, races[n], now);
      }
    }
  }

  lemma TakenByLast(races: seq<Race>)
    requires races != []
    ensures Taken(races) <==> Taken(races[..|races| - 1]) || races[|races| - 1].Claims?
  {
    var n := |races| - 1;
    if Taken(races[..n]) {
      var i :| 0 <= i < n && races[..n][i].Claims?;
      assert races[i].Claims?;
    }
    if Taken(races) && !races[n].Claims? {
      var i :| 0 <= i <= n && races[i].Claims?;
      assert races[..n][i].Claims?;
    }
  }

  lemma StillTaken(jobs: seq<Job>, contact: E.ContactId, a: AutomationId, j: JobId, race: Race, now: Instant)
    requires !race.Requeues? && j < |jobs| && IsWakeOf(jobs[j], a) && jobs[j].status.Running?
    ensures var after := Interfered(jobs, contact, a, race, now);
            j < |after| && IsWakeOf(after[j], a) && after[j].status.Running?
  {}

  lemma StillFound(jobs: seq<Job>, contact: E.ContactId, a: AutomationId, j: JobId, race: Race, now: Instant)
    requires UniqueWakes(jobs) && !race.Requeues? && j < |jobs| && PendingWake(a)(jobs[j])
    ensures var after := Interfered(jobs, contact, a, race, now);
            after[j].status == (if race.Claims? then Running else Pending) && IsWakeOf(after[j], a)
  {
    OnlyOnePending(jobs, a, FindLast(jobs, PendingWake(a)).value, j);
  }

  /** The interleavings that leave nothing of the upsert: a claim lands between a
      look and the update of what it found, or both inserts meet another's
      wake-up that is gone again at the second look. */
  predicate Loses(had: bool, env: seq<seq<Race>>)
    requires |env| == 5
  {
    if had then Taken(env[0])
    else
      Present(false, env[0])
      && if Present(true, env[1]) then Taken(env[2])
         else Present(false, env[2]) && (Present(true, env[3]) ==> Taken(env[4]))
  }

  lemma TryExactly(
    jobs: seq<Job>, contact: E.ContactId, a: AutomationId, runAt: Instant,
    first: seq<Race>, second: seq<Race>, third: seq<Race>, now: Instant)
    requires UniqueWakes(jobs) && !HasPendingWake(jobs, a)
    requires NoRequeues(first) && NoRequeues(second) && NoRequeues(third)
    ensures var fate := TryOutcome(jobs, contact, a, runAt, first, second, third, now).1;
            fate == if !Present(false, first) then Inserted
                    else if !Present(true, second) then Spoiled
                    else if Taken(third) then Overtaken else Moved
  {
    var met := Folded(jobs, contact, a, first, now);
    FoldKeeps(jobs, contact, a, first, now);
    PresentExactly(jobs, contact, a, first, now);
    if HasPendingWake(met, a) {
      var left := Folded(met, contact, a, second, now);
      FoldKeeps(met, contact, a, second, now);
      PresentExactly(met, contact, a, second, now);
      if HasPendingWake(left, a) {
        FoundExactly(left, contact, a, FindLast(left, PendingWake(a)).value, third, now);
      }
    }
  }

  /** LOST EXACTLY THEN: unless wake-ups return to the queue within a gap, the
      upsert takes effect exactly outside the losing interleavings, whatever
      number of transactions runs in each gap. */
  lemma UpsertTakesExactly(
    jobs: seq<Job>, contact: E.ContactId, a: AutomationId, runAt: Instant, env: seq<seq<Race>>, now: Instant)
    requires |env| == 5 && UniqueWakes(jobs) && forall i :: 0 <= i < 5 ==> NoRequeues(env[i])
    ensures UpsertOutcome(jobs, contact, a, runAt, env, now).1.Took() <==> !Loses(HasPendingWake(jobs, a), env)
  {
    var found := FindLast(jobs, PendingWake(a));
    if found.Some? {
      assert PendingWake(a)(jobs[found.value]);
      FoundExactly(jobs, contact, a, found.value, env[0], now);
    } else {
      TryExactly(jobs, contact, a, runAt, env[0], env[1], env[2], now);
      var (after, fate) := TryOutcome(jobs, contact, a, runAt, env[0], env[1], env[2], now);
      TryKeeps(jobs, contact, a, runAt, env[0], env[1], env[2], now);
      if fate.Spoiled? { TryExactly(after, contact, a, runAt, env[2], env[3], env[4], now); }
    }
  }

  // --------------------------------------------- what is left when it is lost

  lemma {:induction false} FoldConcat(
    jobs: seq<Job>, contact: E.ContactId, a: AutomationId, r: seq<Race>, s: seq<Race>, now: Instant)
    ensures Folded(jobs, contact, a, r + s, now) == Folded(Folded(jobs, contact, a, r, now), contact, a, s, now)
  {
    if s == [] {
      assert r + s == r;
    } else {
      assert (r + s)[..|r + s| - 1] == r + s[..|s| - 1];
      FoldConcat(jobs, contact, a, r, s[..|s| - 1], now);
    }
  }

  /** The table is what the others' transactions alone would have left. */
  ghost predicate OnlyOthers(before: seq<Job>, contact: E.ContactId, a: AutomationId, after: seq<Job>, now: Instant) {
    exists races: seq<Race> :: after == Folded(before, contact, a, races, now)
  }

  lemma OnlyOthersTrans(
    s: seq<Job>, contact: E.ContactId, a: AutomationId, t: seq<Job>, u: seq<Job>, now: Instant)
    requires OnlyOthers(s, contact, a, t, now) && OnlyOthers(t, contact, a, u, now)
    ensures OnlyOthers(s, contact, a, u, now)
  {
    var r: seq<Race> :| t == Folded(s, contact, a, r, now);
    var q: seq<Race> :| u == Folded(t, contact, a, q, now);
    FoldConcat(s, contact, a, r, q, now);
  }

  lemma TryLeavesOthers(
    jobs: seq<Job>, contact: E.ContactId, a: AutomationId, runAt: Instant,
    first: seq<Race>, second: seq<Race>, third: seq<Race>, now: Instant)
    ensures var (after, fate) := TryOutcome(jobs, contact, a, runAt, first, second, third, now);
            !fate.Took() ==> OnlyOthers(jobs, contact, a, after, now)
  {
    FoldConcat(jobs, contact, a, first, second, now);
    FoldConcat(jobs, contact, a, first + second, third, now);
  }

  /** An upsert that is lost has left nothing: neither its row nor its time. */
  lemma LostLeavesOthers(
    jobs: seq<Job>, contact: E.ContactId, a: AutomationId, runAt: Instant, env: seq<seq<Race>>, now: Instant)
    requires |env| == 5
    ensures var (after, fate) := UpsertOutcome(jobs, contact, a, runAt, env, now);
            !fate.Took() ==> OnlyOthers(jobs, contact, a, after, now)
  {
    if FindLast(jobs, PendingWake(a)).None? {
      TryLeavesOthers(jobs, contact, a, runAt, env[0], env[1], env[2], now);
      var (met, first) := TryOutcome(jobs, contact, a, runAt, env[0], env[1], env[2], now);
      if first.Spoiled? { SpoiledLeavesOthers(jobs, met, contact, a, runAt, env, now); }
    }
  }

  lemma SpoiledLeavesOthers(
    jobs: seq<Job>, met: seq<Job>, contact: E.ContactId, a: AutomationId, runAt: Instant, env: seq<seq<Race>>,
    now: Instant)
    requires |env| == 5 && OnlyOthers(jobs, contact, a, met, now)
    ensures var (after, fate) := Tries(met, contact, a, runAt, env, 1, now);
            !fate.Took() ==> OnlyOthers(jobs, contact, a, after, now)
  {
    TryLeavesOthers(met, contact, a, runAt, env[2], env[3], env[4], now);
    var (after, fate) := TryOutcome(met, contact, a, runAt, env[2], env[3], env[4], now);
    if !fate.Took() { OnlyOthersTrans(jobs, contact, a, met, after, now); }
  }

  /** The table after the first k gaps, had we done nothing at all. */
  function Others(
    jobs: seq<Job>, contact: E.ContactId, a: AutomationId, env: seq<seq<Race>>, k: nat, now: Instant): seq<Job>
    requires k <= |env|
  {
    if k == 0 then jobs else Folded(Others(jobs, contact, a, env, k - 1, now), contact, a, env[k - 1], now)
  }

  /** The wake-up pending in one table is not pending in a later one. */
  ghost predicate Gone(before: seq<Job>, after: seq<Job>, a: AutomationId) {
    exists j :: 0 <= j < |before| && PendingWake(a)(before[j]) && !(j < |after| && after[j].status.Pending?)
  }

  /** The losing interleavings in general, by what the others alone would leave. */
  ghost predicate LosesAmong(jobs: seq<Job>, contact: E.ContactId, a: AutomationId, env: seq<seq<Race>>, now: Instant)
    requires |env| == 5
  {
    var t1, t2 := Others(jobs, contact, a, env, 1, now), Others(jobs, contact, a, env, 2, now);
    var t3, t4 := Others(jobs, contact, a, env, 3, now), Others(jobs, contact, a, env, 4, now);
    if HasPendingWake(jobs, a) then Gone(jobs, t1, a)
    else
      HasPendingWake(t1, a)
      && if HasPendingWake(t2, a) then Gone(t2, t3, a)
         else HasPendingWake(t3, a) && (HasPendingWake(t4, a) ==> Gone(t4, Others(jobs, contact, a, env, 5, now), a))
  }

  lemma MovedUnlessGone(before: seq<Job>, after: seq<Job>, a: AutomationId, runAt: Instant)
    requires UniqueWakes(before) && HasPendingWake(before, a)
    ensures var j := FindLast(before, PendingWake(a));
            j.Some? && (MoveOutcome(after, j.value, a, runAt).1 <==> !Gone(before, after, a))
  {
    var j := FindLast(before, PendingWake(a)).value;
    forall i: JobId | i < |before| && PendingWake(a)(before[i]) ensures i == j { OnlyOnePending(before, a, i, j); }
  }

  lemma TryInGeneral(
    jobs: seq<Job>, contact: E.ContactId, a: AutomationId, runAt: Instant,
    first: seq<Race>, second: seq<Race>, third: seq<Race>, now: Instant)
    requires UniqueWakes(jobs)
    ensures var met := Folded(jobs, contact, a, first, now);
            var left := Folded(met, contact, a, second, now);
            var (after, fate) := TryOutcome(jobs, contact, a, runAt, first, second, third, now);
            && (fate.Spoiled? <==> HasPendingWake(met, a) && !HasPendingWake(left, a))
            && (fate.Spoiled? ==> after == left)
            && (fate.Overtaken? <==> HasPendingWake(met, a) && HasPendingWake(left, a)
                                     && Gone(left, Folded(left, contact, a, third, now), a))
  {
    var met := Folded(jobs, contact, a, first, now);
    var left := Folded(met, contact, a, second, now);
    FoldKeeps(jobs, contact, a, first, now);
    FoldKeeps(met, contact, a, second, now);
    HasNone(met, a);
    HasNone(left, a);
    if HasPendingWake(left, a) { MovedUnlessGone(left, Folded(left, contact, a, third, now), a, runAt); }
  }

  lemma OthersStep(
    jobs: seq<Job>, contact: E.ContactId, a: AutomationId, env: seq<seq<Race>>, k: nat, now: Instant)
    requires k < |env|
    ensures Others(jobs, contact, a, env, k + 1, now)
         == Folded(Others(jobs, contact, a, env, k, now), contact, a, env[k], now)
  {}

  /** How the try that starts at gap k ends, by what the others alone would leave. */
  ghost predicate EndsAs(
    jobs: seq<Job>, contact: E.ContactId, a: AutomationId, env: seq<seq<Race>>, k: nat, now: Instant, fate: Fate)
    requires k + 3 <= |env|
  {
    var t1, t2 := Others(jobs, contact, a, env, k + 1, now), Others(jobs, contact, a, env, k + 2, now);
    && (fate.Spoiled? <==> HasPendingWake(t1, a) && !HasPendingWake(t2, a))
    && (fate.Overtaken? <==> HasPendingWake(t1, a) && HasPendingWake(t2, a)
                             && Gone(t2, Others(jobs, contact, a, env, k + 3, now), a))
  }

  /** What the try at gap k does to the table the others left before it. */
  lemma TryAmongOthers(
    jobs: seq<Job>, t: seq<Job>, contact: E.ContactId, a: AutomationId, runAt: Instant, env: seq<seq<Race>>, k: nat,
    now: Instant) returns (met: seq<Job>, fate: Fate)
    requires k + 3 <= |env| && UniqueWakes(t) && t == Others(jobs, contact, a, env, k, now)
    ensures (met, fate) == TryOutcome(t, contact, a, runAt, env[k], env[k + 1], env[k + 2], now)
    ensures EndsAs(jobs, contact, a, env, k, now, fate)
    ensures UniqueWakes(met) && (fate.Spoiled? ==> met == Others(jobs, contact, a, env, k + 2, now))
  {
    OthersStep(jobs, contact, a, env, k, now);
    OthersStep(jobs, contact, a, env, k + 1, now);
    OthersStep(jobs, contact, a, env, k + 2, now);
    TryInGeneral(t, contact, a, runAt, env[k], env[k + 1], env[k + 2], now);
    TryKeeps(t, contact, a, runAt, env[k], env[k + 1], env[k + 2], now);
    var outcome := TryOutcome(t, contact, a, runAt, env[k], env[k + 1], env[k + 2], now);
    met, fate := outcome.0, outcome.1;
  }

  lemma TriesAre(
    jobs: seq<Job>, contact: E.ContactId, a: AutomationId, runAt: Instant, env: seq<seq<Race>>, now: Instant)
    requires |env| == 5
    ensures var (met, first) := TryOutcome(jobs, contact, a, runAt, env[0], env[1], env[2], now);
            Tries(jobs, contact, a, runAt, env, 0, now).1
            == if first.Spoiled? then TryOutcome(met, contact, a, runAt, env[2], env[3], env[4], now).1 else first
  {
    var (met, first) := TryOutcome(jobs, contact, a, runAt, env[0], env[1], env[2], now);
    if first.Spoiled? {
      assert Tries(jobs, contact, a, runAt, env, 0, now) == Tries(met, contact, a, runAt, env, 1, now);
      var (after, second) := TryOutcome(met, contact, a, runAt, env[2], env[3], env[4], now);
      assert Tries(met, contact, a, runAt, env, 1, now).1 == second;
    }
  }

  lemma LosesByFates(
    jobs: seq<Job>, contact: E.ContactId, a: AutomationId, env: seq<seq<Race>>, now: Instant, first: Fate, second: Fate)
    requires |env| == 5 && !HasPendingWake(jobs, a)
    requires EndsAs(jobs, contact, a, env, 0, now, first)
    requires first.Spoiled? ==> EndsAs(jobs, contact, a, env, 2, now, second)
    ensures (if first.Spoiled? then second else first).Took() <==> !LosesAmong(jobs, contact, a, env, now)
  {}

  lemma TriesInGeneral(
    jobs: seq<Job>, contact: E.ContactId, a: AutomationId, runAt: Instant, env: seq<seq<Race>>, now: Instant)
    requires |env| == 5 && UniqueWakes(jobs) && !HasPendingWake(jobs, a)
    ensures Tries(jobs, contact, a, runAt, env, 0, now).1.Took() <==> !LosesAmong(jobs, contact, a, env, now)
  {
    assert Others(jobs, contact, a, env, 0, now) == jobs;
    var met, first := TryAmongOthers(jobs, jobs, contact, a, runAt, env, 0, now);
    var second := first;
    if first.Spoiled? {
      var after;
      after, second := TryAmongOthers(jobs, met, contact, a, runAt, env, 2, now);
    }
    TriesAre(jobs, contact, a, runAt, env, now);
    LosesByFates(jobs, contact, a, env, now, first, second);
  }

  /** THE UPSERT IN GENERAL: under any number of claims, inserts, moves and re-queues
      in each gap it takes effect exactly outside the losing interleavings. */
  lemma UpsertTakesInGeneral(
    jobs: seq<Job>, contact: E.ContactId, a: AutomationId, runAt: Instant, env: seq<seq<Race>>, now: Instant)
    requires |env| == 5 && UniqueWakes(jobs)
    ensures UpsertOutcome(jobs, contact, a, runAt, env, now).1.Took() <==> !LosesAmong(jobs, contact, a, env, now)
  {
    HasNone(jobs, a);
    if HasPendingWake(jobs, a) {
      assert Others(jobs, contact, a, env, 0, now) == jobs;
      OthersStep(jobs, contact, a, env, 0, now);
      MovedUnlessGone(jobs, Others(jobs, contact, a, env, 1, now), a, runAt);
    } else {
      TriesInGeneral(jobs, contact, a, runAt, env, now);
    }
  }

  /** A claim and then an insert, both between the look and the update, leave a
      wake-up pending at another time than the one asked for. */
  lemma ClaimedThenResumed()
    ensures var jobs := [NewJob(7, Wake(0, 5), 5)];
            var (after, fate) := UpsertOutcome(jobs, 7, 0, 3, [[Claims, Inserts(9)], [], [], [], []], 5);
            fate.Overtaken? && HasPendingWake(after, 0) && !AllAt(after, 0, 3)
  {
    var jobs := [NewJob(7, Wake(0, 5), 5)];
    var races := [Claims, Inserts(9)];
    assert races[..1] == [Claims] && [Claims][..0] == [];
    var claimed := Folded(jobs, 7, 0, [Claims], 5);
    assert FindLast(jobs, PendingWake(0)) == Some(0);
    assert claimed == [Started(jobs[0], 5)] && !PendingWake(0)(claimed[0]);
    var left := Folded(jobs, 7, 0, races, 5);
    assert left == claimed + [NewJob(7, Wake(0, 9), 9)];
    assert PendingWake(0)(left[1]) && left[1].runAt == 9;
  }
}
