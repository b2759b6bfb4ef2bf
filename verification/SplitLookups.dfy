/** Scheduled runs with their lookup and their insert taken apart: between the two
    statements any task of the lifecycle and any other worker may act. */
module SplitLookups {
  import opened Wrappers
  import opened Table
  import opened Executions
  import L = Lifecycle
  import Orphans

  /** A worker that has looked its occurrence up, with the table as it was then. */
  datatype Lookup = Lookup(
    contact: ContactId, goal: string, scope: set<string>, key: DedupeKey, before: Db, followed: bool)

  datatype World = World(inner: L.World, lookups: seq<Lookup>)

  const INIT := World(L.INIT, [])

  datatype Step =
    | Inner(step: L.Step)
    | LookUp(contact: ContactId, goal: string, scope: set<string>, automation: nat, second: int)
    | Follow(lookup: nat)

  function LookUpStep(w: World, contact: ContactId, goal: string, scope: set<string>, key: DedupeKey): World {
    w.(lookups := w.lookups + [Lookup(contact, goal, scope, key, w.inner.db, false)])
  }

  /** The run as it was read is already over. */
  predicate ReadAsOver(x: Lookup, run: RunId) { run < |x.before.runs| && Terminal(x.before.runs[run].status) }

  /** What follows the lookup: reclaim, resume or insert, and start the task. */
  function FollowStep(w: World, k: nat): World
    requires k < |w.lookups|
  {
    var x := w.lookups[k];
    var (db, run) := RacingBlock(x.before, w.inner.db, x.contact, x.goal, x.scope, x.key);
    var u := w.inner.(db := db);
    var inner := if run.None? || ReadAsOver(x, run.value) then u else L.Spawn(u, run.value, x.contact, x.goal, L.Ready);
    World(inner, w.lookups[k := x.(followed := true)])
  }

  predicate Enabled(w: World, s: Step) { s.Follow? ==> s.lookup < |w.lookups| && !w.lookups[s.lookup].followed }

  function Apply(w: World, s: Step): World {
    if !Enabled(w, s) then w
    else
      match s
      case Inner(step) => w.(inner := L.Apply(w.inner, step))
      case LookUp(contact, goal, scope, automation, second) =>
        LookUpStep(w, contact, goal, scope, Occurrence(automation, second))
      case Follow(k) => FollowStep(w, k)
  }

  function After(w: World, steps: seq<Step>): World {
    if steps == [] then w else Apply(After(w, steps[..|steps| - 1]), steps[|steps| - 1])
  }

  /** Looking up and following with nothing between is the scheduled step. */
  lemma UnsplitIsScheduled(
    w: World, contact: ContactId, goal: string, scope: set<string>, automation: nat, second: int)
    ensures var v := Apply(Apply(w, LookUp(contact, goal, scope, automation, second)), Follow(|w.lookups|));
            v.inner == L.ScheduledStep(w.inner, contact, goal, scope, automation, second).0
  {
    var key := Occurrence(automation, second);
    var existing := FindLast(w.inner.db.runs, WithKey(contact, key));
    var u := LookUpStep(w, contact, goal, scope, key);
    assert u.lookups[|w.lookups|] == Lookup(contact, goal, scope, key, w.inner.db, false);
    if existing.Some? && Reclaimable(w.inner.db.runs[existing.value].status) {
      assert Owns(w.inner.db, existing.value, contact);
    }
  }

  // ------------------------------------------------------------ rows of a key

  /** Rows keep their contacts and keys, and at most one is added. */
  ghost predicate AddsOne(before: seq<Run>, after: seq<Run>) {
    Evolves(before, after) && |after| <= |before| + 1
  }

  ghost predicate Adds(before: seq<Run>, after: seq<Run>, contact: ContactId, key: DedupeKey) {
    |after| == |before| + 1 && WithKey(contact, key)(after[|before|])
  }

  lemma {:induction false} CountEvolved(before: seq<Run>, after: seq<Run>, contact: ContactId, key: DedupeKey)
    requires Evolves(before, after) && |after| == |before|
    ensures Count(after, WithKey(contact, key)) == Count(before, WithKey(contact, key))
  {
    if before != [] {
      var n := |before| - 1;
      CountEvolved(before[..n], after[..n], contact, key);
    }
  }

  lemma CountByOne(before: seq<Run>, after: seq<Run>, contact: ContactId, key: DedupeKey)
    requires AddsOne(before, after)
    ensures Count(after, WithKey(contact, key))
         == Count(before, WithKey(contact, key)) + if Adds(before, after, contact, key) then 1 else 0
  {
    var n := |before|;
    CountEvolved(before, after[..n], contact, key);
    if |after| == n + 1 {
      assert after == after[..n] + [after[n]];
      CountAppend(after[..n], after[n], WithKey(contact, key));
    } else {
      assert after == after[..n];
    }
  }

  lemma HasKeyCounts(runs: seq<Run>, contact: ContactId, key: DedupeKey)
    ensures HasKey(runs, contact, key) <==> Count(runs, WithKey(contact, key)) > 0
  {
    CountedIsFound(runs, WithKey(contact, key));
  }

  // ------------------------------------------------------------- single steps

  /** A step of the lifecycle adds a second row under no occurrence's key. */
  predicate AddsFresh(before: seq<Run>, after: seq<Run>) {
    |after| == |before| + 1 && after[|before|].key.Occurrence? ==>
      forall i :: 0 <= i < |before| ==> !WithKey(after[|before|].contact, after[|before|].key)(before[i])
  }

  lemma StartingAdds(w: L.World, s: L.Step)
    requires s.DispatchGoal? || s.RunScheduled?
    ensures AddsOne(w.db.runs, L.Apply(w, s).db.runs) && AddsFresh(w.db.runs, L.Apply(w, s).db.runs)
  {}

  lemma InnerAdds(w: L.World, s: L.Step)
    ensures AddsOne(w.db.runs, L.Apply(w, s).db.runs) && AddsFresh(w.db.runs, L.Apply(w, s).db.runs)
  {
    if s.DispatchGoal? || s.RunScheduled? { StartingAdds(w, s); }
  }

  /** Every lookup read a table that has since only grown. */
  ghost predicate Read(w: World) {
    forall k :: 0 <= k < |w.lookups| ==> Evolves(w.lookups[k].before.runs, w.inner.db.runs)
  }

  /** The step is a follow-up whose insert slips past the rows of its key. */
  ghost predicate Slips(w: World, s: Step, contact: ContactId, key: DedupeKey) {
    && s.Follow? && Enabled(w, s)
    && w.lookups[s.lookup].contact == contact && w.lookups[s.lookup].key == key
    && SlipsThrough(w.lookups[s.lookup].before, w.inner.db, contact, key)
  }

  lemma FollowAdds(w: World, k: nat, contact: ContactId, key: DedupeKey)
    requires Read(w) && k < |w.lookups|
    ensures var x := w.lookups[k];
            var after := FollowStep(w, k).inner.db.runs;
            && AddsOne(w.inner.db.runs, after)
            && (Adds(w.inner.db.runs, after, contact, key) && HasKey(w.inner.db.runs, contact, key)
                <==> x.contact == contact && x.key == key && SlipsThrough(x.before, w.inner.db, contact, key))
  {
    var x := w.lookups[k];
    SecondRowExactly(x.before, w.inner.db, x.contact, x.goal, x.scope, x.key);
  }

  lemma StepReads(w: World, s: Step)
    requires Read(w)
    ensures Read(Apply(w, s)) && AddsOne(w.inner.db.runs, Apply(w, s).inner.db.runs)
  {
    if s.Inner? {
      InnerAdds(w.inner, s.step);
    } else if s.Follow? && Enabled(w, s) {
      FollowAdds(w, s.lookup, w.lookups[s.lookup].contact, w.lookups[s.lookup].key);
    }
  }

  /** How the rows of an occurrence grow: by its first, and by every slip. */
  lemma RowsByStep(w: World, s: Step, contact: ContactId, key: DedupeKey)
    requires Read(w) && key.Occurrence?
    ensures var before, after := w.inner.db.runs, Apply(w, s).inner.db.runs;
            && (Slips(w, s, contact, key) ==> HasKey(before, contact, key))
            && Count(after, WithKey(contact, key)) + (if HasKey(before, contact, key) then 1 else 0)
            == Count(before, WithKey(contact, key)) + (if HasKey(after, contact, key) then 1 else 0)
               + if Slips(w, s, contact, key) then 1 else 0
  {
    var before, after := w.inner.db.runs, Apply(w, s).inner.db.runs;
    StepReads(w, s);
    CountByOne(before, after, contact, key);
    HasKeyCounts(before, contact, key);
    HasKeyCounts(after, contact, key);
    if s.Inner? {
      InnerAdds(w.inner, s.step);
    } else if s.Follow? && Enabled(w, s) {
      FollowAdds(w, s.lookup, contact, key);
    }
  }

  // --------------------------------------------------------------- whole runs

  /** How many steps of the run slipped past the rows of the key. */
  ghost function SlipCount(steps: seq<Step>, contact: ContactId, key: DedupeKey): nat {
    if steps == [] then 0
    else
      var init := steps[..|steps| - 1];
      SlipCount(init, contact, key)
      + if Slips(After(INIT, init), steps[|steps| - 1], contact, key) then 1 else 0
  }

  /** THE ROWS OF AN OCCURRENCE ARE ACCOUNTED FOR: over any run its rows are its first
      and one for every follow-up whose insert slipped through. */
  lemma {:induction false} RowsAreAccountedFor(steps: seq<Step>, contact: ContactId, key: DedupeKey)
    requires key.Occurrence?
    ensures Read(After(INIT, steps))
    ensures var runs := After(INIT, steps).inner.db.runs;
            Count(runs, WithKey(contact, key))
            == SlipCount(steps, contact, key) + if HasKey(runs, contact, key) then 1 else 0
  {
    if steps != [] {
      var init := steps[..|steps| - 1];
      RowsAreAccountedFor(init, contact, key);
      StepReads(After(INIT, init), steps[|steps| - 1]);
      RowsByStep(After(INIT, init), steps[|steps| - 1], contact, key);
    }
  }

  /** ONE RUN PER OCCURRENCE exactly in the runs in which no follow-up slips through:
      none finds every row of its key over, after a lookup that found none, while a
      slot is free. */
  lemma {:induction false} OccurrenceOnceExactly(steps: seq<Step>, contact: ContactId, key: DedupeKey)
    requires key.Occurrence?
    ensures Count(After(INIT, steps).inner.db.runs, WithKey(contact, key)) <= 1 <==> SlipCount(steps, contact, key) == 0
  {
    RowsAreAccountedFor(steps, contact, key);
    HasKeyCounts(After(INIT, steps).inner.db.runs, contact, key);
  }

  // ------------------------------------------------------------- a second row

  lemma {:induction false} AfterAppend(w: World, steps: seq<Step>, s: Step)
    ensures After(w, steps + [s]) == Apply(After(w, steps), s)
  {
    assert (steps + [s])[..|steps|] == steps;
  }

  function Inners(steps: seq<L.Step>): seq<Step> { seq(|steps|, i requires 0 <= i < |steps| => Inner(steps[i])) }

  lemma {:induction false} InnerRun(w: World, first: seq<Step>, steps: seq<L.Step>)
    ensures After(w, first + Inners(steps))
         == After(w, first).(inner := L.After(After(w, first).inner, steps))
  {
    if steps == [] {
      assert first + Inners(steps) == first;
    } else {
      var n := |steps| - 1;
      assert Inners(steps) == Inners(steps[..n]) + [Inner(steps[n])];
      assert first + Inners(steps) == (first + Inners(steps[..n])) + [Inner(steps[n])];
      InnerRun(w, first, steps[..n]);
      AfterAppend(w, first + Inners(steps[..n]), Inner(steps[n]));
    }
  }

  /** A run in which another worker inserts, works and ends between the two. */
  function Overtaken(): seq<Step> {
    [LookUp(7, "goal", {}, 3, 0)] + Inners(Orphans.RACE) + [Follow(0)]
  }

  lemma TwoRows(runs: seq<Run>, contact: ContactId, key: DedupeKey)
    requires |runs| == 2 && forall i :: 0 <= i < 2 ==> WithKey(contact, key)(runs[i])
    ensures Count(runs, WithKey(contact, key)) == 2
  {
    assert runs[..1][..0] == [];
    assert Count(runs[..1], WithKey(contact, key)) == 1;
  }

  lemma FollowsOvertaken(w: World)
    requires w.lookups == [Lookup(7, "goal", {}, Occurrence(3, 0), L.INIT.db, false)]
    requires w.inner == L.After(L.INIT, Orphans.RACE)
    ensures Count(Apply(w, Follow(0)).inner.db.runs, WithKey(7, Occurrence(3, 0))) == 2
  {
    Orphans.SecondRunSlipsThrough();
    TwoRows(Apply(w, Follow(0)).inner.db.runs, 7, Occurrence(3, 0));
  }

  const LOOKED_UP := World(L.INIT, [Lookup(7, "goal", {}, Occurrence(3, 0), L.INIT.db, false)])

  lemma {:induction false} LooksUp()
    ensures After(INIT, [LookUp(7, "goal", {}, 3, 0)]) == LOOKED_UP
  {
    var look := LookUp(7, "goal", {}, 3, 0);
    assert [look] == [] + [look];
    AfterAppend(INIT, [], look);
  }

  lemma {:induction false} OvertakenRun(first: seq<Step>, race: seq<L.Step>, v: World)
    requires v == After(INIT, first).(inner := L.After(After(INIT, first).inner, race))
    ensures After(INIT, first + Inners(race) + [Follow(0)]) == Apply(v, Follow(0))
  {
    InnerRun(INIT, first, race);
    AfterAppend(INIT, first + Inners(race), Follow(0));
  }

  /** Two workers leave two rows of one occurrence. */
  lemma {:induction false} SecondRowIsReachable()
    ensures Count(After(INIT, Overtaken()).inner.db.runs, WithKey(7, Occurrence(3, 0))) == 2
  {
    LooksUp();
    var v := LOOKED_UP.(inner := L.After(L.INIT, Orphans.RACE));
    OvertakenRun([LookUp(7, "goal", {}, 3, 0)], Orphans.RACE, v);
    FollowsOvertaken(v);
  }
}
