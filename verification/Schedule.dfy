/** Contact-local occurrences (app/core/rrule.py): local wall-clock time, its
    conversion back to UTC without the fold bit, and the next slot of a rule. */
module Schedule {
  import opened Wrappers
  import opened Scheduler

  /** At UTC instant `at` the offset from UTC becomes `offset`. */
  datatype Shift = Shift(at: Instant, offset: int)

  /** A time zone: its offset before any shift, then its shifts. */
  datatype Zone = Zone(base: int, shifts: seq<Shift>)

  function OffsetAfter(z: Zone, i: int): int
    requires -1 <= i < |z.shifts|
  {
    if i < 0 then z.base else z.shifts[i].offset
  }

  /** Local wall-clock time at which shift i is complete on its first pass, and
      the earliest local time it produces. */
  function WallEnd(z: Zone, i: nat): int
    requires i < |z.shifts|
  {
    var before, after := OffsetAfter(z, i - 1), OffsetAfter(z, i);
    z.shifts[i].at + if before > after then before else after
  }

  function WallBegin(z: Zone, i: nat): int
    requires i < |z.shifts|
  {
    var before, after := OffsetAfter(z, i - 1), OffsetAfter(z, i);
    z.shifts[i].at + if before > after then after else before
  }

  /** Shifts are in order, and the local gap or overlap of one ends before that
      of the next begins. */
  predicate Regular(z: Zone) {
    forall i, j :: 0 <= i < j < |z.shifts| ==> z.shifts[i].at < z.shifts[j].at && WallEnd(z, i) <= WallBegin(z, j)
  }

  /** The last of the first n shifts at or before a UTC instant. */
  function LastShift(z: Zone, n: nat, u: Instant): (i: int)
    requires n <= |z.shifts|
    ensures -1 <= i < n && (i >= 0 ==> z.shifts[i].at <= u) && forall k :: i < k < n ==> u < z.shifts[k].at
  {
    if n == 0 then -1 else if z.shifts[n - 1].at <= u then n - 1 else LastShift(z, n - 1, u)
  }

  /** The last of the first n shifts that a wall-clock time with fold 0 is past. */
  function LastWall(z: Zone, n: nat, x: int): (i: int)
    requires n <= |z.shifts|
    ensures -1 <= i < n && (i >= 0 ==> WallEnd(z, i) <= x) && forall k :: i < k < n ==> x < WallEnd(z, k)
  {
    if n == 0 then -1 else if WallEnd(z, n - 1) <= x then n - 1 else LastWall(z, n - 1, x)
  }

  function Local(z: Zone, u: Instant): int { u + OffsetAfter(z, LastShift(z, |z.shifts|, u)) }

  /** `_to_utc`: the wall-clock time is read with fold 0. */
  function ToUtc(z: Zone, x: int): Instant { x - OffsetAfter(z, LastWall(z, |z.shifts|, x)) }

  function Trunc(x: int): int { x - x % SECOND }

  /** `rule.after(x, inc=False)` over the rule's local slots. */
  type Rule = int -> Option<int>

  /** The next slot is a whole second and strictly later than the time asked. */
  ghost predicate StrictlyLater(rule: Rule) {
    forall x :: rule(x).Some? ==> rule(x).value > x && rule(x).value % SECOND == 0
  }

  function NextSlot(z: Zone, rule: Rule, now: Instant): Option<int> { rule(Trunc(Local(z, now))) }

  /** `next_occurrence_utc` once the rule and zone have parsed. */
  function NextOccurrence(z: Zone, rule: Rule, now: Instant): Option<Instant> {
    var slot := NextSlot(z, rule, now);
    if slot.None? then None else Some(ToUtc(z, slot.value))
  }

  /** The slot lies in the stretch of wall-clock time that the last clock change
      before `now` repeats, and `now` is already in the second pass. */
  predicate InRepeatedHour(z: Zone, now: Instant, slot: int) {
    var i := LastShift(z, |z.shifts|, now);
    i >= 0 && slot < WallEnd(z, i)
  }

  /** A whole-second local time past the truncated local time of now is past it. */
  lemma WholeSecondsLater(z: Zone, now: Instant, x: int)
    requires x % SECOND == 0 && x > Trunc(Local(z, now))
    ensures x > Local(z, now)
  {}

  lemma NextSlotIsLater(z: Zone, rule: Rule, now: Instant)
    requires StrictlyLater(rule) && NextSlot(z, rule, now).Some?
    ensures NextSlot(z, rule, now).value > Local(z, now)
  {
    WholeSecondsLater(z, now, NextSlot(z, rule, now).value);
  }

  lemma SlotIsLater(z: Zone, now: Instant, x: int)
    requires Regular(z) && x > Local(z, now)
    ensures ToUtc(z, x) > now <==> !InRepeatedHour(z, now, x)
    ensures InRepeatedHour(z, now, x) ==> ToUtc(z, x) < z.shifts[LastShift(z, |z.shifts|, now)].at
  {
    var i := LastShift(z, |z.shifts|, now);
    var j := LastWall(z, |z.shifts|, x);
    if InRepeatedHour(z, now, x) {
      assert x > WallBegin(z, i);
      if i > 0 { assert WallEnd(z, i - 1) <= WallBegin(z, i); }
      assert j == i - 1;
    } else if j > i {
      assert now < z.shifts[j].at;
    }
  }

  /** THE NEXT OCCURRENCE IS LATER, exactly outside the repeated hour. */
  lemma NextIsLaterUnlessRepeated(z: Zone, rule: Rule, now: Instant)
    requires Regular(z) && StrictlyLater(rule) && NextSlot(z, rule, now).Some?
    ensures NextOccurrence(z, rule, now).value > now <==> !InRepeatedHour(z, now, NextSlot(z, rule, now).value)
  {
    NextSlotIsLater(z, rule, now);
    SlotIsLater(z, now, NextSlot(z, rule, now).value);
  }

  // ------------------------------------------------------------- the first slot

  /** The rule answers with the first of its slots, which are whole seconds. */
  ghost predicate FirstAfter(slots: int -> bool, rule: Rule) {
    && (forall y :: slots(y) ==> y % 1_000_000 == 0)
    && forall x ::
         if rule(x).Some? then IsFirst(slots, x, rule(x).value) else forall y :: y > x ==> !slots(y)
  }

  /** y is a slot after x, and none lies between. */
  ghost predicate IsFirst(slots: int -> bool, x: int, y: int) {
    slots(y) && y > x && forall m :: x < m < y ==> !slots(m)
  }

  lemma FirstIsLater(slots: int -> bool, rule: Rule)
    requires FirstAfter(slots, rule)
    ensures StrictlyLater(rule)
  {
    forall x | rule(x).Some? ensures rule(x).value > x && rule(x).value % SECOND == 0 {
      assert IsFirst(slots, x, rule(x).value);
    }
  }

  /** No whole second lies after the truncated local time and not after the local time. */
  lemma SameSlotsAhead(z: Zone, now: Instant, y: int)
    requires y % 1_000_000 == 0
    ensures y > Trunc(Local(z, now)) <==> y > Local(z, now)
  {}

  /** THE NEXT OCCURRENCE IS THE FIRST: the instant of the first slot after the local
      time of now, and none exactly if no slot is left. */
  lemma NextIsTheFirst(z: Zone, slots: int -> bool, rule: Rule, now: Instant)
    requires FirstAfter(slots, rule)
    ensures NextOccurrence(z, rule, now).None? <==> forall y :: y > Local(z, now) ==> !slots(y)
    ensures NextOccurrence(z, rule, now).Some? ==>
              exists y :: IsFirst(slots, Local(z, now), y) && NextOccurrence(z, rule, now) == Some(ToUtc(z, y))
  {
    var x := Trunc(Local(z, now));
    forall y | slots(y) ensures y > x <==> y > Local(z, now) { SameSlotsAhead(z, now, y); }
    if rule(x).Some? {
      var y := rule(x).value;
      assert IsFirst(slots, x, y);
      assert slots(y);
      forall m | Local(z, now) < m < y ensures !slots(m) { if slots(m) { SameSlotsAhead(z, now, m); } }
      assert IsFirst(slots, Local(z, now), y);
    }
  }

  // --------------------------------------------------------- wall-clock time

  /** Local time is the instant plus the offset in force, the base before any shift. */
  lemma LocalExactly(z: Zone, u: Instant, i: nat)
    requires Regular(z)
    ensures (forall k :: 0 <= k < |z.shifts| ==> u < z.shifts[k].at) ==> Local(z, u) == u + z.base
    ensures i < |z.shifts| && z.shifts[i].at <= u && (i + 1 < |z.shifts| ==> u < z.shifts[i + 1].at) ==>
              Local(z, u) == u + z.shifts[i].offset
  {
    if i < |z.shifts| && z.shifts[i].at <= u && (i + 1 < |z.shifts| ==> u < z.shifts[i + 1].at) {
      assert LastShift(z, |z.shifts|, u) == i;
    }
  }

  lemma BeforeOrAfter(z: Zone, x: int, u: Instant)
    requires Regular(z) && Local(z, u) == x
    ensures ToUtc(z, x) <= u && (ToUtc(z, x) != u ==> InRepeatedHour(z, u, x))
  {
    ReadsBack(z, u);
    if ToUtc(z, x) != u { RepeatedIsEarlier(z, u); }
  }

  lemma RepeatedIsEarlier(z: Zone, u: Instant)
    requires Regular(z) && InRepeatedHour(z, u, Local(z, u))
    ensures ToUtc(z, Local(z, u)) < u && Local(z, ToUtc(z, Local(z, u))) == Local(z, u)
  {
    var i := LastShift(z, |z.shifts|, u);
    assert RepeatedBy(z, i, Local(z, u));
    FoldZeroReads(z, i, Local(z, u));
    FirstPassReads(z, i, Local(z, u));
  }

  /** WALL-CLOCK TIME READS AS THE EARLIEST INSTANT that shows it, if any does. */
  lemma ToUtcIsTheEarliest(z: Zone, x: int, u: Instant)
    requires Regular(z) && Local(z, u) == x
    ensures Local(z, ToUtc(z, x)) == x && ToUtc(z, x) <= u
  {
    BeforeOrAfter(z, x, u);
    if ToUtc(z, x) != u { RepeatedIsEarlier(z, u); }
  }

  /** A time that a shift skips reads with the offset before that shift. */
  lemma SkippedTimeReads(z: Zone, x: int, i: nat)
    requires Regular(z) && i < |z.shifts|
    requires var before := if i == 0 then z.base else z.shifts[i - 1].offset;
             z.shifts[i].at + before <= x < z.shifts[i].at + z.shifts[i].offset
    ensures ToUtc(z, x) == x - (if i == 0 then z.base else z.shifts[i - 1].offset)
    ensures forall u :: Local(z, u) != x
  {
    if i > 0 { assert WallEnd(z, i - 1) <= WallBegin(z, i); }
    assert LastWall(z, |z.shifts|, x) == i - 1;
    forall u ensures Local(z, u) != x { if Local(z, u) == x { ShownIsNotSkipped(z, x, i, u); } }
  }

  lemma ShownIsNotSkipped(z: Zone, x: int, i: nat, u: Instant)
    requires Regular(z) && i < |z.shifts| && WallBegin(z, i) <= x < WallEnd(z, i)
    requires OffsetAfter(z, i - 1) < OffsetAfter(z, i)
    ensures Local(z, u) != x
  {
    var j := LastShift(z, |z.shifts|, u);
    if i < j {
      assert WallEnd(z, i) <= WallBegin(z, j);
    } else if j + 1 < i {
      assert u < z.shifts[j + 1].at && WallEnd(z, j + 1) <= WallBegin(z, i);
    }
  }

  /** In particular whenever the current local time reads back as the current
      instant, that is outside the second pass of a repeated stretch. */
  lemma NextIsLaterOnFirstPass(z: Zone, rule: Rule, now: Instant)
    requires Regular(z) && StrictlyLater(rule) && ToUtc(z, Local(z, now)) == now
    ensures NextOccurrence(z, rule, now).Some? ==> NextOccurrence(z, rule, now).value > now
  {
    if NextOccurrence(z, rule, now).Some? {
      NextSlotIsLater(z, rule, now);
      ReadsBack(z, now);
      NextIsLaterUnlessRepeated(z, rule, now);
    }
  }

  /** Local time reads back as its instant exactly outside a second pass. */
  lemma ReadsBack(z: Zone, now: Instant)
    requires Regular(z)
    ensures ToUtc(z, Local(z, now)) == now <==> !InRepeatedHour(z, now, Local(z, now))
  {
    if InRepeatedHour(z, now, Local(z, now)) { SecondPass(z, now); } else { FirstPass(z, now); }
  }

  lemma SecondPass(z: Zone, now: Instant)
    requires Regular(z) && InRepeatedHour(z, now, Local(z, now))
    ensures ToUtc(z, Local(z, now)) != now
  {
    FoldZeroReads(z, LastShift(z, |z.shifts|, now), Local(z, now));
  }

  lemma FirstPass(z: Zone, now: Instant)
    requires Regular(z) && !InRepeatedHour(z, now, Local(z, now))
    ensures ToUtc(z, Local(z, now)) == now
  {
    var i := LastShift(z, |z.shifts|, now);
    var j := LastWall(z, |z.shifts|, Local(z, now));
    if j > i { BeforeShift(z, now, i, j); }
    assert j == i;
  }

  lemma BeforeShift(z: Zone, now: Instant, i: int, j: int)
    requires Regular(z) && i == LastShift(z, |z.shifts|, now) && i < j < |z.shifts|
    ensures now + OffsetAfter(z, i) < WallEnd(z, j)
  {
    assert now < z.shifts[i + 1].at;
    if i + 1 < j { assert WallEnd(z, i + 1) <= WallBegin(z, j); }
  }

  /** x lies in the stretch of wall-clock time that shift i repeats. */
  predicate RepeatedBy(z: Zone, i: nat, x: int) {
    i < |z.shifts| && OffsetAfter(z, i) < OffsetAfter(z, i - 1) && WallBegin(z, i) <= x < WallEnd(z, i)
  }

  lemma FirstPassReads(z: Zone, i: nat, x: int)
    requires Regular(z) && RepeatedBy(z, i, x)
    ensures x - OffsetAfter(z, i - 1) < z.shifts[i].at && Local(z, x - OffsetAfter(z, i - 1)) == x
  {
    if i > 0 { assert WallEnd(z, i - 1) <= WallBegin(z, i); }
    assert LastShift(z, |z.shifts|, x - OffsetAfter(z, i - 1)) == i - 1;
  }

  lemma SecondPassReads(z: Zone, i: nat, x: int)
    requires Regular(z) && RepeatedBy(z, i, x)
    ensures z.shifts[i].at <= x - OffsetAfter(z, i) && Local(z, x - OffsetAfter(z, i)) == x
  {
    if i + 1 < |z.shifts| { assert WallEnd(z, i) <= WallBegin(z, i + 1); }
    assert LastShift(z, |z.shifts|, x - OffsetAfter(z, i)) == i;
  }

  lemma FoldZeroReads(z: Zone, i: nat, x: int)
    requires Regular(z) && RepeatedBy(z, i, x)
    ensures ToUtc(z, x) == x - OffsetAfter(z, i - 1)
  {
    if i > 0 { assert WallEnd(z, i - 1) <= WallBegin(z, i); }
    assert LastWall(z, |z.shifts|, x) == i - 1;
  }

  lemma LaterIsRepeated(z: Zone, now: Instant, x: int)
    requires Regular(z) && x > Local(z, now) && InRepeatedHour(z, now, x)
    ensures RepeatedBy(z, LastShift(z, |z.shifts|, now), x) && now < x - OffsetAfter(z, LastShift(z, |z.shifts|, now))
  {}

  /** Local time x has passed once, at `first` before the last clock change, and
      is still to come a second time. */
  predicate PassedOnce(z: Zone, now: Instant, x: int, first: Instant) {
    var i := LastShift(z, |z.shifts|, now);
    i >= 0
    && var second := x - OffsetAfter(z, i);
       first < z.shifts[i].at <= now < second && Local(z, first) == x && Local(z, second) == x
  }

  lemma HappensTwice(z: Zone, now: Instant, x: int)
    requires Regular(z) && x > Local(z, now)
    ensures InRepeatedHour(z, now, x) ==> PassedOnce(z, now, x, ToUtc(z, x))
  {
    if InRepeatedHour(z, now, x) {
      var i := LastShift(z, |z.shifts|, now);
      LaterIsRepeated(z, now, x);
      FirstPassReads(z, i, x);
      SecondPassReads(z, i, x);
      FoldZeroReads(z, i, x);
    }
  }

  /** A slot of the repeated stretch is answered with its first pass, the very
      instant scheduled before the change, although the second is still to come. */
  lemma RepeatedSlotIsTheSameInstant(z: Zone, rule: Rule, before: Instant, now: Instant)
    requires Regular(z) && StrictlyLater(rule)
    requires NextSlot(z, rule, before).Some? && NextSlot(z, rule, now) == NextSlot(z, rule, before)
    ensures NextOccurrence(z, rule, now) == NextOccurrence(z, rule, before)
    ensures var slot := NextSlot(z, rule, now).value;
            InRepeatedHour(z, now, slot) ==> PassedOnce(z, now, slot, NextOccurrence(z, rule, now).value)
  {
    NextSlotIsLater(z, rule, now);
    HappensTwice(z, now, NextSlot(z, rule, now).value);
  }
}
