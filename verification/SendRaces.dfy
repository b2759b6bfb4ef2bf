/** Visible sends of one Interaction turn running at the same time
    (app/agent/interaction.py): each stops at its awaits, the others run between,
    and any of them may be cancelled there. */
module SendRaces {
  import opened Wrappers
  import opened Table
  import opened Interaction
  import opened TurnProperties

  /** Where one send stands. A refusal has been noted when its row is recorded; a
      cut send is told apart by whether the provider had already accepted it. */
  datatype Pc =
    | Reserving(number: nat)
    | Marking(number: nat, created: bool)
    | Calling(number: nat)
    | Recording(number: nat, accepted: bool)
    | Ended
    | Cut(accepted: bool)

  datatype World = World(turn: Turn, senders: seq<Pc>)

  const INIT := World(NEW_TURN, [])

  /** A reservation rolls back, commits, or commits without its acknowledgement. */
  datatype Commit = RolledBack | Committed | CommitLost

  /** What a cancellation interrupts: nothing at the provider, or a call that was
      handed over and refused or accepted there. */
  datatype Handed = NotHanded | HandedOver(accepted: bool)

  datatype Step =
    | Start(id: Option<string>, body: string)
    | Reserve(sender: nat, commit: Commit)
    | Mark(sender: nat)
    | CallProvider(sender: nat, accepts: bool)
    | Record(sender: nat, stored: bool)
    | Cancel(sender: nat, handed: Handed)

  function WithPc(w: World, k: nat, pc: Pc): World
    requires k < |w.senders|
  {
    w.(senders := w.senders[k := pc])
  }

  /** Up to the first await: the text, the sequence number and the fuse. */
  function StartStep(w: World, id: Option<string>, body: string): World {
    if Blank(body) then World(Note(w.turn, SkippedEmpty), w.senders + [Ended])
    else
      var (u, n) := Allocate(w.turn, id);
      if n > MAX_VISIBLE_OUTBOUNDS then World(Note(u, SkippedLimit), w.senders + [Ended])
      else World(u, w.senders + [Reserving(n)])
  }

  /** The reservation's transaction. */
  function ReserveStep(w: World, k: nat, commit: Commit): World
    requires k < |w.senders| && w.senders[k].Reserving?
  {
    var n := w.senders[k].number;
    var created := n !in w.turn.rows;
    var rows := if commit.RolledBack? || !created then w.turn.rows else w.turn.rows[n := Reserved];
    WithPc(w.(turn := w.turn.(rows := rows)), k, if commit.Committed? then Marking(n, created) else Ended)
  }

  /** From the committed reservation to the provider call. */
  function MarkStep(w: World, k: nat): World
    requires k < |w.senders| && w.senders[k].Marking?
  {
    var n := w.senders[k].number;
    var marked := w.turn.(reserved := w.turn.reserved + {n});
    if w.senders[k].created then WithPc(w.(turn := marked), k, Calling(n))
    else WithPc(w.(turn := Note(marked, Deduplicated)), k, Ended)
  }

  function Handing(t: Turn, n: nat, accepts: bool): Turn {
    var sent := t.(sends := t.sends + [n]);
    if accepts then sent.(accepted := sent.accepted + [n]) else sent
  }

  function CallStep(w: World, k: nat, accepts: bool): World
    requires k < |w.senders| && w.senders[k].Calling?
  {
    var n := w.senders[k].number;
    var handed := Handing(w.turn, n, accepts);
    WithPc(w.(turn := if accepts then handed else Note(handed, SendFailed)), k, Recording(n, accepts))
  }

  function RecordStep(w: World, k: nat, stored: bool): World
    requires k < |w.senders| && w.senders[k].Recording?
  {
    var n := w.senders[k].number;
    var delivery := if w.senders[k].accepted then Sent else Undelivered;
    var t := if stored then w.turn.(rows := w.turn.rows[n := delivery]) else w.turn;
    var noted := if w.senders[k].accepted then Note(t, if stored then SentAndPersisted else SentNotPersisted) else t;
    WithPc(w.(turn := noted), k, Ended)
  }

  /** A cancelled send notes nothing, whatever the provider had done. */
  function CancelStep(w: World, k: nat, handed: Handed): World
    requires k < |w.senders|
  {
    var pc := w.senders[k];
    if pc.Calling? && handed.HandedOver? then
      WithPc(w.(turn := Handing(w.turn, pc.number, handed.accepted)), k, Cut(handed.accepted))
    else WithPc(w, k, Cut(pc.Recording? && pc.accepted))
  }

  predicate Enabled(w: World, s: Step) {
    match s
    case Start(_, _) => true
    case Reserve(k, _) => k < |w.senders| && w.senders[k].Reserving?
    case Mark(k) => k < |w.senders| && w.senders[k].Marking?
    case CallProvider(k, _) => k < |w.senders| && w.senders[k].Calling?
    case Record(k, _) => k < |w.senders| && w.senders[k].Recording?
    case Cancel(k, _) => k < |w.senders| && !w.senders[k].Ended? && !w.senders[k].Cut?
  }

  function Apply(w: World, s: Step): World {
    if !Enabled(w, s) then w
    else
      match s
      case Start(id, body) => StartStep(w, id, body)
      case Reserve(k, commit) => ReserveStep(w, k, commit)
      case Mark(k) => MarkStep(w, k)
      case CallProvider(k, accepts) => CallStep(w, k, accepts)
      case Record(k, stored) => RecordStep(w, k, stored)
      case Cancel(k, handed) => CancelStep(w, k, handed)
  }

  function After(w: World, steps: seq<Step>): World {
    if steps == [] then w else Apply(After(w, steps[..|steps| - 1]), steps[|steps| - 1])
  }

  // -------------------------------------------------------------- invariant

  /** The send that created the row of n and has not finished with it. */
  predicate Holds(pc: Pc, n: nat) {
    match pc
    case Marking(number, created) => created && number == n
    case Calling(number) => number == n
    case Recording(number, _) => number == n
    case _ => false
  }

  predicate PcOk(t: Turn, pc: Pc) {
    match pc
    case Reserving(n) => 1 <= n <= |t.sequenceOf| && n <= MAX_VISIBLE_OUTBOUNDS
    case Marking(n, created) => n in t.rows && (created ==> n !in t.sends && t.rows[n].Reserved?)
    case Calling(n) => n in t.reserved && n !in t.sends && n in t.rows && t.rows[n].Reserved?
    case Recording(n, accepted) =>
      n in t.sends && (n in t.accepted <==> accepted) && n in t.rows && t.rows[n].Reserved?
    case _ => true
  }

  predicate OneHolder(senders: seq<Pc>, n: nat) {
    forall j, k :: 0 <= j < k < |senders| && Holds(senders[j], n) ==> !Holds(senders[k], n)
  }

  /** An acceptance whose outcome is still to be noted, or never will be. */
  function Unreported(): Pc -> bool { (pc: Pc) => (pc.Recording? || pc.Cut?) && pc.accepted }

  function Accepting(): Outcome -> bool { (o: Outcome) => ProviderAccepted(o) }

  /** Every acceptance is noted by one outcome or belongs to one unreported send. */
  predicate Accounted(w: World) {
    |w.turn.accepted| == Count(w.turn.outcomes, Accepting()) + Count(w.senders, Unreported())
  }

  ghost predicate Inv(w: World) {
    && TurnOk(w.turn) && Accounted(w)
    && (forall k :: 0 <= k < |w.senders| ==> PcOk(w.turn, w.senders[k]))
    && (forall n: nat :: OneHolder(w.senders, n))
  }

  /** A step that moves sender k to pc and changes the turn to u. */
  lemma MoveKeeps(w: World, u: Turn, k: nat, pc: Pc)
    requires Inv(w) && k < |w.senders| && TurnOk(u) && PcOk(u, pc)
    requires |u.accepted| + Count(w.turn.outcomes, Accepting()) + (if Unreported()(w.senders[k]) then 1 else 0)
          == |w.turn.accepted| + Count(u.outcomes, Accepting()) + (if Unreported()(pc) then 1 else 0)
    requires forall j :: 0 <= j < |w.senders| && j != k ==> PcOk(u, w.senders[j])
    requires forall n: nat :: Holds(pc, n) ==>
               forall j :: 0 <= j < |w.senders| && j != k ==> !Holds(w.senders[j], n)
    ensures Inv(WithPc(w.(turn := u), k, pc))
  {
    var v := WithPc(w.(turn := u), k, pc);
    CountUpdate(w.senders, k, pc, Unreported());
    forall n: nat ensures OneHolder(v.senders, n) {
      forall i, j | 0 <= i < j < |v.senders| && Holds(v.senders[i], n) ensures !Holds(v.senders[j], n) {
        assert OneHolder(w.senders, n);
      }
    }
  }

  lemma JoinKeeps(w: World, u: Turn, pc: Pc)
    requires Inv(w) && TurnOk(u) && PcOk(u, pc) && (pc.Reserving? || pc.Ended?)
    requires |w.turn.sequenceOf| <= |u.sequenceOf| && u.reserved == w.turn.reserved && u.rows == w.turn.rows
    requires u.sends == w.turn.sends && u.accepted == w.turn.accepted
    requires Count(u.outcomes, Accepting()) == Count(w.turn.outcomes, Accepting())
    ensures Inv(World(u, w.senders + [pc]))
  {
    CountAppend(w.senders, pc, Unreported());
    forall k | 0 <= k < |w.senders| ensures PcOk(u, w.senders[k]) { assert PcOk(w.turn, w.senders[k]); }
    forall n: nat ensures OneHolder(w.senders + [pc], n) { assert OneHolder(w.senders, n); }
  }

  lemma StartKeeps(w: World, id: Option<string>, body: string)
    requires Inv(w)
    ensures Inv(StartStep(w, id, body)) && Extends(w.turn, StartStep(w, id, body).turn)
  {
    if Blank(body) {
      NoteKeeps(w.turn, SkippedEmpty);
      CountAppend(w.turn.outcomes, SkippedEmpty, Accepting());
      JoinKeeps(w, Note(w.turn, SkippedEmpty), Ended);
    } else {
      AllocateKeeps(w.turn, id);
      var (u, n) := Allocate(w.turn, id);
      if n > MAX_VISIBLE_OUTBOUNDS {
        NoteKeeps(u, SkippedLimit);
        CountAppend(w.turn.outcomes, SkippedLimit, Accepting());
        JoinKeeps(w, Note(u, SkippedLimit), Ended);
      } else {
        JoinKeeps(w, u, Reserving(n));
      }
    }
  }

  lemma ReserveKeeps(w: World, k: nat, commit: Commit)
    requires Inv(w) && k < |w.senders| && w.senders[k].Reserving?
    ensures Inv(ReserveStep(w, k, commit)) && Extends(w.turn, ReserveStep(w, k, commit).turn)
  {
    var n := w.senders[k].number;
    assert PcOk(w.turn, w.senders[k]);
    var v := ReserveStep(w, k, commit);
    forall j | 0 <= j < |w.senders|
      ensures PcOk(v.turn, w.senders[j]) && (n !in w.turn.rows ==> !Holds(w.senders[j], n))
    {
      assert PcOk(w.turn, w.senders[j]);
    }
    MoveKeeps(w, v.turn, k, v.senders[k]);
  }

  lemma MarkedKeeps(w: World, k: nat)
    requires Inv(w) && k < |w.senders| && w.senders[k].Marking? && w.senders[k].created
    ensures Inv(MarkStep(w, k)) && Extends(w.turn, MarkStep(w, k).turn)
  {
    var n := w.senders[k].number;
    var marked := w.turn.(reserved := w.turn.reserved + {n});
    forall j | 0 <= j < |w.senders| ensures PcOk(marked, w.senders[j]) { assert PcOk(w.turn, w.senders[j]); }
    forall j | 0 <= j < |w.senders| && j != k ensures !Holds(w.senders[j], n) { assert OneHolder(w.senders, n); }
    MoveKeeps(w, marked, k, Calling(n));
  }

  lemma DuplicateKeeps(w: World, k: nat)
    requires Inv(w) && k < |w.senders| && w.senders[k].Marking? && !w.senders[k].created
    ensures Inv(MarkStep(w, k)) && Extends(w.turn, MarkStep(w, k).turn)
  {
    var marked := w.turn.(reserved := w.turn.reserved + {w.senders[k].number});
    assert PcOk(w.turn, w.senders[k]);
    NoteKeeps(marked, Deduplicated);
    CountAppend(w.turn.outcomes, Deduplicated, Accepting());
    var u := Note(marked, Deduplicated);
    forall j | 0 <= j < |w.senders| ensures PcOk(u, w.senders[j]) { assert PcOk(w.turn, w.senders[j]); }
    MoveKeeps(w, u, k, Ended);
  }

  /** Handing a held number over keeps the log, whatever becomes of the sender. */
  lemma HandingKeeps(w: World, k: nat, accepts: bool)
    requires Inv(w) && k < |w.senders| && w.senders[k].Calling?
    ensures var u := Handing(w.turn, w.senders[k].number, accepts);
            && TurnOk(u) && Extends(w.turn, u) && |u.accepted| == |w.turn.accepted| + (if accepts then 1 else 0)
            && PcOk(u, Recording(w.senders[k].number, accepts))
            && forall j :: 0 <= j < |w.senders| && j != k ==>
                 PcOk(u, w.senders[j]) && !Holds(w.senders[j], w.senders[k].number)
  {
    var n := w.senders[k].number;
    var u := Handing(w.turn, n, accepts);
    assert PcOk(w.turn, w.senders[k]);
    CalledKeeps(w.turn, n);
    if accepts { AcceptedKeeps(w.turn.(sends := w.turn.sends + [n]), n); }
    forall j | 0 <= j < |w.senders| && j != k ensures PcOk(u, w.senders[j]) && !Holds(w.senders[j], n) {
      assert OneHolder(w.senders, n) && PcOk(w.turn, w.senders[j]);
    }
  }

  lemma CallKeeps(w: World, k: nat, accepts: bool)
    requires Inv(w) && k < |w.senders| && w.senders[k].Calling?
    ensures Inv(CallStep(w, k, accepts)) && Extends(w.turn, CallStep(w, k, accepts).turn)
  {
    var n := w.senders[k].number;
    var handed := Handing(w.turn, n, accepts);
    HandingKeeps(w, k, accepts);
    if accepts {
      MoveKeeps(w, handed, k, Recording(n, true));
    } else {
      NoteKeeps(handed, SendFailed);
      CountAppend(w.turn.outcomes, SendFailed, Accepting());
      var u := Note(handed, SendFailed);
      forall j | 0 <= j < |w.senders| && j != k ensures PcOk(u, w.senders[j]) { assert PcOk(handed, w.senders[j]); }
      MoveKeeps(w, u, k, Recording(n, false));
    }
  }

  lemma CancelKeeps(w: World, k: nat, handed: Handed)
    requires Inv(w) && Enabled(w, Cancel(k, handed))
    ensures Inv(CancelStep(w, k, handed)) && Extends(w.turn, CancelStep(w, k, handed).turn)
  {
    if w.senders[k].Calling? && handed.HandedOver? {
      HandingKeeps(w, k, handed.accepted);
      MoveKeeps(w, Handing(w.turn, w.senders[k].number, handed.accepted), k, Cut(handed.accepted));
    } else {
      MoveKeeps(w, w.turn, k, Cut(w.senders[k].Recording? && w.senders[k].accepted));
    }
  }

  function Stored(t: Turn, n: nat, accepted: bool, stored: bool): Turn {
    if stored then t.(rows := t.rows[n := if accepted then Sent else Undelivered]) else t
  }

  /** A row's last update reports what the provider did, and is noted after it. */
  lemma StoredKeeps(w: World, k: nat, stored: bool)
    requires Inv(w) && k < |w.senders| && w.senders[k].Recording?
    ensures var t := Stored(w.turn, w.senders[k].number, w.senders[k].accepted, stored);
            && TurnOk(t) && Extends(w.turn, t)
            && forall j :: 0 <= j < |w.senders| && j != k ==> PcOk(t, w.senders[j])
  {
    var n := w.senders[k].number;
    assert PcOk(w.turn, w.senders[k]);
    if stored { RowKeeps(w.turn, n, if w.senders[k].accepted then Sent else Undelivered); }
    forall j | 0 <= j < |w.senders| && j != k
      ensures PcOk(Stored(w.turn, n, w.senders[k].accepted, stored), w.senders[j])
    {
      assert OneHolder(w.senders, n) && PcOk(w.turn, w.senders[j]);
    }
  }

  lemma PcKeepsNote(t: Turn, o: Outcome, pc: Pc)
    requires PcOk(t, pc)
    ensures PcOk(Note(t, o), pc)
  {}

  lemma RecordedNote(t: Turn, n: nat, o: Outcome)
    requires TurnOk(t) && n in t.accepted && ProviderAccepted(o)
    ensures TurnOk(Note(t, o)) && Extends(t, Note(t, o))
    ensures Count(Note(t, o).outcomes, Accepting()) == Count(t.outcomes, Accepting()) + 1
  {
    assert n in t.sends && n in t.reserved;
    NoteKeeps(t, o);
    CountAppend(t.outcomes, o, Accepting());
  }

  lemma RecordKeeps(w: World, k: nat, stored: bool)
    requires Inv(w) && k < |w.senders| && w.senders[k].Recording?
    ensures Inv(RecordStep(w, k, stored)) && Extends(w.turn, RecordStep(w, k, stored).turn)
  {
    var n := w.senders[k].number;
    var t := Stored(w.turn, n, w.senders[k].accepted, stored);
    StoredKeeps(w, k, stored);
    if w.senders[k].accepted {
      var o := if stored then SentAndPersisted else SentNotPersisted;
      assert PcOk(w.turn, w.senders[k]);
      RecordedNote(t, n, o);
      forall j | 0 <= j < |w.senders| && j != k ensures PcOk(Note(t, o), w.senders[j]) {
        PcKeepsNote(t, o, w.senders[j]);
      }
      MoveKeeps(w, Note(t, o), k, Ended);
    } else {
      MoveKeeps(w, t, k, Ended);
    }
  }

  lemma StepKeeps(w: World, s: Step)
    requires Inv(w)
    ensures Inv(Apply(w, s)) && Extends(w.turn, Apply(w, s).turn)
  {
    if Enabled(w, s) {
      match s
      case Start(id, body) => StartKeeps(w, id, body);
      case Reserve(k, commit) => ReserveKeeps(w, k, commit);
      case Mark(k) => if w.senders[k].created { MarkedKeeps(w, k); } else { DuplicateKeeps(w, k); }
      case CallProvider(k, accepts) => CallKeeps(w, k, accepts);
      case Record(k, stored) => RecordKeeps(w, k, stored);
      case Cancel(k, handed) => CancelKeeps(w, k, handed);
    }
  }

  lemma {:induction false} RunKeeps(w: World, steps: seq<Step>)
    requires Inv(w)
    ensures Inv(After(w, steps)) && Extends(w.turn, After(w, steps).turn)
  {
    if steps != [] {
      RunKeeps(w, steps[..|steps| - 1]);
      StepKeeps(After(w, steps[..|steps| - 1]), steps[|steps| - 1]);
    }
  }

  // --------------------------------------------------------------- theorems

  /** SENDS AT THE SAME TIME ARE SAFE, in every reachable state: numbers are 1..n,
      at most five provider calls, never two for one number, and each behind a
      reservation this process knows of; one send at a time holds a number; every
      acceptance is noted once or belongs to one send cut or still recording. */
  lemma {:induction false} RacingSendsAreSafe(steps: seq<Step>)
    ensures var w := After(INIT, steps);
            && Numbered(w.turn.sequenceOf)
            && |w.turn.sends| <= 5 && NoRepeats(w.turn.sends)
            && (forall n :: n in w.turn.accepted ==> n in w.turn.sends)
            && (forall n :: n in w.turn.sends ==> n in w.turn.reserved)
            && (forall n: nat :: OneHolder(w.senders, n))
            && Accounted(w)
  {
    RunKeeps(INIT, steps);
    FuseHolds(After(INIT, steps).turn);
  }

  /** THE RETRY TEST IS SOUND: while nothing is marked as reserved, nothing has been
      handed to the provider and no send is at its call, whatever was cancelled. */
  lemma {:induction false} NothingReservedNothingSent(steps: seq<Step>)
    ensures var w := After(INIT, steps);
            w.turn.reserved == {} ==>
              && w.turn.sends == [] && w.turn.accepted == [] && !Delivered(w.turn)
              && forall k :: 0 <= k < |w.senders| ==> !w.senders[k].Calling? && !w.senders[k].Recording?
  {
    RunKeeps(INIT, steps);
    if After(INIT, steps).turn.reserved == {} { NoneReserved(After(INIT, steps)); }
  }

  lemma NoneReserved(w: World)
    requires Inv(w) && w.turn.reserved == {}
    ensures w.turn.sends == [] && w.turn.accepted == [] && !Delivered(w.turn)
    ensures forall k :: 0 <= k < |w.senders| ==> !w.senders[k].Calling? && !w.senders[k].Recording?
  {
    NothingYet(w.turn);
    NoSends(w.turn);
    forall k | 0 <= k < |w.senders| ensures !w.senders[k].Calling? && !w.senders[k].Recording? {
      assert PcOk(w.turn, w.senders[k]);
    }
  }

  /** Some further steps hand number n to the provider. */
  ghost predicate CanBeSent(w: World, n: nat) { exists more: seq<Step> :: n in After(w, more).turn.sends }

  predicate Held(w: World, n: nat) { exists k :: 0 <= k < |w.senders| && Holds(w.senders[k], n) }

  /** A step that touches one sender at most, and hands over only what it held. */
  predicate Touches(w: World, v: World, k: nat, n: nat) {
    && (forall j :: 0 <= j < |v.senders| && Holds(v.senders[j], n) ==>
          (j < |w.senders| && Holds(w.senders[j], n)) || (j == k && n !in w.turn.rows))
    && (n in v.turn.sends ==> n in w.turn.sends || (k < |w.senders| && Holds(w.senders[k], n)))
  }

  lemma CallTouches(w: World, s: Step, n: nat)
    requires Enabled(w, s) && (s.CallProvider? || s.Cancel?)
    ensures Touches(w, Apply(w, s), s.sender, n)
  {}

  lemma RowTouches(w: World, s: Step, n: nat)
    requires Enabled(w, s) && (s.Reserve? || s.Mark? || s.Record?)
    ensures Touches(w, Apply(w, s), s.sender, n)
  {}

  lemma StartTouches(w: World, id: Option<string>, body: string, n: nat)
    ensures Touches(w, StartStep(w, id, body), |w.senders|, n)
  {}

  lemma UnheldStep(w: World, s: Step, n: nat)
    requires Inv(w) && n in w.turn.rows && n !in w.turn.sends && !Held(w, n)
    ensures n in Apply(w, s).turn.rows && n !in Apply(w, s).turn.sends && !Held(Apply(w, s), n)
  {
    StepKeeps(w, s);
    if s.Start? {
      StartTouches(w, s.id, s.body, n);
    } else if Enabled(w, s) {
      if s.CallProvider? || s.Cancel? { CallTouches(w, s, n); } else { RowTouches(w, s, n); }
    }
  }

  lemma {:induction false} UnheldStays(w: World, more: seq<Step>, n: nat)
    requires Inv(w) && n in w.turn.rows && n !in w.turn.sends && !Held(w, n)
    ensures var v := After(w, more); n in v.turn.rows && n !in v.turn.sends && !Held(v, n)
  {
    if more != [] {
      UnheldStays(w, more[..|more| - 1], n);
      RunKeeps(w, more[..|more| - 1]);
      UnheldStep(After(w, more[..|more| - 1]), more[|more| - 1], n);
    }
  }

  /** STRANDED NUMBERS: a number with a row that was never handed over can still be
      sent exactly while the send that created its row holds it. */
  lemma {:induction false} SendableExactly(steps: seq<Step>, n: nat)
    requires var w := After(INIT, steps); n in w.turn.rows && n !in w.turn.sends
    ensures CanBeSent(After(INIT, steps), n) <==> Held(After(INIT, steps), n)
  {
    var w := After(INIT, steps);
    RunKeeps(INIT, steps);
    if Held(w, n) {
      var k :| 0 <= k < |w.senders| && Holds(w.senders[k], n);
      HolderSends(w, k, n);
    } else {
      forall more: seq<Step> ensures n !in After(w, more).turn.sends { UnheldStays(w, more, n); }
    }
  }

  lemma HolderSends(w: World, k: nat, n: nat)
    requires Inv(w) && k < |w.senders| && Holds(w.senders[k], n) && n !in w.turn.sends
    ensures CanBeSent(w, n)
  {
    assert PcOk(w.turn, w.senders[k]);
    if w.senders[k].Marking? {
      AfterAppend(w, [], Mark(k));
      CallingSends(w, [] + [Mark(k)], k, n);
    } else {
      CallingSends(w, [], k, n);
    }
  }

  lemma CallingSends(w: World, steps: seq<Step>, k: nat, n: nat)
    requires var u := After(w, steps); k < |u.senders| && u.senders[k] == Calling(n)
    ensures CanBeSent(w, n)
  {
    var u := After(w, steps);
    AfterAppend(w, steps, CallProvider(k, true));
    assert CallStep(u, k, true).turn.sends == u.turn.sends + [n];
    assert n in After(w, steps + [CallProvider(k, true)]).turn.sends;
  }

  lemma {:induction false} AfterAppend(w: World, steps: seq<Step>, s: Step)
    ensures After(w, steps + [s]) == Apply(After(w, steps), s)
  {
    assert (steps + [s])[..|steps|] == steps;
  }

  /** The steps of send k with no other between; those that do not apply do nothing. */
  function Alone(k: nat, id: Option<string>, body: string, net: Net): seq<Step> {
    [Start(id, body)] + [Reserve(k, CommitOf(net))] + [Mark(k)] + [CallProvider(k, Takes(net))]
    + [Record(k, Stores(net))]
  }

  function CommitOf(net: Net): Commit {
    if net.ReserveFails? then RolledBack else if net.ReserveUnknown? then CommitLost else Committed
  }

  predicate Takes(net: Net) { net.Accepted? || net.AcceptedNotRecorded? }

  predicate Stores(net: Net) { net.Accepted? || net.Rejected? }

  function FromMark(w: World, k: nat, net: Net): World {
    Apply(Apply(Apply(w, Mark(k)), CallProvider(k, Takes(net))), Record(k, Stores(net)))
  }

  lemma {:induction false} AloneSteps(w: World, k: nat, id: Option<string>, body: string, net: Net)
    ensures After(w, Alone(k, id, body, net))
         == FromMark(Apply(Apply(w, Start(id, body)), Reserve(k, CommitOf(net))), k, net)
  {
    var start := [Start(id, body)];
    assert start == [] + start;
    AfterAppend(w, [], Start(id, body));
    AfterAppend(w, start, Reserve(k, CommitOf(net)));
    AfterAppend(w, start + [Reserve(k, CommitOf(net))], Mark(k));
    AfterAppend(w, start + [Reserve(k, CommitOf(net))] + [Mark(k)], CallProvider(k, Takes(net)));
    AfterAppend(
      w, start + [Reserve(k, CommitOf(net))] + [Mark(k)] + [CallProvider(k, Takes(net))], Record(k, Stores(net)));
  }

  lemma EndedStays(w: World, k: nat, net: Net)
    requires k < |w.senders| && w.senders[k].Ended?
    ensures FromMark(w, k, net) == w
  {}

  lemma CreatedDelivers(w: World, k: nat, net: Net)
    requires k < |w.senders| && w.senders[k].Marking? && w.senders[k].created
    requires w.senders[k].number in w.turn.rows && !net.ReserveFails? && !net.ReserveUnknown?
    ensures var n := w.senders[k].number;
            FromMark(w, k, net).turn == Deliver(w.turn.(reserved := w.turn.reserved + {n}), n, net).0
  {}

  lemma DuplicateNotes(w: World, k: nat, net: Net)
    requires k < |w.senders| && w.senders[k].Marking? && !w.senders[k].created
    ensures FromMark(w, k, net).turn
         == Note(w.turn.(reserved := w.turn.reserved + {w.senders[k].number}), Deduplicated)
  {}

  /** Once started, the rest of an uninterrupted send is the numbered send. */
  lemma ReservingIsNumbered(w: World, k: nat, net: Net)
    requires k < |w.senders| && w.senders[k].Reserving? && w.senders[k].number <= MAX_VISIBLE_OUTBOUNDS
    ensures FromMark(Apply(w, Reserve(k, CommitOf(net))), k, net).turn
         == SendNumbered(w.turn, w.senders[k].number, net).0
  {
    var reserved := Apply(w, Reserve(k, CommitOf(net)));
    if reserved.senders[k].Ended? {
      EndedStays(reserved, k, net);
    } else if reserved.senders[k].created {
      CreatedDelivers(reserved, k, net);
    } else {
      DuplicateNotes(reserved, k, net);
    }
  }

  /** A send that nothing interrupts is the sequential turn's send. */
  lemma AloneIsSendStep(w: World, id: Option<string>, body: string, net: Net)
    ensures After(w, Alone(|w.senders|, id, body, net)).turn == SendStep(w.turn, id, body, net).0
  {
    var k := |w.senders|;
    AloneSteps(w, k, id, body, net);
    var started := StartStep(w, id, body);
    if started.senders[k].Ended? {
      EndedStays(started, k, net);
    } else {
      ReservingIsNumbered(started, k, net);
    }
  }

  const CUT_SEND: World := World(NEW_TURN.(sequenceOf := map["x" := 1], rows := map[1 := Reserved]), [Cut(false)])

  const RETRIED_SEND: World :=
    World(CUT_SEND.turn.(reserved := {1}, outcomes := [Deduplicated]), [Cut(false), Ended])

  lemma {:induction false} CutSendReached()
    ensures exists steps :: After(INIT, steps) == CUT_SEND
  {
    var start := [Start(Some("x"), "a")];
    assert start == [] + start && !Blank("a");
    AfterAppend(INIT, [], Start(Some("x"), "a"));
    AfterAppend(INIT, start, Reserve(0, Committed));
    AfterAppend(INIT, start + [Reserve(0, Committed)], Cancel(0, NotHanded));
    var started := Apply(INIT, Start(Some("x"), "a"));
    assert started == World(NEW_TURN.(sequenceOf := map["x" := 1]), [Reserving(1)]);
    var created := Apply(started, Reserve(0, Committed));
    assert created == World(CUT_SEND.turn, [Marking(1, true)]);
    assert Apply(created, Cancel(0, NotHanded)) == CUT_SEND;
  }

  /** A send cut between its committed reservation and the local mark strands its
      number, and a retry under its id counts as delivered. */
  lemma CutBeforeMarkCountsAsDelivered()
    ensures exists steps :: var w := After(INIT, steps); Delivered(w.turn) && w.turn.sends == [] && !CanBeSent(w, 1)
  {
    CutSendReached();
    var steps :| After(INIT, steps) == CUT_SEND;
    var retried := steps + Alone(1, Some("x"), "a", Accepted);
    RetriedAfterCut(steps);
    RetriedFacts();
    SendableExactly(retried, 1);
  }

  lemma RetriedFacts()
    ensures Delivered(RETRIED_SEND.turn) && RETRIED_SEND.turn.sends == []
    ensures 1 in RETRIED_SEND.turn.rows && !Held(RETRIED_SEND, 1)
  {
    assert Visible(RETRIED_SEND.turn.outcomes[0]);
  }

  lemma {:induction false} RetriedAfterCut(steps: seq<Step>)
    requires After(INIT, steps) == CUT_SEND
    ensures After(INIT, steps + Alone(1, Some("x"), "a", Accepted)) == RETRIED_SEND
  {
    AfterConcat(INIT, steps, Alone(1, Some("x"), "a", Accepted));
    AloneSteps(CUT_SEND, 1, Some("x"), "a", Accepted);
    FoundAfterCut();
    DuplicateAfterCut();
  }

  lemma DuplicateAfterCut()
    ensures FromMark(World(CUT_SEND.turn, [Cut(false), Marking(1, false)]), 1, Accepted) == RETRIED_SEND
  {}

  lemma FoundAfterCut()
    ensures Apply(Apply(CUT_SEND, Start(Some("x"), "a")), Reserve(1, Committed))
         == World(CUT_SEND.turn, [Cut(false), Marking(1, false)])
  {
    assert !Blank("a") && Allocate(CUT_SEND.turn, Some("x")) == (CUT_SEND.turn, 1);
    assert Apply(CUT_SEND, Start(Some("x"), "a")) == World(CUT_SEND.turn, [Cut(false), Reserving(1)]);
  }

  lemma {:induction false} AfterConcat(w: World, steps: seq<Step>, more: seq<Step>)
    ensures After(w, steps + more) == After(After(w, steps), more)
  {
    if more == [] {
      assert steps + more == steps;
    } else {
      var n := |more| - 1;
      assert (steps + more)[..|steps| + n] == steps + more[..n];
      AfterConcat(w, steps, more[..n]);
    }
  }

  // ------------------------------------------------------------- a second attempt

  /** The first attempt is over, and the turn may be replayed. */
  predicate Replayable(w: World) {
    w.turn.reserved == {} && forall k :: 0 <= k < |w.senders| ==> w.senders[k].Ended? || w.senders[k].Cut?
  }

  function Numbers(xs: seq<nat>): set<nat> { set n | n in xs }

  lemma {:induction false} NumbersCount(xs: seq<nat>)
    requires NoRepeats(xs)
    ensures |Numbers(xs)| == |xs|
  {
    if xs != [] {
      var n := |xs| - 1;
      NumbersCount(xs[..n]);
      assert Numbers(xs) == Numbers(xs[..n]) + {xs[n]};
    }
  }

  lemma {:induction false} SubsetCount(a: set<nat>, b: set<nat>)
    requires a <= b
    ensures |a| <= |b|
  {
    if a != {} {
      var n :| n in a;
      SubsetCount(a - {n}, b - {n});
    }
  }

  lemma FuseIsShared(t: Turn, stranded: set<nat>)
    requires TurnOk(t) && stranded <= t.rows.Keys && forall n :: n in t.sends ==> n !in stranded
    ensures |t.sends| + |stranded| <= 5
  {
    var fuse := {1, 2, 3, 4, 5};
    forall n | n in Numbers(t.sends) + stranded ensures n in fuse {
      assert n in t.sends || n in stranded;
    }
    NumbersCount(t.sends);
    SubsetCount(Numbers(t.sends) + stranded, fuse);
  }

  /** A REPLAY SENDS NONE OF THE STRANDED MESSAGES: when the first attempt is over with
      nothing marked, whatever it reserved unmarked was never sent, no replay ever
      sends it, and each such number leaves one message less for the whole turn. */
  lemma {:induction false} ReplayLeavesStranded(steps: seq<Step>, more: seq<Step>)
    requires Replayable(After(INIT, steps))
    ensures var w := After(INIT, steps);
            var v := After(w, more);
            && w.turn.sends == [] && (forall n :: n in w.turn.rows ==> n in v.turn.rows && n !in v.turn.sends)
            && |v.turn.sends| + |w.turn.rows.Keys| <= 5
  {
    var w := After(INIT, steps);
    RunKeeps(INIT, steps);
    RunKeeps(w, more);
    NoneReserved(w);
    forall n | n in w.turn.rows ensures n in After(w, more).turn.rows && n !in After(w, more).turn.sends {
      UnheldStays(w, more, n);
    }
    FuseIsShared(After(w, more).turn, w.turn.rows.Keys);
  }

  /** WHAT A REPLAYED SEND DOES, if it is not blank, within the fuse and reserves: it is
      sent exactly if its number was not stranded, and counts as delivered without
      being sent, ending all replays, exactly if it was. */
  lemma {:induction false} ReplayedSendExactly(steps: seq<Step>, id: Option<string>, body: string, net: Net)
    requires Replayable(After(INIT, steps)) && !net.ReserveFails? && !net.ReserveUnknown? && !Blank(body)
    requires Allocate(After(INIT, steps).turn, id).1 <= 5
    ensures var w := After(INIT, steps);
            var n := Allocate(w.turn, id).1;
            var v := After(w, Alone(|w.senders|, id, body, net));
            && v.turn.reserved == {n}
            && (n in v.turn.sends <==> n !in w.turn.rows)
            && (Delivered(v.turn) && v.turn.sends == [] <==> n in w.turn.rows)
  {
    var w := After(INIT, steps);
    RunKeeps(INIT, steps);
    NoneReserved(w);
    AloneIsSendStep(w, id, body, net);
    ReservedOnce(w.turn, id, body, net);
  }

  lemma ReservedOnce(t: Turn, id: Option<string>, body: string, net: Net)
    requires t.reserved == {} && t.sends == [] && !Delivered(t) && !net.ReserveFails? && !net.ReserveUnknown?
    requires !Blank(body) && Allocate(t, id).1 <= MAX_VISIBLE_OUTBOUNDS
    ensures var n := Allocate(t, id).1;
            var u := SendStep(t, id, body, net).0;
            && u.reserved == {n} && (n in u.sends <==> n !in t.rows)
            && (Delivered(u) && u.sends == [] <==> n in t.rows)
  {
    var (numbered, n) := Allocate(t, id);
    NumberedOnce(numbered, n, net);
  }

  lemma NumberedOnce(t: Turn, n: nat, net: Net)
    requires t.reserved == {} && t.sends == [] && n <= MAX_VISIBLE_OUTBOUNDS
    requires !net.ReserveFails? && !net.ReserveUnknown?
    ensures var u := SendNumbered(t, n, net).0;
            && u.reserved == {n} && (n in u.sends <==> n !in t.rows)
            && (Delivered(u) && u.sends == [] <==> n in t.rows)
  {
    var u := SendNumbered(t, n, net).0;
    if n in t.rows { assert Visible(u.outcomes[|u.outcomes| - 1]); }
  }
}
