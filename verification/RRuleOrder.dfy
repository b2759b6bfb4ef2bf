/** A rule's canonical form depends on neither the order of its known parts nor
    the case of its keys. */
module RRuleOrder {
  import opened Wrappers
  import opened Text
  import opened RRule
  import opened RRuleProperties

  /** The readable parts of the pieces, blank pieces skipped. */
  function Readings(pieces: seq<string>): seq<Part> {
    if pieces == [] then []
    else
      var n := |pieces| - 1;
      var part := ReadPart(Strip(pieces[n]));
      Readings(pieces[..n]) + if Strip(pieces[n]) != "" && part.Ok? then [part.value] else []
  }

  predicate Readable(pieces: seq<string>) {
    forall i :: 0 <= i < |pieces| ==> Strip(pieces[i]) == "" || ReadPart(Strip(pieces[i])).Ok?
  }

  lemma DistinctAppend(parts: seq<Part>, p: Part)
    ensures DistinctKeys(parts + [p]) <==> DistinctKeys(parts) && !HasKey(parts, p.key)
  {
    var all := parts + [p];
    assert all[|parts|] == p && forall i :: 0 <= i < |parts| ==> all[i] == parts[i];
    if HasKey(parts, p.key) {
      var i :| 0 <= i < |parts| && parts[i].key == p.key;
      assert all[i].key == all[|parts|].key;
    }
    if DistinctKeys(all) {
      forall i, j | 0 <= i < j < |parts| ensures parts[i].key != parts[j].key { assert all[i].key != all[j].key; }
    }
  }

  /** Readable pieces are refused for a repeated key and nothing else. */
  lemma {:induction false} ReadIff(pieces: seq<string>)
    requires Readable(pieces)
    ensures ReadPieces(pieces) == if DistinctKeys(Readings(pieces)) then Ok(Readings(pieces)) else Err(DuplicatePart)
  {
    if pieces != [] {
      var n := |pieces| - 1;
      ReadIff(pieces[..n]);
      var before := Readings(pieces[..n]);
      if Strip(pieces[n]) != "" {
        DistinctAppend(before, ReadPart(Strip(pieces[n])).value);
      } else {
        assert Readings(pieces) == before;
      }
    }
  }

  lemma TwiceIn(parts: seq<Part>, i: nat, j: nat)
    requires i < j < |parts| && parts[i] == parts[j]
    ensures multiset(parts)[parts[i]] >= 2
  {
    assert parts == parts[..j] + parts[j..];
    assert parts[i] in parts[..j] && parts[j..][0] == parts[j];
  }

  lemma {:induction false} OnceIn(parts: seq<Part>, p: Part)
    requires DistinctKeys(parts)
    ensures multiset(parts)[p] <= 1
  {
    if parts != [] {
      OnceIn(parts[1..], p);
      assert parts == [parts[0]] + parts[1..];
      if p in parts[1..] {
        var i :| 0 <= i < |parts[1..]| && parts[1..][i] == p;
        assert parts[i + 1].key != parts[0].key;
      }
    }
  }

  lemma MembersOf(p: seq<Part>, q: seq<Part>, x: Part)
    requires multiset(p) == multiset(q) && x in p
    ensures x in q
  {
    assert x in multiset(p);
  }

  lemma DistinctByMultiset(p: seq<Part>, q: seq<Part>)
    requires multiset(p) == multiset(q) && DistinctKeys(p)
    ensures DistinctKeys(q)
  {
    forall i, j | 0 <= i < j < |q| ensures q[i].key != q[j].key {
      MembersOf(q, p, q[i]);
      MembersOf(q, p, q[j]);
      OnceIn(p, q[i]);
      if q[i] == q[j] { TwiceIn(q, i, j); }
    }
  }

  lemma SameMapByMultiset(p: seq<Part>, q: seq<Part>)
    requires multiset(p) == multiset(q) && DistinctKeys(p) && DistinctKeys(q)
    ensures SameMap(p, q)
  {
    forall key ensures (HasKey(p, key) <==> HasKey(q, key)) && Get(p, key, "") == Get(q, key, "") {
      if HasKey(p, key) {
        FoundInBoth(p, q, key);
      } else if HasKey(q, key) {
        FoundInBoth(q, p, key);
      } else {
        GetDefault(p, key, "");
        GetDefault(q, key, "");
      }
    }
  }

  lemma FoundInBoth(p: seq<Part>, q: seq<Part>, key: string)
    requires multiset(p) == multiset(q) && DistinctKeys(q) && HasKey(p, key)
    ensures HasKey(q, key) && Get(q, key, "") == Get(p, key, "")
  {
    var x := Part(key, Get(p, key, ""));
    GetIsAValue(p, key, "");
    MembersOf(p, q, x);
    var i :| 0 <= i < |q| && q[i] == x;
    GetOf(q, i, "");
  }

  // ------------------------------------------------------- filling is by map

  predicate OnlyKnown(parts: seq<Part>) { forall i :: 0 <= i < |parts| ==> parts[i].key in PART_ORDER }

  lemma {:induction false} PutStaysKnown(parts: seq<Part>, key: string, value: string)
    requires OnlyKnown(parts) && key in PART_ORDER
    ensures OnlyKnown(Put(parts, key, value))
  {
    if parts != [] && parts[0].key != key { PutStaysKnown(parts[1..], key, value); }
  }

  ghost predicate Alike(p: seq<Part>, q: seq<Part>) { SameMap(p, q) && OnlyKnown(p) && OnlyKnown(q) }

  lemma PutAlike(p: seq<Part>, q: seq<Part>, key: string, value: string)
    requires Alike(p, q) && key in PART_ORDER
    ensures Alike(Put(p, key, value), Put(q, key, value))
  {
    PutStaysKnown(p, key, value);
    PutStaysKnown(q, key, value);
    forall k ensures (HasKey(Put(p, key, value), k) <==> HasKey(Put(q, key, value), k))
                     && Get(Put(p, key, value), k, "") == Get(Put(q, key, value), k, "")
    {
      PutFacts(p, key, value, k, "");
      PutFacts(q, key, value, k, "");
    }
  }

  ghost predicate ResultsAlike(r: Result<seq<Part>, Error>, s: Result<seq<Part>, Error>) {
    if r.Ok? then s.Ok? && Alike(r.value, s.value) else r == s
  }

  lemma FillIntervalAlike(p: seq<Part>, q: seq<Part>)
    requires Alike(p, q)
    ensures ResultsAlike(FillInterval(p), FillInterval(q))
  {
    DefaultsOnlyWhenAbsent(p, "INTERVAL", "1");
    DefaultsOnlyWhenAbsent(q, "INTERVAL", "1");
    assert "INTERVAL" == PART_ORDER[1];
    var interval := ParseInt(Get(p, "INTERVAL", "1"));
    if interval.Some? && interval.value >= 1 { PutAlike(p, q, "INTERVAL", Decimal(interval.value)); }
  }

  lemma FillCountAlike(p: seq<Part>, q: seq<Part>)
    requires Alike(p, q)
    ensures ResultsAlike(FillCount(p), FillCount(q))
  {
    assert "COUNT" == PART_ORDER[2];
    var count := ParseInt(Get(p, "COUNT", ""));
    if HasKey(p, "COUNT") && count.Some? && 1 <= count.value <= MAX_COUNT {
      PutAlike(p, q, "COUNT", Decimal(count.value));
    }
  }

  lemma FillAlike(p: seq<Part>, q: seq<Part>)
    requires Alike(p, q)
    ensures ResultsAlike(Fill(p), Fill(q))
  {
    var freq := Upper(Get(p, "FREQ", ""));
    assert "FREQ" == PART_ORDER[0] && "BYSECOND" == PART_ORDER[9];
    if AllowedFreq(freq) {
      var p1, q1 := Put(p, "FREQ", freq), Put(q, "FREQ", freq);
      PutAlike(p, q, "FREQ", freq);
      FillIntervalAlike(p1, q1);
      if FillInterval(p1).Ok? {
        var p2, q2 := FillInterval(p1).value, FillInterval(q1).value;
        FillCountAlike(p2, q2);
        if FillCount(p2).Ok? { PutAlike(FillCount(p2).value, FillCount(q2).value, "BYSECOND", "0"); }
      }
    }
  }

  lemma {:induction false} KnownHaveNoExtras(parts: seq<Part>)
    requires OnlyKnown(parts)
    ensures Extras(parts) == []
  {
    if parts != [] { KnownHaveNoExtras(parts[1..]); }
  }

  lemma ArrangeAlike(p: seq<Part>, q: seq<Part>)
    requires Alike(p, q)
    ensures Arrange(p) == Arrange(q)
  {
    KnownCongruent(p, q, PART_ORDER);
    KnownHaveNoExtras(p);
    KnownHaveNoExtras(q);
  }

  // ---------------------------------------------------------------- theorems

  lemma PermutedPiecesAgree(lib: Library, p: seq<string>, q: seq<string>)
    requires Readable(p) && Readable(q)
    requires multiset(Readings(p)) == multiset(Readings(q))
    requires OnlyKnown(Readings(p)) && OnlyKnown(Readings(q))
    ensures CanonicalOf(lib, p) == CanonicalOf(lib, q)
  {
    var x, y := Readings(p), Readings(q);
    ReadIff(p);
    ReadIff(q);
    if DistinctKeys(x) { DistinctByMultiset(x, y); }
    if DistinctKeys(y) { DistinctByMultiset(y, x); }
    if DistinctKeys(x) {
      SameMapByMultiset(x, y);
      FillAlike(x, y);
      if Fill(x).Ok? { ArrangeAlike(Fill(x).value, Fill(y).value); }
    }
  }

  /** Both bodies hold the same known parts: in any order, with keys in any case
      and blank pieces anywhere. */
  predicate SameParts(body: string, other: string) {
    var p, q := Split(body, ';'), Split(other, ';');
    && Readable(p) && Readable(q) && multiset(Readings(p)) == multiset(Readings(q))
    && OnlyKnown(Readings(p)) && OnlyKnown(Readings(q))
  }

  /** ORDER AND KEY CASE DO NOT MATTER: two rule texts with the same known parts
      get the same canonical text or the same error. */
  lemma OrderAndCaseDoNotMatter(lib: Library, raw: string, other: string)
    ensures Body(raw).Ok? && Body(other).Ok? && SameParts(Body(raw).value, Body(other).value) ==>
              Canonicalize(lib, raw) == Canonicalize(lib, other)
  {
    if Body(raw).Ok? && Body(other).Ok? && SameParts(Body(raw).value, Body(other).value) {
      PermutedPiecesAgree(lib, Split(Body(raw).value, ';'), Split(Body(other).value, ';'));
    }
  }

  lemma {:induction false} TrimLeftOfUpper(s: string)
    ensures TrimLeft(Upper(s)) == Upper(TrimLeft(s))
  {
    if s != [] {
      assert Upper(s)[1..] == Upper(s[1..]);
      TrimLeftOfUpper(s[1..]);
    }
  }

  lemma {:induction false} TrimRightOfUpper(s: string)
    ensures TrimRight(Upper(s)) == Upper(TrimRight(s))
  {
    if s != [] {
      assert Upper(s)[..|s| - 1] == Upper(s[..|s| - 1]);
      TrimRightOfUpper(s[..|s| - 1]);
    }
  }

  /** A piece reads the same whatever the case of its key. */
  lemma KeyCaseDoesNotMatter(key: string, other: string, value: string)
    requires Lacks(key, '=') && Lacks(other, '=') && Upper(key) == Upper(other)
    ensures ReadPart(key + ['='] + value) == ReadPart(other + ['='] + value)
  {
    IndexAfterPrefix(key, '=', value);
    IndexAfterPrefix(other, '=', value);
    var p, q := key + ['='] + value, other + ['='] + value;
    assert p[..|key|] == key && p[|key| + 1..] == value && q[..|other|] == other && q[|other| + 1..] == value;
    TrimLeftOfUpper(key);
    TrimLeftOfUpper(other);
    TrimRightOfUpper(TrimLeft(key));
    TrimRightOfUpper(TrimLeft(other));
  }
}
