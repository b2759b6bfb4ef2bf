/** Canonical rules: reading back what was printed, idempotence, and
    independence of part order and key case. */
module RRuleProperties {
  import opened Wrappers
  import opened Text
  import opened RRule

  // ------------------------------------------------------------- dictionaries

  lemma {:induction false} PutFacts(parts: seq<Part>, key: string, value: string, other: string, default: string)
    ensures var put := Put(parts, key, value);
            && HasKey(put, key) && Get(put, key, default) == value
            && (other != key ==>
                 && (HasKey(put, other) <==> HasKey(parts, other))
                 && Get(put, other, default) == Get(parts, other, default))
  {
    if parts == [] {
      assert Put(parts, key, value)[0].key == key;
    } else {
      var rest := parts[1..];
      PutFacts(rest, key, value, other, default);
      SplitKey(parts, other);
      SplitKey(Put(parts, key, value), key);
      SplitKey(Put(parts, key, value), other);
      assert Put(parts, key, value)[1..] == if parts[0].key == key then rest else Put(rest, key, value);
    }
  }

  lemma SplitKey(parts: seq<Part>, key: string)
    requires parts != []
    ensures HasKey(parts, key) <==> parts[0].key == key || HasKey(parts[1..], key)
  {
    if HasKey(parts[1..], key) {
      var i :| 0 <= i < |parts[1..]| && parts[1..][i].key == key;
      assert parts[i + 1].key == key;
    }
    if HasKey(parts, key) {
      var i :| 0 <= i < |parts| && parts[i].key == key;
      assert i > 0 ==> parts[1..][i - 1].key == key;
    }
  }

  lemma {:induction false} PutSame(parts: seq<Part>, key: string, value: string)
    requires HasKey(parts, key) && Get(parts, key, "") == value
    ensures Put(parts, key, value) == parts
  {
    SplitKey(parts, key);
    if parts[0].key != key { PutSame(parts[1..], key, value); }
  }

  lemma {:induction false} PutStaysDistinct(parts: seq<Part>, key: string, value: string)
    requires DistinctKeys(parts)
    ensures DistinctKeys(Put(parts, key, value))
  {
    if parts != [] && parts[0].key != key {
      var rest := parts[1..];
      PutStaysDistinct(rest, key, value);
      PutFacts(rest, key, value, parts[0].key, "");
      assert !HasKey(rest, parts[0].key);
      var put := Put(rest, key, value);
      forall j | 0 <= j < |put| ensures put[j].key != parts[0].key { assert HasKey(put, put[j].key); }
    }
  }

  lemma {:induction false} GetIsAValue(parts: seq<Part>, key: string, default: string)
    requires HasKey(parts, key)
    ensures Part(key, Get(parts, key, default)) in parts
  {
    SplitKey(parts, key);
    if parts[0].key != key {
      GetIsAValue(parts[1..], key, default);
      assert parts == [parts[0]] + parts[1..];
    }
  }

  lemma {:induction false} GetDefault(parts: seq<Part>, key: string, default: string)
    requires !HasKey(parts, key)
    ensures Get(parts, key, default) == default
  {
    if parts != [] {
      SplitKey(parts, key);
      GetDefault(parts[1..], key, default);
    }
  }

  lemma {:induction false} GetOf(parts: seq<Part>, i: nat, default: string)
    requires i < |parts| && DistinctKeys(parts)
    ensures HasKey(parts, parts[i].key) && Get(parts, parts[i].key, default) == parts[i].value
  {
    if i > 0 {
      assert parts[1..][i - 1] == parts[i];
      GetOf(parts[1..], i - 1, default);
    }
  }

  lemma {:induction false} GetAppend(a: seq<Part>, b: seq<Part>, key: string, default: string)
    ensures HasKey(a + b, key) <==> HasKey(a, key) || HasKey(b, key)
    ensures Get(a + b, key, default) == if HasKey(a, key) then Get(a, key, default) else Get(b, key, default)
  {
    if a == [] {
      assert a + b == b;
    } else {
      assert (a + b)[1..] == a[1..] + b;
      SplitKey(a, key);
      SplitKey(a + b, key);
      GetAppend(a[1..], b, key, default);
    }
  }

  // ---------------------------------------------------------- arranged parts

  /** Same keys with the same values, whatever the order. */
  ghost predicate SameMap(p: seq<Part>, q: seq<Part>) {
    forall key :: (HasKey(p, key) <==> HasKey(q, key)) && Get(p, key, "") == Get(q, key, "")
  }

  lemma {:induction false} KnownCongruent(p: seq<Part>, q: seq<Part>, order: seq<string>)
    requires forall i :: 0 <= i < |order| ==>
               (HasKey(p, order[i]) <==> HasKey(q, order[i])) && Get(p, order[i], "") == Get(q, order[i], "")
    ensures Known(p, order) == Known(q, order)
  {
    if order != [] {
      assert forall i :: 0 <= i < |order[1..]| ==> order[1..][i] == order[i + 1];
      KnownCongruent(p, q, order[1..]);
    }
  }

  predicate Distinct(order: seq<string>) { forall i, j :: 0 <= i < j < |order| ==> order[i] != order[j] }

  lemma {:induction false} KnownFacts(parts: seq<Part>, order: seq<string>)
    requires Distinct(order)
    ensures DistinctKeys(Known(parts, order))
    ensures forall i :: 0 <= i < |Known(parts, order)| ==>
              Known(parts, order)[i].key in order && Known(parts, order)[i] in parts
  {
    if order != [] {
      KnownFacts(parts, order[1..]);
      if HasKey(parts, order[0]) { GetIsAValue(parts, order[0], ""); }
    }
  }

  lemma {:induction false} KnownLookup(parts: seq<Part>, order: seq<string>, key: string)
    requires Distinct(order)
    ensures HasKey(Known(parts, order), key) <==> key in order && HasKey(parts, key)
    ensures HasKey(Known(parts, order), key) ==> Get(Known(parts, order), key, "") == Get(parts, key, "")
  {
    if order != [] {
      KnownFacts(parts, order);
      KnownLookup(parts, order[1..], key);
      var rest := Known(parts, order[1..]);
      assert order == [order[0]] + order[1..];
      if HasKey(parts, order[0]) {
        var head := Part(order[0], Get(parts, order[0], ""));
        assert Known(parts, order)[1..] == rest;
        SplitKey(Known(parts, order), key);
        KnownFacts(parts, order[1..]);
        assert key == order[0] ==> key !in order[1..];
      } else {
        assert Known(parts, order) == rest;
      }
    }
  }

  lemma {:induction false} ExtrasFacts(parts: seq<Part>)
    requires DistinctKeys(parts)
    ensures DistinctKeys(Extras(parts))
    ensures forall i :: 0 <= i < |Extras(parts)| ==> Extras(parts)[i].key !in PART_ORDER && Extras(parts)[i] in parts
  {
    if parts != [] {
      ExtrasFacts(parts[1..]);
      assert parts == [parts[0]] + parts[1..];
      var rest := Extras(parts[1..]);
      forall i | 0 <= i < |rest| ensures rest[i].key != parts[0].key { assert rest[i] in parts[1..]; }
    }
  }

  lemma {:induction false} UnknownAreExtras(parts: seq<Part>)
    requires forall i :: 0 <= i < |parts| ==> parts[i].key !in PART_ORDER
    ensures Extras(parts) == parts
  {
    if parts != [] { UnknownAreExtras(parts[1..]); }
  }

  lemma {:induction false} ExtrasLookup(parts: seq<Part>, key: string)
    ensures HasKey(Extras(parts), key) <==> key !in PART_ORDER && HasKey(parts, key)
    ensures HasKey(Extras(parts), key) ==> Get(Extras(parts), key, "") == Get(parts, key, "")
  {
    if parts != [] {
      ExtrasLookup(parts[1..], key);
      SplitKey(parts, key);
      if parts[0].key !in PART_ORDER {
        assert Extras(parts)[1..] == Extras(parts[1..]);
        SplitKey(Extras(parts), key);
      } else {
        assert Extras(parts) == Extras(parts[1..]);
      }
    }
  }

  lemma {:induction false} ExtrasAppend(a: seq<Part>, b: seq<Part>)
    requires forall i :: 0 <= i < |a| ==> a[i].key in PART_ORDER
    ensures Extras(a + b) == Extras(b)
  {
    if a == [] {
      assert a + b == b;
    } else {
      assert (a + b)[1..] == a[1..] + b;
      ExtrasAppend(a[1..], b);
    }
  }

  lemma OrderIsDistinct()
    ensures Distinct(PART_ORDER)
  {}

  lemma ArrangeFacts(parts: seq<Part>)
    requires DistinctKeys(parts)
    ensures SameMap(Arrange(parts), parts) && DistinctKeys(Arrange(parts))
    ensures forall i :: 0 <= i < |Arrange(parts)| ==> Arrange(parts)[i] in parts
  {
    OrderIsDistinct();
    var known, extras := Known(parts, PART_ORDER), Extras(parts);
    KnownFacts(parts, PART_ORDER);
    ExtrasFacts(parts);
    forall key
      ensures HasKey(known + extras, key) <==> HasKey(parts, key)
      ensures Get(known + extras, key, "") == Get(parts, key, "")
    {
      KnownLookup(parts, PART_ORDER, key);
      ExtrasLookup(parts, key);
      GetAppend(known, extras, key, "");
      if !HasKey(parts, key) {
        GetDefault(parts, key, "");
        GetDefault(extras, key, "");
      }
    }
  }

  /** Arranged parts are arranged already. */
  lemma ArrangeTwice(parts: seq<Part>)
    requires DistinctKeys(parts)
    ensures Arrange(Arrange(parts)) == Arrange(parts)
  {
    ArrangeFacts(parts);
    OrderIsDistinct();
    KnownFacts(parts, PART_ORDER);
    ExtrasFacts(parts);
    KnownCongruent(Arrange(parts), parts, PART_ORDER);
    ExtrasAppend(Known(parts, PART_ORDER), Extras(parts));
    UnknownAreExtras(Extras(parts));
  }

  // -------------------------------------------------------------- clean parts

  ghost predicate CleanText(s: string) {
    s != "" && Stripped(s) && Lacks(s, ';') && OneLine(s) && !MentionsDtstart(s)
  }

  /** What survives printing and reading back. */
  ghost predicate Clean(p: Part) {
    CleanText(p.key) && Upper(p.key) == p.key && Lacks(p.key, '=') && CleanText(p.value)
  }

  ghost predicate AllClean(parts: seq<Part>) {
    DistinctKeys(parts) && forall i :: 0 <= i < |parts| ==> Clean(parts[i])
  }

  lemma UpperKeeps(s: string, c: char)
    requires !('A' <= c <= 'Z') && !('a' <= c <= 'z')
    ensures Lacks(s, c) ==> Lacks(Upper(s), c)
    ensures Upper(Upper(s)) == Upper(s) && (Stripped(s) ==> Stripped(Upper(s)))
  {}

  lemma PieceFacts(piece: string, whole: string)
    requires Within(piece, whole) && OneLine(whole) && !MentionsDtstart(whole)
    ensures OneLine(piece) && !MentionsDtstart(piece)
  {
    WithinLacks(piece, whole, '\n');
    WithinLacks(piece, whole, '\r');
    UpperWithin(piece, whole);
    if MentionsDtstart(piece) { WithinTrans("DTSTART", Upper(piece), Upper(whole)); }
  }

  /** A stripped slice of a text stays within it. */
  lemma SliceFacts(text: string, lo: nat, hi: nat, whole: string)
    requires lo <= hi <= |text| && Within(text, whole)
    ensures Within(Strip(text[lo..hi]), whole) && Within(Strip(text[lo..hi]), text[lo..hi])
    ensures Stripped(Strip(text[lo..hi]))
  {
    var slice := text[lo..hi];
    StripFacts(slice);
    WithinAt(slice, text, lo);
    WithinTrans(slice, text, whole);
    WithinTrans(Strip(slice), slice, whole);
  }

  /** A stripped slice of a clean line is clean unless it is empty. */
  lemma SliceIsClean(piece: string, lo: nat, hi: nat, body: string)
    requires lo <= hi <= |piece| && Within(piece, body) && OneLine(body) && !MentionsDtstart(body) && Lacks(piece, ';')
    ensures Strip(piece[lo..hi]) != "" ==> CleanText(Strip(piece[lo..hi]))
  {
    var slice := piece[lo..hi];
    SliceFacts(piece, lo, hi, body);
    PieceFacts(Strip(slice), body);
    WithinLacks(Strip(slice), slice, ';');
  }

  lemma UpperIsClean(key: string)
    requires CleanText(key)
    ensures CleanText(Upper(key)) && Upper(Upper(key)) == Upper(key)
  {
    UpperKeeps(key, ';');
    UpperKeeps(key, '\n');
    UpperKeeps(key, '\r');
  }

  lemma ReadPartIsClean(piece: string, body: string)
    requires Within(piece, body) && OneLine(body) && !MentionsDtstart(body) && Lacks(piece, ';')
    ensures ReadPart(piece).Ok? ==> Clean(ReadPart(piece).value)
  {
    var i := IndexOf(piece, '=');
    if ReadPart(piece).Ok? {
      var key := Strip(piece[..i]);
      assert piece[..i] == piece[0..i] && piece[i + 1..] == piece[i + 1..|piece|];
      SliceIsClean(piece, 0, i, body);
      SliceIsClean(piece, i + 1, |piece|, body);
      UpperIsClean(key);
      StripFacts(piece[..i]);
      WithinLacks(key, piece[..i], '=');
      UpperKeeps(key, '=');
    }
  }

  lemma PrintIsStripped(p: Part)
    requires p.key != "" && Stripped(p.key) && p.value != "" && Stripped(p.value)
    ensures Strip(Print(p)) == Print(p) != ""
  {
    var text := Print(p);
    assert text[0] == p.key[0] && text[|text| - 1] == p.value[|p.value| - 1];
    StripIdempotent(text);
  }

  lemma ReadBack(p: Part)
    requires p.key != "" && Stripped(p.key) && Upper(p.key) == p.key && Lacks(p.key, '=')
    requires p.value != "" && Stripped(p.value)
    ensures ReadPart(Print(p)) == Ok(p)
  {
    var text := Print(p);
    IndexAfterPrefix(p.key, '=', p.value);
    assert text[..|p.key|] == p.key && text[|p.key| + 1..] == p.value;
    StripIdempotent(p.key);
    StripIdempotent(p.value);
  }

  lemma AppendIsClean(parts: seq<Part>, p: Part)
    requires AllClean(parts) && Clean(p) && !HasKey(parts, p.key)
    ensures AllClean(parts + [p])
  {}

  lemma ReadPieceIsClean(parsed: seq<Part>, raw: string, body: string)
    requires OneLine(body) && !MentionsDtstart(body) && Lacks(raw, ';') && Within(raw, body) && AllClean(parsed)
    ensures ReadPiece(parsed, raw).Ok? ==> AllClean(ReadPiece(parsed, raw).value)
  {
    var piece := Strip(raw);
    if ReadPiece(parsed, raw).Ok? && piece != "" {
      StripFacts(raw);
      WithinTrans(piece, raw, body);
      WithinLacks(piece, raw, ';');
      ReadPartIsClean(piece, body);
      AppendIsClean(parsed, ReadPart(piece).value);
    }
  }

  lemma {:induction false} ReadPiecesAreClean(pieces: seq<string>, body: string)
    requires OneLine(body) && !MentionsDtstart(body)
    requires forall i :: 0 <= i < |pieces| ==> Lacks(pieces[i], ';') && Within(pieces[i], body)
    ensures ReadPieces(pieces).Ok? ==> AllClean(ReadPieces(pieces).value)
  {
    if pieces != [] {
      var n := |pieces| - 1;
      ReadPiecesAreClean(pieces[..n], body);
      var parsed := ReadPieces(pieces[..n]);
      if parsed.Ok? { ReadPieceIsClean(parsed.value, pieces[n], body); }
    }
  }

  /** The printed part reads back as itself. */
  predicate ReadsBack(p: Part) { Strip(Print(p)) == Print(p) != "" && ReadPart(Print(p)) == Ok(p) }

  lemma CleanReadsBack(p: Part)
    requires Clean(p)
    ensures ReadsBack(p)
  {
    PrintIsStripped(p);
    ReadBack(p);
  }

  lemma ReadPrintedPiece(parts: seq<Part>, p: Part)
    requires ReadsBack(p) && DistinctKeys(parts + [p])
    ensures ReadPiece(parts, Print(p)) == Ok(parts + [p])
  {
    forall i | 0 <= i < |parts| ensures parts[i].key != p.key {
      assert (parts + [p])[i].key != (parts + [p])[|parts|].key;
    }
  }

  lemma ReadOneMore(pieces: seq<string>, piece: string)
    requires ReadPieces(pieces).Ok?
    ensures ReadPieces(pieces + [piece]) == ReadPiece(ReadPieces(pieces).value, piece)
  {
    assert (pieces + [piece])[..|pieces|] == pieces;
  }

  lemma {:induction false} ReadAllPrinted(parts: seq<Part>)
    requires DistinctKeys(parts) && forall i :: 0 <= i < |parts| ==> ReadsBack(parts[i])
    ensures ReadPieces(PrintAll(parts)) == Ok(parts)
  {
    if parts != [] {
      var n := |parts| - 1;
      assert parts == parts[..n] + [parts[n]];
      ReadAllPrinted(parts[..n]);
      ReadPrintedPiece(parts[..n], parts[n]);
      ReadOneMore(PrintAll(parts[..n]), Print(parts[n]));
      assert PrintAll(parts) == PrintAll(parts[..n]) + [Print(parts[n])];
    }
  }

  lemma ReadPrinted(parts: seq<Part>)
    requires AllClean(parts)
    ensures ReadPieces(PrintAll(parts)) == Ok(parts)
  {
    forall i | 0 <= i < |parts| ensures ReadsBack(parts[i]) { CleanReadsBack(parts[i]); }
    ReadAllPrinted(parts);
  }

  // ------------------------------------------------------------ filled parts

  /** What filling leaves: an allowed frequency, a positive interval, a bounded
      count if any, and a second. */
  ghost predicate Normal(parts: seq<Part>) {
    && HasKey(parts, "FREQ") && AllowedFreq(Get(parts, "FREQ", ""))
    && HasKey(parts, "INTERVAL") && (exists n: nat :: n >= 1 && Get(parts, "INTERVAL", "") == Decimal(n))
    && (HasKey(parts, "COUNT") ==> exists n: nat :: 1 <= n <= MAX_COUNT && Get(parts, "COUNT", "") == Decimal(n))
    && HasKey(parts, "BYSECOND")
  }

  lemma {:induction false} DefaultsOnlyWhenAbsent(parts: seq<Part>, key: string, default: string)
    ensures Get(parts, key, default) == if HasKey(parts, key) then Get(parts, key, "") else default
  {
    if parts != [] {
      SplitKey(parts, key);
      DefaultsOnlyWhenAbsent(parts[1..], key, default);
    }
  }

  lemma IntervalFilled(parts: seq<Part>)
    requires FillInterval(parts).Ok?
    ensures var filled := FillInterval(parts).value;
            && HasKey(filled, "INTERVAL") && (exists n: nat :: n >= 1 && Get(filled, "INTERVAL", "") == Decimal(n))
            && Get(filled, "FREQ", "") == Get(parts, "FREQ", "") && (HasKey(filled, "FREQ") <==> HasKey(parts, "FREQ"))
  {
    PutFacts(parts, "INTERVAL", Decimal(ParseInt(Get(parts, "INTERVAL", "1")).value), "FREQ", "");
  }

  lemma CountFilled(parts: seq<Part>, key: string)
    requires FillCount(parts).Ok? && key != "COUNT"
    ensures var filled := FillCount(parts).value;
            && (HasKey(filled, "COUNT") ==>
                  exists n: nat :: 1 <= n <= MAX_COUNT && Get(filled, "COUNT", "") == Decimal(n))
            && Get(filled, key, "") == Get(parts, key, "") && (HasKey(filled, key) <==> HasKey(parts, key))
  {
    if HasKey(parts, "COUNT") { PutFacts(parts, "COUNT", Decimal(ParseInt(Get(parts, "COUNT", "")).value), key, ""); }
  }

  lemma SecondFilled(parts: seq<Part>, key: string)
    requires key != "BYSECOND"
    ensures var filled := FillSecond(parts);
            && HasKey(filled, "BYSECOND")
            && Get(filled, key, "") == Get(parts, key, "") && (HasKey(filled, key) <==> HasKey(parts, key))
  {
    PutFacts(parts, "BYSECOND", "0", key, "");
  }

  lemma FilledIsNormal(parts: seq<Part>)
    requires Fill(parts).Ok?
    ensures Normal(Fill(parts).value)
  {
    var freq := Upper(Get(parts, "FREQ", ""));
    var p1 := Put(parts, "FREQ", freq);
    PutFacts(parts, "FREQ", freq, "", "");
    IntervalFilled(p1);
    var p2 := FillInterval(p1).value;
    CountFilled(p2, "FREQ");
    CountFilled(p2, "INTERVAL");
    var p3 := FillCount(p2).value;
    SecondFilled(p3, "FREQ");
    SecondFilled(p3, "INTERVAL");
    SecondFilled(p3, "COUNT");
  }

  lemma NormalIsFixpoint(parts: seq<Part>)
    requires Normal(parts)
    ensures Fill(parts) == Ok(parts)
  {
    var freq := Get(parts, "FREQ", "");
    assert Upper(freq) == freq;
    PutSame(parts, "FREQ", freq);
    var n: nat :| n >= 1 && Get(parts, "INTERVAL", "") == Decimal(n);
    IntOfDecimal(n);
    DefaultsOnlyWhenAbsent(parts, "INTERVAL", "1");
    PutSame(parts, "INTERVAL", Decimal(n));
    if HasKey(parts, "COUNT") {
      var m: nat :| 1 <= m <= MAX_COUNT && Get(parts, "COUNT", "") == Decimal(m);
      IntOfDecimal(m);
      PutSame(parts, "COUNT", Decimal(m));
    }
  }

  lemma NormalOfSameMap(p: seq<Part>, q: seq<Part>)
    requires Normal(p) && SameMap(p, q)
    ensures Normal(q)
  {}

  /** Keys and values that filling writes are clean. */
  lemma {:induction false} PutStaysClean(parts: seq<Part>, key: string, value: string)
    requires AllClean(parts) && Clean(Part(key, value))
    ensures AllClean(Put(parts, key, value))
  {
    PutStaysDistinct(parts, key, value);
    PutIsClean(parts, key, value);
  }

  lemma {:induction false} PutIsClean(parts: seq<Part>, key: string, value: string)
    requires (forall i :: 0 <= i < |parts| ==> Clean(parts[i])) && Clean(Part(key, value))
    ensures forall i :: 0 <= i < |Put(parts, key, value)| ==> Clean(Put(parts, key, value)[i])
  {
    if parts != [] && parts[0].key != key { PutIsClean(parts[1..], key, value); }
  }

  /** A text whose capitals lack one letter of DTSTART does not mention it. */
  lemma MissingLetter(s: string, n: nat)
    requires n < 7 && Lacks(Upper(s), "DTSTART"[n])
    ensures !MentionsDtstart(s)
  {
    if MentionsDtstart(s) {
      WithinLacks("DTSTART", Upper(s), "DTSTART"[n]);
    }
  }

  predicate Capitals(s: string) { s != "" && forall i :: 0 <= i < |s| ==> 'A' <= s[i] <= 'Z' }

  lemma CapitalsAreClean(s: string, n: nat)
    requires Capitals(s) && n < 7 && Lacks(s, "DTSTART"[n])
    ensures CleanText(s) && Upper(s) == s && Lacks(s, '=')
  {
    MissingLetter(s, n);
  }

  lemma FreqIsCapital(freq: string)
    requires AllowedFreq(freq)
    ensures Capitals(freq) && Lacks(freq, 'S')
  {}

  lemma FreqIsClean(freq: string)
    requires AllowedFreq(freq)
    ensures Clean(Part("FREQ", freq))
  {
    CapitalsAreClean("FREQ", 0);
    FreqIsCapital(freq);
    assert "DTSTART"[2] == 'S';
    CapitalsAreClean(freq, 2);
  }

  lemma DigitsAreClean(n: nat)
    ensures CleanText(Decimal(n))
  {
    IntOfDecimal(n);
    MissingLetter(Decimal(n), 0);
  }

  lemma NumberIsClean(key: string, n: nat)
    requires key in {"INTERVAL", "COUNT", "BYSECOND"}
    ensures Clean(Part(key, Decimal(n)))
  {
    DigitsAreClean(n);
    if key == "BYSECOND" {
      assert "DTSTART"[4] == 'A';
      CapitalsAreClean("BYSECOND", 4);
    } else if key == "COUNT" {
      CapitalsAreClean("COUNT", 0);
    } else {
      CapitalsAreClean("INTERVAL", 0);
    }
  }

  lemma FilledIsClean(parts: seq<Part>)
    requires AllClean(parts) && Fill(parts).Ok?
    ensures AllClean(Fill(parts).value)
  {
    var freq := Upper(Get(parts, "FREQ", ""));
    FreqIsClean(freq);
    var p1 := Put(parts, "FREQ", freq);
    PutStaysClean(parts, "FREQ", freq);
    var interval := ParseInt(Get(p1, "INTERVAL", "1")).value;
    NumberIsClean("INTERVAL", interval);
    PutStaysClean(p1, "INTERVAL", Decimal(interval));
    var p2 := FillInterval(p1).value;
    if HasKey(p2, "COUNT") {
      var count := ParseInt(Get(p2, "COUNT", "")).value;
      NumberIsClean("COUNT", count);
      PutStaysClean(p2, "COUNT", Decimal(count));
    }
    NumberIsClean("BYSECOND", 0);
    assert Decimal(0) == "0";
    PutStaysClean(FillCount(p2).value, "BYSECOND", "0");
  }

  // ---------------------------------------------------------- canonical texts

  lemma {:induction false} JoinLacks(texts: seq<string>, sep: char, c: char)
    requires sep != c && forall i :: 0 <= i < |texts| ==> Lacks(texts[i], c)
    ensures Lacks(Join(texts, sep), c)
  {
    if |texts| > 1 { JoinLacks(texts[1..], sep, c); }
  }

  lemma {:induction false} JoinEnds(texts: seq<string>, sep: char)
    requires texts != [] && forall i :: 0 <= i < |texts| ==> texts[i] != "" && Stripped(texts[i])
    ensures var s := Join(texts, sep); s != "" && s[0] == texts[0][0] && !IsSpace(s[0]) && !IsSpace(s[|s| - 1])
  {
    if |texts| > 1 { JoinEnds(texts[1..], sep); }
  }

  function UpperAll(texts: seq<string>): (u: seq<string>)
    ensures |u| == |texts| && forall i :: 0 <= i < |texts| ==> u[i] == Upper(texts[i])
  {
    seq(|texts|, i requires 0 <= i < |texts| => Upper(texts[i]))
  }

  lemma {:induction false} UpperJoin(texts: seq<string>)
    ensures Upper(Join(texts, ';')) == Join(UpperAll(texts), ';')
  {
    if |texts| > 1 {
      UpperJoin(texts[1..]);
      assert UpperAll(texts)[1..] == UpperAll(texts[1..]);
      assert Upper(Join(texts, ';')) == Upper(texts[0]) + [';'] + Upper(Join(texts[1..], ';'));
    }
  }

  lemma PrintedFacts(p: Part)
    requires Clean(p)
    ensures CleanText(Print(p))
  {
    assert Upper(Print(p)) == Upper(p.key) + ['='] + Upper(p.value);
    if MentionsDtstart(Print(p)) { WithinEither("DTSTART", Upper(p.key), '=', Upper(p.value)); }
  }

  lemma RenderedHasNoDtstart(parts: seq<Part>)
    requires AllClean(parts)
    ensures !MentionsDtstart(Render(parts))
  {
    var texts := PrintAll(parts);
    UpperJoin(texts);
    if MentionsDtstart(Render(parts)) {
      JoinWithin("DTSTART", UpperAll(texts), ';');
      var k :| 0 <= k < |texts| && Within("DTSTART", UpperAll(texts)[k]);
      PrintedFacts(parts[k]);
      assert false;
    }
  }

  /** A rendered rule is its own body and splits into its printed parts. */
  lemma RenderedIsABody(parts: seq<Part>)
    requires AllClean(parts) && parts != [] && parts[0].key == "FREQ"
    ensures Body(Render(parts)) == Ok(Render(parts)) && Split(Render(parts), ';') == PrintAll(parts)
  {
    var texts := PrintAll(parts);
    var s := Render(parts);
    forall i | 0 <= i < |texts| ensures CleanText(texts[i]) {
      PrintedFacts(parts[i]);
    }
    JoinEnds(texts, ';');
    assert texts[0][0] == "FREQ"[0];
    StripIdempotent(s);
    assert Upper(s)[0] == 'F' != PREFIX[0];
    JoinLacks(texts, ';', '\n');
    JoinLacks(texts, ';', '\r');
    RenderedHasNoDtstart(parts);
    SplitJoin(texts, ';');
  }

  ghost predicate Parses(raw: string) {
    && Body(raw).Ok? && ReadPieces(Split(Body(raw).value, ';')).Ok?
    && Fill(ReadPieces(Split(Body(raw).value, ';')).value).Ok?
  }

  /** The parts of an accepted rule with the defaults filled in. */
  ghost function FilledParts(raw: string): seq<Part>
    requires Parses(raw)
  {
    Fill(ReadPieces(Split(Body(raw).value, ';')).value).value
  }

  ghost function CanonicalParts(raw: string): seq<Part>
    requires Parses(raw)
  {
    Arrange(FilledParts(raw))
  }

  /** The text is a whole rule body that reads as these parts, in normal form. */
  ghost predicate ReadsAs(text: string, parts: seq<Part>) {
    && Body(text) == Ok(text) && ReadPieces(Split(text, ';')).Ok?
    && SameMap(ReadPieces(Split(text, ';')).value, parts) && Normal(ReadPieces(Split(text, ';')).value)
  }

  lemma CanonicalPartsFacts(raw: string)
    requires Parses(raw)
    ensures var c := CanonicalParts(raw);
            AllClean(c) && Normal(c) && Arrange(c) == c && c != [] && c[0].key == "FREQ"
    ensures SameMap(CanonicalParts(raw), FilledParts(raw))
  {
    var body := Body(raw).value;
    SplitWithin(body, ';');
    ReadPiecesAreClean(Split(body, ';'), body);
    var read := ReadPieces(Split(body, ';')).value;
    FilledIsNormal(read);
    FilledIsClean(read);
    var filled := Fill(read).value;
    ArrangeFacts(filled);
    ArrangeTwice(filled);
    NormalOfSameMap(filled, Arrange(filled));
    assert Known(filled, PART_ORDER)[0].key == PART_ORDER[0] == "FREQ";
  }

  /** THE CANONICAL FORM READS BACK: its parts are the given ones with the
      defaults filled in, and filling them again changes nothing. */
  lemma CanonicalReadsBack(lib: Library, raw: string)
    ensures Canonicalize(lib, raw).Ok? ==> Parses(raw) && ReadsAs(Canonicalize(lib, raw).value, FilledParts(raw))
  {
    if Canonicalize(lib, raw).Ok? {
      CanonicalPartsFacts(raw);
      var parts := CanonicalParts(raw);
      RenderedIsABody(parts);
      ReadPrinted(parts);
    }
  }

  /** CANONICALIZATION IS IDEMPOTENT, so the rule read again when an automation
      fires is the one that was stored. */
  lemma CanonicalIsFixpoint(lib: Library, raw: string)
    ensures Canonicalize(lib, raw).Ok? ==> Canonicalize(lib, Canonicalize(lib, raw).value) == Canonicalize(lib, raw)
  {
    if Canonicalize(lib, raw).Ok? {
      CanonicalPartsFacts(raw);
      var parts := CanonicalParts(raw);
      RenderedIsABody(parts);
      ReadPrinted(parts);
      NormalIsFixpoint(parts);
    }
  }

  ghost predicate Ranged(parts: seq<Part>) {
    && Get(parts, "FREQ", "") in {"YEARLY", "MONTHLY", "WEEKLY", "DAILY", "HOURLY"} && HasKey(parts, "BYSECOND")
    && ParseInt(Get(parts, "INTERVAL", "")).Some? && ParseInt(Get(parts, "INTERVAL", "")).value >= 1
    && (HasKey(parts, "COUNT") ==>
         ParseInt(Get(parts, "COUNT", "")).Some? && 1 <= ParseInt(Get(parts, "COUNT", "")).value <= 730)
  }

  lemma NormalIsRanged(parts: seq<Part>)
    requires Normal(parts)
    ensures Ranged(parts)
  {
    var n: nat :| n >= 1 && Get(parts, "INTERVAL", "") == Decimal(n);
    IntOfDecimal(n);
    if HasKey(parts, "COUNT") {
      var m: nat :| 1 <= m <= MAX_COUNT && Get(parts, "COUNT", "") == Decimal(m);
      IntOfDecimal(m);
    }
  }

  /** The ranges of a stored rule, as its own text reads. */
  lemma CanonicalRanges(lib: Library, raw: string)
    ensures var r := Canonicalize(lib, raw);
            r.Ok? ==> ReadPieces(Split(r.value, ';')).Ok? && Ranged(ReadPieces(Split(r.value, ';')).value)
  {
    if Canonicalize(lib, raw).Ok? {
      CanonicalReadsBack(lib, raw);
      NormalIsRanged(ReadPieces(Split(Canonicalize(lib, raw).value, ';')).value);
    }
  }
}
