/** A rule from its raw text to its canonical one: which texts are refused and why,
    and what the stored parts are, each against its own description. */
module RRuleFacts {
  import opened Wrappers
  import opened Text
  import opened RRule
  import opened RRuleProperties
  import opened RRuleOrder

  // ---------------------------------------------------------------- the body

  /** The text without surrounding whitespace and without "RRULE:" in any case. */
  ghost predicate IsBodyOf(body: string, raw: string) {
    var s := Strip(raw);
    if |s| >= 6 && Upper(s[..6]) == "RRULE:" then body == Strip(s[6..]) else body == s
  }

  /** THE BODY OF A RULE, or why there is none. */
  lemma BodyExactly(raw: string) returns (body: string)
    ensures IsBodyOf(body, raw)
    ensures Body(raw) == Err(EmptyRule) <==> Strip(raw) == ""
    ensures Strip(raw) != "" ==>
              && (Body(raw) == Err(MultiLine) <==> '\n' in body || '\r' in body)
              && ('\n' !in body && '\r' !in body ==>
                   Body(raw) == if Within("DTSTART", Upper(body)) then Err(HasDtstart) else Ok(body))
  {
    body := Unprefixed(raw);
    var s := Strip(raw);
    if |s| >= 6 { assert Upper(s)[..6] == Upper(s[..6]); }
  }

  // ----------------------------------------------------------------- reading

  /** A part is a key, the first equals sign and a value, both stripped and not blank. */
  lemma PartExactly(key: string, value: string)
    requires Lacks(key, '=')
    ensures ReadPart(key) == Err(InvalidPart)
    ensures ReadPart(key + "=" + value) ==
              if Strip(key) == "" || Strip(value) == "" then Err(InvalidPart)
              else Ok(Part(Upper(Strip(key)), Strip(value)))
  {
    IndexAfterPrefix(key, '=', value);
    var piece := key + ['='] + value;
    assert piece[..|key|] == key && piece[|key| + 1..] == value;
  }

  /** A piece that cannot be read after those before it, and why. */
  ghost predicate StopsAt(before: seq<string>, piece: string, error: Error) {
    && Readable(before) && DistinctKeys(Readings(before)) && Strip(piece) != ""
    && var part := ReadPart(Strip(piece));
       if part.Err? then error == InvalidPart
       else error == DuplicatePart && HasKey(Readings(before), part.value.key)
  }

  lemma OneMoreReadable(pieces: seq<string>, piece: string)
    requires Readable(pieces) && (Strip(piece) == "" || ReadPart(Strip(piece)).Ok?)
    ensures Readable(pieces + [piece])
  {}

  lemma {:induction false} ReadsReadable(pieces: seq<string>)
    requires ReadPieces(pieces).Ok?
    ensures Readable(pieces)
  {
    if pieces != [] {
      var n := |pieces| - 1;
      ReadsReadable(pieces[..n]);
      OneMoreReadable(pieces[..n], pieces[n]);
      assert pieces == pieces[..n] + [pieces[n]];
    }
  }

  lemma StopsAtLast(pieces: seq<string>)
    requires pieces != [] && ReadPieces(pieces[..|pieces| - 1]).Ok? && ReadPieces(pieces).Err?
    ensures StopsAt(pieces[..|pieces| - 1], pieces[|pieces| - 1], ReadPieces(pieces).error)
  {
    ReadsReadable(pieces[..|pieces| - 1]);
    ReadIff(pieces[..|pieces| - 1]);
  }

  /** READING takes every nonblank piece under a key of its own, or names the first
      piece it cannot. */
  lemma {:induction false} ReadExactly(pieces: seq<string>) returns (n: nat)
    ensures var r := ReadPieces(pieces);
            if r.Ok? then Readable(pieces) && DistinctKeys(r.value) && r.value == Readings(pieces)
            else n < |pieces| && StopsAt(pieces[..n], pieces[n], r.error)
  {
    n := 0;
    if ReadPieces(pieces).Ok? {
      ReadsReadable(pieces);
      ReadIff(pieces);
    } else {
      var last := |pieces| - 1;
      if ReadPieces(pieces[..last]).Ok? {
        StopsAtLast(pieces);
        n := last;
      } else {
        n := ReadExactly(pieces[..last]);
        assert pieces[..last][..n] == pieces[..n];
      }
    }
  }

  // ----------------------------------------------------------------- filling

  predicate Repeats(freq: string) {
    || freq == "YEARLY" || freq == "MONTHLY" || freq == "WEEKLY" || freq == "DAILY" || freq == "HOURLY"
  }

  /** The number a numeral stands for, at least one, or zero for anything else. */
  ghost function Positive(numeral: string): (n: nat) {
    var n := ParseInt(numeral);
    if n.Some? && n.value >= 1 then n.value else 0
  }

  /** The parts read, with FREQ in capitals, INTERVAL (1 if absent) and COUNT as plain
      decimals and BYSECOND 0 if absent; every other part as it was. */
  ghost predicate FilledFrom(read: seq<Part>, filled: seq<Part>) {
    && HasKey(filled, "FREQ") && Get(filled, "FREQ", "") == Upper(Get(read, "FREQ", ""))
    && HasKey(filled, "INTERVAL") && Get(filled, "INTERVAL", "") == Decimal(Positive(Get(read, "INTERVAL", "1")))
    && (HasKey(filled, "COUNT") <==> HasKey(read, "COUNT"))
    && (HasKey(read, "COUNT") ==> Get(filled, "COUNT", "") == Decimal(Positive(Get(read, "COUNT", ""))))
    && HasKey(filled, "BYSECOND") && Get(filled, "BYSECOND", "") == Get(read, "BYSECOND", "0")
    && forall key :: key !in {"FREQ", "INTERVAL", "COUNT", "BYSECOND"} ==>
         (HasKey(filled, key) <==> HasKey(read, key)) && Get(filled, key, "") == Get(read, key, "")
  }

  /** A frequency of the five, a positive interval, and a count, if any, up to 730. */
  ghost predicate Accepts(read: seq<Part>) {
    && Repeats(Upper(Get(read, "FREQ", ""))) && Positive(Get(read, "INTERVAL", "1")) > 0
    && (HasKey(read, "COUNT") ==> 1 <= Positive(Get(read, "COUNT", "")) <= 730)
  }

  ghost function Refusal(read: seq<Part>): Error {
    if !Repeats(Upper(Get(read, "FREQ", ""))) then BadFreq
    else if Positive(Get(read, "INTERVAL", "1")) == 0 then BadInterval
    else BadCount
  }

  lemma SecondExactly(parts: seq<Part>, key: string)
    ensures var put := FillSecond(parts);
            && HasKey(put, "BYSECOND") && Get(put, "BYSECOND", "") == Get(parts, "BYSECOND", "0")
            && (key != "BYSECOND" ==>
                 (HasKey(put, key) <==> HasKey(parts, key)) && Get(put, key, "") == Get(parts, key, ""))
  {
    DefaultsOnlyWhenAbsent(parts, "BYSECOND", "0");
    PutFacts(parts, "BYSECOND", "0", key, "");
  }

  lemma CountExactly(parts: seq<Part>, key: string)
    ensures var put := FillCount(parts);
            if HasKey(parts, "COUNT") && !(1 <= Positive(Get(parts, "COUNT", "")) <= 730) then put == Err(BadCount)
            else
              && put.Ok? && (HasKey(put.value, "COUNT") <==> HasKey(parts, "COUNT"))
              && (HasKey(parts, "COUNT") ==>
                   Get(put.value, "COUNT", "") == Decimal(Positive(Get(parts, "COUNT", ""))))
              && (key != "COUNT" ==>
                   (HasKey(put.value, key) <==> HasKey(parts, key)) && Get(put.value, key, "") == Get(parts, key, ""))
  {
    var n := Positive(Get(parts, "COUNT", ""));
    PutFacts(parts, "COUNT", Decimal(n), key, "");
  }

  lemma IntervalExactly(parts: seq<Part>, key: string)
    ensures var put := FillInterval(parts);
            var n := Positive(Get(parts, "INTERVAL", "1"));
            if n == 0 then put == Err(BadInterval)
            else
              && put.Ok? && HasKey(put.value, "INTERVAL") && Get(put.value, "INTERVAL", "") == Decimal(n)
              && (key != "INTERVAL" ==>
                   && (HasKey(put.value, key) <==> HasKey(parts, key))
                   && Get(put.value, key, "") == Get(parts, key, ""))
  {
    PutFacts(parts, "INTERVAL", Decimal(Positive(Get(parts, "INTERVAL", "1"))), key, "");
  }

  /** The same lookups with and without a default. */
  lemma SameLookups(p: seq<Part>, q: seq<Part>, key: string, default: string)
    requires (HasKey(p, key) <==> HasKey(q, key)) && Get(p, key, "") == Get(q, key, "")
    ensures Get(p, key, default) == Get(q, key, default)
  {
    DefaultsOnlyWhenAbsent(p, key, default);
    DefaultsOnlyWhenAbsent(q, key, default);
  }

  lemma FilledKey(read: seq<Part>, key: string)
    requires Fill(read).Ok? && key !in {"FREQ", "INTERVAL", "COUNT", "BYSECOND"}
    ensures (HasKey(Fill(read).value, key) <==> HasKey(read, key))
            && Get(Fill(read).value, key, "") == Get(read, key, "")
  {
    var freq := Upper(Get(read, "FREQ", ""));
    var p := Put(read, "FREQ", freq);
    PutFacts(read, "FREQ", freq, key, "");
    IntervalExactly(p, key);
    CountExactly(FillInterval(p).value, key);
    SecondExactly(FillCount(FillInterval(p).value).value, key);
  }

  lemma FrequenciesAre(freq: string)
    ensures AllowedFreq(freq) <==> Repeats(freq)
  {}

  lemma FilledRepeating(read: seq<Part>)
    requires Repeats(Upper(Get(read, "FREQ", "")))
    ensures var r := Fill(read);
            if Accepts(read) then r.Ok? && FilledFrom(read, r.value) else r == Err(Refusal(read))
  {
    var freq := Upper(Get(read, "FREQ", ""));
    var p := Put(read, "FREQ", freq);
    FrequenciesAre(freq);
    PutFacts(read, "FREQ", freq, "INTERVAL", "");
    PutFacts(read, "FREQ", freq, "COUNT", "");
    PutFacts(read, "FREQ", freq, "BYSECOND", "");
    SameLookups(p, read, "INTERVAL", "1");
    IntervalExactly(p, "FREQ");
    IntervalExactly(p, "COUNT");
    IntervalExactly(p, "BYSECOND");
    if FillInterval(p).Ok? { FilledCounted(read, FillInterval(p).value); }
  }

  /** FILLING accepts exactly a frequency of the five, a positive interval and a count
      up to 730, and leaves every part in its place. */
  lemma FilledExactly(read: seq<Part>)
    ensures var r := Fill(read);
            if Accepts(read) then r.Ok? && FilledFrom(read, r.value) else r == Err(Refusal(read))
  {
    var freq := Upper(Get(read, "FREQ", ""));
    FrequenciesAre(freq);
    if Repeats(freq) { FilledRepeating(read); }
  }

  lemma FilledCounted(read: seq<Part>, spaced: seq<Part>)
    requires var counted := FillCount(spaced);
             Fill(read) == if counted.Err? then counted else Ok(FillSecond(counted.value))
    requires Repeats(Upper(Get(read, "FREQ", ""))) && Positive(Get(read, "INTERVAL", "1")) > 0
    requires HasKey(spaced, "FREQ") && Get(spaced, "FREQ", "") == Upper(Get(read, "FREQ", ""))
    requires HasKey(spaced, "INTERVAL")
    requires Get(spaced, "INTERVAL", "") == Decimal(Positive(Get(read, "INTERVAL", "1")))
    requires (HasKey(spaced, "COUNT") <==> HasKey(read, "COUNT")) && Get(spaced, "COUNT", "") == Get(read, "COUNT", "")
    requires HasKey(spaced, "BYSECOND") <==> HasKey(read, "BYSECOND")
    requires Get(spaced, "BYSECOND", "") == Get(read, "BYSECOND", "")
    ensures var r := Fill(read);
            if Accepts(read) then r.Ok? && FilledFrom(read, r.value) else r == Err(Refusal(read))
  {
    CountExactly(spaced, "FREQ");
    CountExactly(spaced, "INTERVAL");
    CountExactly(spaced, "BYSECOND");
    if FillCount(spaced).Ok? {
      var counted := FillCount(spaced).value;
      SecondExactly(counted, "FREQ");
      SecondExactly(counted, "INTERVAL");
      SecondExactly(counted, "COUNT");
      SameLookups(counted, read, "BYSECOND", "0");
      forall key | key !in {"FREQ", "INTERVAL", "COUNT", "BYSECOND"}
        ensures (HasKey(Fill(read).value, key) <==> HasKey(read, key))
                && Get(Fill(read).value, key, "") == Get(read, key, "")
      {
        FilledKey(read, key);
      }
    }
  }

  // ------------------------------------------------------------------- order

  /** The known keys in the order of a canonical text. */
  const ORDER: seq<string> := [
    "FREQ", "INTERVAL", "COUNT", "UNTIL", "BYMONTH", "BYMONTHDAY", "BYDAY",
    "BYHOUR", "BYMINUTE", "BYSECOND", "WKST", "BYSETPOS", "BYWEEKNO", "BYYEARDAY"]

  /** Where a key stands in an order; unknown keys come last. */
  function Rank(key: string, order: seq<string>): (n: nat)
    ensures n <= |order| && (n < |order| <==> key in order) && (n < |order| ==> order[n] == key)
  {
    if order == [] || order[0] == key then 0 else 1 + Rank(key, order[1..])
  }

  ghost predicate Before(p: Part, q: Part, order: seq<string>) {
    Rank(p.key, order) < Rank(q.key, order) || (p.key !in order && q.key !in order)
  }

  /** Known keys by rank, each once, then the others. */
  ghost predicate Ranked(parts: seq<Part>, order: seq<string>) {
    forall i, j :: 0 <= i < j < |parts| ==> Before(parts[i], parts[j], order)
  }

  /** The parts with unknown keys, in the order they came. */
  ghost function Unknown(parts: seq<Part>, order: seq<string>): seq<Part> {
    if parts == [] then []
    else
      var n := |parts| - 1;
      Unknown(parts[..n], order) + if parts[n].key in order then [] else [parts[n]]
  }

  lemma RankedAfter(p: Part, parts: seq<Part>, order: seq<string>)
    requires Ranked(parts, order) && forall i :: 0 <= i < |parts| ==> Before(p, parts[i], order)
    ensures Ranked([p] + parts, order)
  {}

  /** One more known key in front. */
  lemma RankedUnder(parts: seq<Part>, order: seq<string>)
    requires order != [] && Ranked(parts, order[1..])
    requires forall i :: 0 <= i < |parts| ==> parts[i].key in order[1..] && parts[i].key != order[0]
    ensures Ranked(parts, order)
  {
    forall i, j | 0 <= i < j < |parts| ensures Before(parts[i], parts[j], order) {
      assert Before(parts[i], parts[j], order[1..]);
    }
  }

  lemma {:induction false} KnownRanked(parts: seq<Part>, order: seq<string>)
    requires Distinct(order)
    ensures Ranked(Known(parts, order), order)
  {
    if order != [] {
      var rest := Known(parts, order[1..]);
      KnownRanked(parts, order[1..]);
      KnownFacts(parts, order[1..]);
      forall i | 0 <= i < |rest| ensures rest[i].key != order[0] {
        var j :| 0 <= j < |order[1..]| && order[1..][j] == rest[i].key;
        assert order[j + 1] == rest[i].key;
      }
      RankedUnder(rest, order);
      if HasKey(parts, order[0]) { RankedAfter(Part(order[0], Get(parts, order[0], "")), rest, order); }
    }
  }

  lemma {:induction false} UnknownAppend(a: seq<Part>, b: seq<Part>, order: seq<string>)
    ensures Unknown(a + b, order) == Unknown(a, order) + Unknown(b, order)
  {
    if b == [] {
      assert a + b == a;
    } else {
      assert (a + b)[..|a + b| - 1] == a + b[..|b| - 1];
      UnknownAppend(a, b[..|b| - 1], order);
    }
  }

  lemma UnknownFirst(parts: seq<Part>, order: seq<string>)
    requires parts != []
    ensures Unknown(parts, order) == (if parts[0].key in order then [] else [parts[0]]) + Unknown(parts[1..], order)
  {
    UnknownAppend([parts[0]], parts[1..], order);
    assert parts == [parts[0]] + parts[1..] && [parts[0]][..0] == [];
  }

  lemma {:induction false} ExtrasAreUnknown(parts: seq<Part>)
    ensures Extras(parts) == Unknown(parts, PART_ORDER)
  {
    if parts != [] {
      ExtrasAreUnknown(parts[1..]);
      UnknownFirst(parts, PART_ORDER);
    }
  }

  lemma {:induction false} NoneUnknown(parts: seq<Part>, order: seq<string>)
    requires forall i :: 0 <= i < |parts| ==> parts[i].key in order
    ensures Unknown(parts, order) == []
  {
    if parts != [] { NoneUnknown(parts[..|parts| - 1], order); }
  }

  lemma RankedThenUnknown(known: seq<Part>, extras: seq<Part>, order: seq<string>)
    requires Ranked(known, order) && forall i :: 0 <= i < |known| ==> known[i].key in order
    requires forall i :: 0 <= i < |extras| ==> extras[i].key !in order
    ensures Ranked(known + extras, order)
  {
    var all := known + extras;
    forall i, j | 0 <= i < j < |all| ensures Before(all[i], all[j], order) {
      if j < |known| { assert Before(known[i], known[j], order); }
    }
  }

  lemma ArrangedInOrder(parts: seq<Part>)
    requires DistinctKeys(parts)
    ensures Ranked(Arrange(parts), PART_ORDER) && Unknown(Arrange(parts), PART_ORDER) == Unknown(parts, PART_ORDER)
  {
    var known, extras := Known(parts, PART_ORDER), Extras(parts);
    OrderIsDistinct();
    KnownRanked(parts, PART_ORDER);
    KnownFacts(parts, PART_ORDER);
    ExtrasFacts(parts);
    NoneUnknown(known, PART_ORDER);
    ExtrasAreUnknown(parts);
    ExtrasAreUnknown(extras);
    UnknownAreExtras(extras);
    UnknownAppend(known, extras, PART_ORDER);
    RankedThenUnknown(known, extras, PART_ORDER);
  }

  /** ARRANGING puts the known parts in their fixed order, keeps the order of the
      others behind them, and neither drops nor changes a part. */
  lemma ArrangedExactly(parts: seq<Part>)
    requires DistinctKeys(parts)
    ensures Ranked(Arrange(parts), ORDER) && Unknown(Arrange(parts), ORDER) == Unknown(parts, ORDER)
    ensures SameMap(Arrange(parts), parts) && DistinctKeys(Arrange(parts))
  {
    assert ORDER == PART_ORDER;
    ArrangedInOrder(parts);
    ArrangeFacts(parts);
  }

  // ------------------------------------------------------------- whole rules

  /** These are the texts of the parts, "key=value" between semicolons. */
  ghost predicate IsTextOf(text: string, parts: seq<Part>) {
    if parts == [] then text == ""
    else if |parts| == 1 then text == parts[0].key + "=" + parts[0].value
    else
      var head := parts[0].key + "=" + parts[0].value + ";";
      |head| <= |text| && text[..|head|] == head && IsTextOf(text[|head|..], parts[1..])
  }

  lemma {:induction false} RenderedText(parts: seq<Part>)
    ensures IsTextOf(Render(parts), parts)
  {
    if |parts| > 1 {
      RenderedText(parts[1..]);
      assert PrintAll(parts)[1..] == PrintAll(parts[1..]);
      var head := parts[0].key + "=" + parts[0].value + ";";
      assert Print(parts[0]) + [';'] == head;
      assert Render(parts) == head + Render(parts[1..]);
    }
  }

  /** What the canonical text of the parts read consists of. */
  ghost predicate CanonicalPartsOf(read: seq<Part>, parts: seq<Part>) {
    && FilledFrom(read, parts) && DistinctKeys(parts)
    && Ranked(parts, ORDER) && Unknown(parts, ORDER) == Unknown(read, ORDER)
  }

  lemma FilledStaysFilled(read: seq<Part>, filled: seq<Part>, arranged: seq<Part>)
    requires FilledFrom(read, filled) && SameMap(arranged, filled)
    ensures FilledFrom(read, arranged)
  {
    forall key | key !in {"FREQ", "INTERVAL", "COUNT", "BYSECOND"}
      ensures (HasKey(arranged, key) <==> HasKey(read, key)) && Get(arranged, key, "") == Get(read, key, "")
    {
      assert (HasKey(arranged, key) <==> HasKey(filled, key)) && Get(arranged, key, "") == Get(filled, key, "");
    }
  }

  lemma {:induction false} PutUnknown(parts: seq<Part>, key: string, value: string)
    requires key in PART_ORDER
    ensures Extras(Put(parts, key, value)) == Extras(parts)
  {
    if parts != [] && parts[0].key != key { PutUnknown(parts[1..], key, value); }
  }

  /** Filling keeps the unknown parts and the keys apart. */
  lemma FillKeepsApart(read: seq<Part>)
    requires DistinctKeys(read) && Fill(read).Ok?
    ensures DistinctKeys(Fill(read).value) && Extras(Fill(read).value) == Extras(read)
  {
    var p := Put(read, "FREQ", Upper(Get(read, "FREQ", "")));
    var interval := Decimal(ParseInt(Get(p, "INTERVAL", "1")).value);
    var q := Put(p, "INTERVAL", interval);
    var t := FillCount(q).value;
    assert "FREQ" == PART_ORDER[0] && "INTERVAL" == PART_ORDER[1];
    PutStaysDistinct(read, "FREQ", Upper(Get(read, "FREQ", "")));
    PutUnknown(read, "FREQ", Upper(Get(read, "FREQ", "")));
    PutStaysDistinct(p, "INTERVAL", interval);
    PutUnknown(p, "INTERVAL", interval);
    CountKeepsApart(q);
    SecondKeepsApart(t);
  }

  lemma CountKeepsApart(parts: seq<Part>)
    requires DistinctKeys(parts) && FillCount(parts).Ok?
    ensures DistinctKeys(FillCount(parts).value) && Extras(FillCount(parts).value) == Extras(parts)
  {
    assert "COUNT" == PART_ORDER[2];
    if HasKey(parts, "COUNT") {
      var count := Decimal(ParseInt(Get(parts, "COUNT", "")).value);
      PutStaysDistinct(parts, "COUNT", count);
      PutUnknown(parts, "COUNT", count);
    }
  }

  lemma SecondKeepsApart(parts: seq<Part>)
    requires DistinctKeys(parts)
    ensures DistinctKeys(FillSecond(parts)) && Extras(FillSecond(parts)) == Extras(parts)
  {
    assert "BYSECOND" == PART_ORDER[9];
    PutStaysDistinct(parts, "BYSECOND", "0");
    PutUnknown(parts, "BYSECOND", "0");
  }

  /** THE CANONICAL TEXT, part by part, or the first reason against the rule. */
  lemma CanonicalExactly(lib: Library, pieces: seq<string>) returns (parts: seq<Part>)
    ensures var read, r := ReadPieces(pieces), CanonicalOf(lib, pieces);
            if read.Err? then r == Err(read.error)
            else if !Accepts(read.value) then r == Err(Refusal(read.value))
            else
              && CanonicalPartsOf(read.value, parts) && IsTextOf(Render(parts), parts)
              && r == if lib(Render(parts)) then Ok(Render(parts)) else Err(Rejected)
  {
    parts := [];
    var read := ReadPieces(pieces);
    if read.Ok? {
      FilledExactly(read.value);
      if Accepts(read.value) {
        var filled := Fill(read.value).value;
        parts := Arrange(filled);
        ReadsReadable(pieces);
        ReadIff(pieces);
        CanonicalPartsAre(read.value, filled);
        RenderedText(parts);
      }
    }
  }

  lemma CanonicalPartsAre(read: seq<Part>, filled: seq<Part>)
    requires DistinctKeys(read) && Fill(read) == Ok(filled) && FilledFrom(read, filled)
    ensures CanonicalPartsOf(read, Arrange(filled))
  {
    FillKeepsApart(read);
    ArrangedExactly(filled);
    FilledStaysFilled(read, filled, Arrange(filled));
    ExtrasAreUnknown(read);
    ExtrasAreUnknown(filled);
    assert ORDER == PART_ORDER;
  }
}
