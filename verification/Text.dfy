/** The string operations of the source language that the modelled code uses. */
module Text {
  import opened Wrappers

  predicate IsSpace(c: char) {
    var n := c as int;
    || 9 <= n <= 13 || 28 <= n <= 32 || n == 0x85 || n == 0xA0 || n == 0x1680 || 0x2000 <= n <= 0x200A
    || n == 0x2028 || n == 0x2029 || n == 0x202F || n == 0x205F || n == 0x3000
  }

  function TrimLeft(s: string): string {
    if s != [] && IsSpace(s[0]) then TrimLeft(s[1..]) else s
  }

  function TrimRight(s: string): string {
    if s != [] && IsSpace(s[|s| - 1]) then TrimRight(s[..|s| - 1]) else s
  }

  /** `str.strip`. */
  function Strip(s: string): string { TrimRight(TrimLeft(s)) }

  /** Every run of whitespace as one blank. */
  function Squeeze(s: string): string
    decreases |s|
  {
    if s == "" then ""
    else if IsSpace(s[0]) then
      TrimLeftWithin(s[1..]);
      " " + Squeeze(TrimLeft(s[1..]))
    else [s[0]] + Squeeze(s[1..])
  }

  /** Squeezed, stripped and cut to a length: `compact` and `_compact`. */
  function Compact(s: string, limit: nat): string {
    var clean := Strip(Squeeze(s));
    if |clean| <= limit then clean else clean[..limit]
  }

  /** Whitespace appears only as single blanks. */
  predicate Squeezed(s: string) {
    && (forall i :: 0 <= i < |s| && IsSpace(s[i]) ==> s[i] == ' ')
    && (forall i :: 0 <= i < |s| - 1 && IsSpace(s[i]) ==> !IsSpace(s[i + 1]))
  }

  lemma {:induction false} SqueezeSqueezes(s: string)
    ensures Squeezed(Squeeze(s))
    ensures s != "" && !IsSpace(s[0]) ==> Squeeze(s) != "" && Squeeze(s)[0] == s[0]
    decreases |s|
  {
    if s != "" {
      TrimLeftWithin(s[1..]);
      var rest := if IsSpace(s[0]) then TrimLeft(s[1..]) else s[1..];
      SqueezeSqueezes(rest);
    }
  }

  lemma {:induction false} SqueezeFixpoint(s: string)
    requires Squeezed(s)
    ensures Squeeze(s) == s
    decreases |s|
  {
    if s != "" {
      if IsSpace(s[0]) { assert TrimLeft(s[1..]) == s[1..]; }
      SqueezeFixpoint(s[1..]);
    }
  }

  lemma PieceSqueezed(s: string, lo: nat, hi: nat)
    requires Squeezed(s) && lo <= hi <= |s|
    ensures Squeezed(s[lo..hi])
  {}

  lemma StripIsPiece(s: string) returns (lo: nat, hi: nat)
    ensures lo <= hi <= |s| && Strip(s) == s[lo..hi]
  {
    var t := TrimLeft(s);
    TrimLeftWithin(s);
    TrimRightWithin(t);
    lo, hi := |s| - |t|, |s| - |t| + |Strip(s)|;
    assert s[lo..hi] == s[lo..][..|Strip(s)|];
  }

  /** What is stripped is a squeezed piece, and nothing else is left to do to it. */
  lemma CleanFacts(s: string)
    ensures Squeezed(Strip(Squeeze(s))) && Stripped(Strip(Squeeze(s)))
  {
    SqueezeSqueezes(s);
    StripFacts(Squeeze(s));
    var lo, hi := StripIsPiece(Squeeze(s));
    PieceSqueezed(Squeeze(s), lo, hi);
  }

  lemma {:induction false} TrimRightFixpoint(s: string)
    ensures TrimRight(s) == s <==> s == "" || !IsSpace(s[|s| - 1])
  {
    if s != [] { TrimRightWithin(s[..|s| - 1]); }
  }

  /** A squeezed text without a leading blank is compact already, exactly when
      it has no trailing blank. */
  lemma SqueezedTwice(t: string, limit: nat)
    requires Squeezed(t) && |t| <= limit && (t != "" ==> !IsSpace(t[0]))
    ensures Compact(t, limit) == t <==> t == "" || !IsSpace(t[|t| - 1])
  {
    SqueezeFixpoint(t);
    assert TrimLeft(t) == t;
    TrimRightWithin(t);
    TrimRightFixpoint(t);
  }

  lemma CutIsSqueezed(clean: string, limit: nat)
    requires Squeezed(clean) && Stripped(clean)
    ensures var cut := if |clean| <= limit then clean else clean[..limit];
            Squeezed(cut) && |cut| <= limit && (cut != "" ==> !IsSpace(cut[0]))
  {
    if |clean| > limit { PieceSqueezed(clean, 0, limit); }
  }

  /** Compacting is not idempotent in general: it is, exactly when the cut was
      not needed or does not fall behind a blank. */
  lemma CompactTwice(s: string, limit: nat)
    ensures var clean := Strip(Squeeze(s));
            Compact(Compact(s, limit), limit) == Compact(s, limit)
            <==> (|clean| <= limit || limit == 0 || !IsSpace(clean[limit - 1]))
  {
    CleanFacts(s);
    CutIsSqueezed(Strip(Squeeze(s)), limit);
    SqueezedTwice(Compact(s, limit), limit);
  }

  /** An accepted text, one that was not cut, is a fixpoint for every limit it meets. */
  lemma UncutIsFixpoint(s: string, limit: nat, other: nat)
    requires |Compact(s, limit)| < limit && |Compact(s, limit)| <= other
    ensures Compact(Compact(s, limit), other) == Compact(s, limit)
  {
    CleanFacts(s);
    SqueezeFixpoint(Compact(s, limit));
    StripIdempotent(Compact(s, limit));
  }

  predicate Stripped(s: string) { s != [] ==> !IsSpace(s[0]) && !IsSpace(s[|s| - 1]) }

  /** `part` is a contiguous piece of `whole` (the `in` of strings). */
  predicate Within(part: string, whole: string) {
    exists i :: 0 <= i <= |whole| - |part| && At(part, whole, i)
  }

  predicate At(part: string, whole: string, i: int) {
    0 <= i <= |whole| - |part| && whole[i..i + |part|] == part
  }

  lemma WithinAt(part: string, whole: string, i: nat)
    requires i + |part| <= |whole| && whole[i..i + |part|] == part
    ensures Within(part, whole)
  {
    assert At(part, whole, i);
  }

  lemma WithinTrans(a: string, b: string, c: string)
    requires Within(a, b) && Within(b, c)
    ensures Within(a, c)
  {
    var i :| 0 <= i <= |b| - |a| && At(a, b, i);
    var j :| 0 <= j <= |c| - |b| && At(b, c, j);
    forall k | 0 <= k < |a| ensures c[j + i..j + i + |a|][k] == a[k] {
      assert a[k] == b[i + k] == c[j..j + |b|][i + k];
    }
    assert c[j + i..j + i + |a|] == a;
    WithinAt(a, c, j + i);
  }

  lemma {:induction false} TrimLeftWithin(s: string)
    ensures |TrimLeft(s)| <= |s| && TrimLeft(s) == s[|s| - |TrimLeft(s)|..]
    ensures TrimLeft(s) != [] ==> !IsSpace(TrimLeft(s)[0])
  {
    if s != [] && IsSpace(s[0]) { TrimLeftWithin(s[1..]); }
  }

  lemma {:induction false} TrimRightWithin(s: string)
    ensures |TrimRight(s)| <= |s| && TrimRight(s) == s[..|TrimRight(s)|]
    ensures TrimRight(s) != [] ==> !IsSpace(TrimRight(s)[|TrimRight(s)| - 1])
  {
    if s != [] && IsSpace(s[|s| - 1]) { TrimRightWithin(s[..|s| - 1]); }
  }

  lemma StripFacts(s: string)
    ensures Stripped(Strip(s)) && Within(Strip(s), s)
  {
    TrimLeftWithin(s);
    TrimRightWithin(TrimLeft(s));
    var lo, hi := StripIsPiece(s);
    WithinAt(Strip(s), s, lo);
  }

  lemma StripIdempotent(s: string)
    requires Stripped(s)
    ensures Strip(s) == s
  {}

  predicate Lacks(s: string, c: char) { forall i :: 0 <= i < |s| ==> s[i] != c }

  lemma WithinLacks(part: string, whole: string, c: char)
    requires Within(part, whole) && Lacks(whole, c)
    ensures Lacks(part, c)
  {
    var i :| 0 <= i <= |whole| - |part| && At(part, whole, i);
    forall k | 0 <= k < |part| ensures part[k] != c { assert part[k] == whole[i + k]; }
  }

  lemma StraddlesSeparator(part: string, left: string, c: char, right: string, i: int)
    requires At(part, left + [c] + right, i) && i <= |left| < i + |part|
    ensures !Lacks(part, c)
  {
    var whole := left + [c] + right;
    assert part[|left| - i] == whole[i..i + |part|][|left| - i] == whole[|left|];
  }

  /** A piece without c inside left + [c] + right lies on one side of that c. */
  lemma WithinEither(part: string, left: string, c: char, right: string)
    requires Within(part, left + [c] + right) && Lacks(part, c)
    ensures Within(part, left) || Within(part, right)
  {
    var whole := left + [c] + right;
    var i :| 0 <= i <= |whole| - |part| && At(part, whole, i);
    if i + |part| <= |left| {
      assert left[i..i + |part|] == whole[i..i + |part|];
      WithinAt(part, left, i);
    } else if i <= |left| {
      StraddlesSeparator(part, left, c, right, i);
      assert false;
    } else {
      var k := i - |left| - 1;
      assert right[k..k + |part|] == whole[i..i + |part|];
      WithinAt(part, right, k);
    }
  }

  function IndexOf(s: string, c: char): (i: nat)
    ensures i <= |s| && (forall k :: 0 <= k < i ==> s[k] != c) && (i < |s| ==> s[i] == c)
  {
    if s == [] || s[0] == c then 0 else 1 + IndexOf(s[1..], c)
  }

  /** `s.split(c)` for a one-character separator. */
  function Split(s: string, c: char): (parts: seq<string>)
    ensures parts != []
    decreases |s|
  {
    var i := IndexOf(s, c);
    if i == |s| then [s] else [s[..i]] + Split(s[i + 1..], c)
  }

  /** `c.join(parts)`. */
  function Join(parts: seq<string>, c: char): string {
    if parts == [] then "" else if |parts| == 1 then parts[0] else parts[0] + [c] + Join(parts[1..], c)
  }

  lemma IndexAfterPrefix(left: string, c: char, right: string)
    requires Lacks(left, c)
    ensures IndexOf(left + [c] + right, c) == |left|
  {
    var whole := left + [c] + right;
    var i := IndexOf(whole, c);
    assert whole[|left|] == c;
    assert forall k :: 0 <= k < |left| ==> whole[k] == left[k];
  }

  lemma {:induction false} SplitJoin(parts: seq<string>, c: char)
    requires parts != [] && forall i :: 0 <= i < |parts| ==> Lacks(parts[i], c)
    ensures Split(Join(parts, c), c) == parts
  {
    if |parts| == 1 {
      assert IndexOf(parts[0], c) == |parts[0]|;
    } else {
      var s := Join(parts, c);
      var rest := Join(parts[1..], c);
      IndexAfterPrefix(parts[0], c, rest);
      assert s[..|parts[0]|] == parts[0] && s[|parts[0]| + 1..] == rest;
      SplitJoin(parts[1..], c);
    }
  }

  lemma {:induction false} SplitWithin(s: string, c: char)
    ensures forall k :: 0 <= k < |Split(s, c)| ==> Lacks(Split(s, c)[k], c) && Within(Split(s, c)[k], s)
    decreases |s|
  {
    var i := IndexOf(s, c);
    if i == |s| {
      assert s[..i] == s;
      WithinAt(s, s, 0);
    } else {
      var rest := s[i + 1..];
      WithinAt(s[..i], s, 0);
      WithinAt(rest, s, i + 1);
      SplitWithin(rest, c);
      forall k | 0 <= k < |Split(rest, c)| ensures Within(Split(rest, c)[k], s) {
        WithinTrans(Split(rest, c)[k], rest, s);
      }
    }
  }

  lemma {:induction false} JoinWithin(part: string, parts: seq<string>, c: char)
    requires part != [] && Lacks(part, c) && Within(part, Join(parts, c))
    ensures exists k :: 0 <= k < |parts| && Within(part, parts[k])
  {
    if |parts| > 1 {
      WithinEither(part, parts[0], c, Join(parts[1..], c));
      if !Within(part, parts[0]) {
        JoinWithin(part, parts[1..], c);
        var k :| 0 <= k < |parts| - 1 && Within(part, parts[1..][k]);
        assert parts[k + 1] == parts[1..][k];
      }
    }
  }

  function UpperChar(c: char): char { if 'a' <= c <= 'z' then c - 'a' + 'A' else c }

  function Upper(s: string): (u: string)
    ensures |u| == |s| && forall i :: 0 <= i < |s| ==> u[i] == UpperChar(s[i])
  {
    seq(|s|, i requires 0 <= i < |s| => UpperChar(s[i]))
  }

  lemma UpperWithin(part: string, whole: string)
    requires Within(part, whole)
    ensures Within(Upper(part), Upper(whole))
  {
    var i :| 0 <= i <= |whole| - |part| && At(part, whole, i);
    assert Upper(whole)[i..i + |part|] == Upper(part);
    WithinAt(Upper(part), Upper(whole), i);
  }

  predicate IsDigit(c: char) { '0' <= c <= '9' }

  /** `str(n)` of a natural number. */
  function Decimal(n: nat): (s: string)
    ensures s != [] && forall i :: 0 <= i < |s| ==> IsDigit(s[i])
  {
    var last := ['0' + (n % 10) as char];
    if n < 10 then last else Decimal(n / 10) + last
  }

  /** Digits with single underscores between them, as `int` reads them. */
  function ParseDigits(s: string): Option<nat> {
    if s == [] || !IsDigit(s[|s| - 1]) then None
    else
      var digit := (s[|s| - 1] - '0') as nat;
      var init := s[..|s| - 1];
      if init == [] then Some(digit)
      else
        var high := ParseDigits(if init[|init| - 1] == '_' then init[..|init| - 1] else init);
        if high.None? then None else Some(10 * high.value + digit)
  }

  /** `int(s)`, with None for its ValueError. */
  function ParseInt(raw: string): Option<int> {
    var s := Strip(raw);
    if s == [] then None
    else if s[0] == '+' then Wider(ParseDigits(s[1..]), 1)
    else if s[0] == '-' then Wider(ParseDigits(s[1..]), -1)
    else Wider(ParseDigits(s), 1)
  }

  function Wider(n: Option<nat>, sign: int): Option<int> {
    if n.None? then None else Some(sign * n.value)
  }

  lemma {:induction false} ParseDecimal(n: nat)
    ensures ParseDigits(Decimal(n)) == Some(n)
  {
    if n >= 10 {
      ParseDecimal(n / 10);
      assert Decimal(n)[..|Decimal(n)| - 1] == Decimal(n / 10);
    }
  }

  lemma IntOfDecimal(n: nat)
    ensures ParseInt(Decimal(n)) == Some(n) && Stripped(Decimal(n))
  {
    ParseDecimal(n);
    var s := Decimal(n);
    assert IsDigit(s[0]) && IsDigit(s[|s| - 1]);
    StripIdempotent(s);
  }
}
