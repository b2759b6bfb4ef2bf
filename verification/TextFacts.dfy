/** What the string operations amount to: stripping, compacting and reading numerals,
    each against its own description. */
module TextFacts {
  import opened Wrappers
  import opened Text

  // --------------------------------------------------------------- whitespace

  /** The code points that count as whitespace. */
  const SPACES: set<int> := {
    0x09, 0x0A, 0x0B, 0x0C, 0x0D, 0x1C, 0x1D, 0x1E, 0x1F, 0x20, 0x85, 0xA0, 0x1680, 0x2000, 0x2001, 0x2002, 0x2003,
    0x2004, 0x2005, 0x2006, 0x2007, 0x2008, 0x2009, 0x200A, 0x2028, 0x2029, 0x202F, 0x205F, 0x3000}

  lemma SpacesAre(c: char)
    ensures IsSpace(c) <==> c as int in SPACES
  {}

  predicate AllSpaces(s: string) { forall i :: 0 <= i < |s| ==> IsSpace(s[i]) }

  lemma {:induction false} TrimsSpacesLeft(s: string) returns (left: string)
    ensures s == left + TrimLeft(s) && AllSpaces(left)
  {
    if s != [] && IsSpace(s[0]) {
      var rest := TrimsSpacesLeft(s[1..]);
      left := [s[0]] + rest;
    } else {
      left := "";
    }
  }

  lemma {:induction false} TrimsSpacesRight(s: string) returns (right: string)
    ensures s == TrimRight(s) + right && AllSpaces(right)
  {
    if s != [] && IsSpace(s[|s| - 1]) {
      var rest := TrimsSpacesRight(s[..|s| - 1]);
      right := rest + [s[|s| - 1]];
    } else {
      right := "";
    }
  }

  /** STRIPPING takes whitespace off both ends, all of it and nothing else. */
  lemma StripExactly(s: string) returns (left: string, right: string)
    ensures s == left + Strip(s) + right && AllSpaces(left) && AllSpaces(right)
    ensures Strip(s) != "" ==> !IsSpace(Strip(s)[0]) && !IsSpace(Strip(s)[|Strip(s)| - 1])
  {
    left := TrimsSpacesLeft(s);
    right := TrimsSpacesRight(TrimLeft(s));
    StripFacts(s);
  }

  /** The words of a text: its longest pieces without whitespace. */
  function Words(s: string): seq<string>
    decreases |s|
  {
    if s == "" then []
    else if IsSpace(s[0]) then Words(s[1..])
    else
      var n := WordEnd(s);
      [s[..n]] + Words(s[n..])
  }

  function WordEnd(s: string): (n: nat)
    ensures n <= |s| && (forall i :: 0 <= i < n ==> !IsSpace(s[i])) && (n < |s| ==> IsSpace(s[n]))
    ensures s != "" && !IsSpace(s[0]) ==> n > 0
  {
    if s == "" || IsSpace(s[0]) then 0 else 1 + WordEnd(s[1..])
  }

  lemma {:induction false} SqueezeWord(s: string, n: nat)
    requires n <= |s| && forall i :: 0 <= i < n ==> !IsSpace(s[i])
    ensures Squeeze(s) == s[..n] + Squeeze(s[n..])
    decreases n
  {
    if n == 0 {
      assert s[0..] == s;
    } else {
      SqueezeWord(s[1..], n - 1);
      assert s[1..][n - 1..] == s[n..] && [s[0]] + s[1..][..n - 1] == s[..n];
    }
  }

  lemma {:induction false} TrimRightOfSum(a: string, b: string)
    requires TrimRight(b) != ""
    ensures TrimRight(a + b) == a + TrimRight(b)
  {
    if IsSpace(b[|b| - 1]) {
      TrimRightOfSum(a, b[..|b| - 1]);
      assert (a + b)[..|a + b| - 1] == a + b[..|b| - 1];
    }
  }

  lemma {:induction false} WordsOfTrimmed(s: string)
    ensures Words(TrimLeft(s)) == Words(s)
    decreases |s|
  {
    if s != "" && IsSpace(s[0]) { WordsOfTrimmed(s[1..]); }
  }

  lemma KeepsLastWord(word: string)
    requires word != "" && forall i :: 0 <= i < |word| ==> !IsSpace(word[i])
    ensures TrimRight(word) == word && TrimRight(word + " ") == word
  {
    assert (word + " ")[..|word|] == word;
  }

  /** One more word before what is squeezed and trimmed already. */
  lemma PutBefore(word: string, t: string, rest: string)
    requires word != "" && t != "" && TrimRight(Squeeze(t)) == rest != ""
    ensures TrimRight(word + (" " + Squeeze(t))) == word + [' '] + rest
  {
    TrimRightOfSum(word + " ", Squeeze(t));
    assert word + (" " + Squeeze(t)) == (word + " ") + Squeeze(t);
  }

  lemma SqueezeAfterWord(s: string)
    requires s != "" && !IsSpace(s[0])
    ensures var n := WordEnd(s);
            var t := TrimLeft(s[n..]);
            && |t| < |s| && (t != "" ==> !IsSpace(t[0])) && Words(s) == [s[..n]] + Words(t)
            && Squeeze(s) == s[..n] + (if s[n..] == "" then "" else " " + Squeeze(t))
  {
    var n := WordEnd(s);
    SqueezeWord(s, n);
    TrimLeftWithin(s[n..]);
    WordsOfTrimmed(s[n..]);
  }

  lemma {:induction false} SqueezedStart(s: string)
    requires s != "" && !IsSpace(s[0])
    ensures TrimRight(Squeeze(s)) == Join(Words(s), ' ') != ""
    decreases |s|
  {
    var n := WordEnd(s);
    var word, t := s[..n], TrimLeft(s[n..]);
    SqueezeAfterWord(s);
    KeepsLastWord(word);
    if t == "" {
      assert Words(s) == [word];
    } else {
      SqueezedStart(t);
      PutBefore(word, t, Join(Words(t), ' '));
      assert Words(s)[1..] == Words(t) && Words(t) != [];
    }
  }

  /** SQUEEZING AND STRIPPING joins the words by single blanks. */
  lemma SqueezedIsJoined(s: string)
    ensures Strip(Squeeze(s)) == Join(Words(s), ' ')
  {
    if s != "" {
      var t := if IsSpace(s[0]) then TrimLeft(s[1..]) else s;
      if IsSpace(s[0]) {
        TrimLeftWithin(s[1..]);
        WordsOfTrimmed(s[1..]);
        assert (" " + Squeeze(t))[1..] == Squeeze(t);
      }
      SqueezeSqueezes(t);
      if t != "" {
        SqueezedStart(t);
        assert TrimLeft(Squeeze(t)) == Squeeze(t);
      }
    }
  }

  /** COMPACTING joins the words by single blanks and cuts the text to the limit. */
  lemma CompactIsJoined(s: string, limit: nat)
    ensures var joined := Join(Words(s), ' ');
            Compact(s, limit) == if |joined| <= limit then joined else joined[..limit]
  {
    SqueezedIsJoined(s);
  }

  // ----------------------------------------------------------------- numerals

  /** Digits, with single underscores between them. */
  predicate IsNumeral(s: string) {
    && s != "" && '0' <= s[0] <= '9' && '0' <= s[|s| - 1] <= '9'
    && (forall i :: 0 <= i < |s| ==> '0' <= s[i] <= '9' || s[i] == '_')
    && (forall i :: 0 <= i < |s| - 1 ==> !(s[i] == '_' && s[i + 1] == '_'))
  }

  /** WHICH NUMERALS ARE READ: exactly those. */
  lemma {:induction false} NumeralExactly(s: string)
    ensures ParseDigits(s).Some? <==> IsNumeral(s)
    decreases |s|
  {
    if s != "" && IsDigit(s[|s| - 1]) {
      var init := s[..|s| - 1];
      if init != "" {
        var high := if init[|init| - 1] == '_' then init[..|init| - 1] else init;
        NumeralExactly(high);
        if IsNumeral(s) && init[|init| - 1] == '_' { assert s[|init| - 1] == '_' && s[|init| - 2] != '_'; }
      }
    }
  }

  /** What the last digit adds to what stands before it, an underscore apart. */
  lemma LastDigit(s: string)
    requires |s| >= 2 && IsDigit(s[|s| - 1])
    ensures var init := s[..|s| - 1];
            var high := ParseDigits(if init[|init| - 1] == '_' then init[..|init| - 1] else init);
            ParseDigits(s) == if high.None? then None else Some(10 * high.value + (s[|s| - 1] - '0') as nat)
  {}

  lemma AfterDigit(s: string, d: char)
    requires '0' <= d <= '9' && ParseDigits(s).Some?
    ensures ParseDigits(s + [d]) == Some(10 * ParseDigits(s).value + (d - '0') as nat)
  {
    LastDigit(s + [d]);
    assert (s + [d])[..|s|] == s;
  }

  lemma AfterUnderscore(s: string, d: char)
    requires '0' <= d <= '9' && ParseDigits(s).Some?
    ensures ParseDigits(s + ['_', d]) == Some(10 * ParseDigits(s).value + (d - '0') as nat)
  {
    LastDigit(s + ['_', d]);
    assert (s + ['_', d])[..|s| + 1] == s + ['_'] && (s + ['_'])[..|s|] == s;
  }

  /** Their value, digit by digit. */
  lemma NumeralValue(s: string, d: char)
    requires '0' <= d <= '9'
    ensures ParseDigits([d]) == Some((d - '0') as nat)
    ensures ParseDigits(s).Some? ==>
              && ParseDigits(s + [d]) == Some(10 * ParseDigits(s).value + (d - '0') as nat)
              && ParseDigits(s + ['_', d]) == Some(10 * ParseDigits(s).value + (d - '0') as nat)
  {
    assert [d][..0] == [];
    if ParseDigits(s).Some? {
      AfterDigit(s, d);
      AfterUnderscore(s, d);
    }
  }

  /** A number is its digits after an optional sign, stripped. */
  lemma SignedNumerals(raw: string, digits: string)
    requires ParseDigits(digits).Some?
    ensures var n: int := ParseDigits(digits).value;
            && (Strip(raw) == digits ==> ParseInt(raw) == Some(n))
            && (Strip(raw) == ['+'] + digits ==> ParseInt(raw) == Some(n))
            && (Strip(raw) == ['-'] + digits ==> ParseInt(raw) == Some(-n))
  {
    NumeralExactly(digits);
    assert (['+'] + digits)[1..] == digits && (['-'] + digits)[1..] == digits;
  }

  lemma NoOtherNumbers(raw: string)
    requires ParseInt(raw).Some?
    ensures var s := Strip(raw);
            IsNumeral(s) || (s != "" && s[0] in {'+', '-'} && IsNumeral(s[1..]))
  {
    var s := Strip(raw);
    NumeralExactly(s);
    NumeralExactly(s[1..]);
  }

  /** Numbers are printed in decimal. */
  lemma DecimalReads(n: nat)
    ensures IsNumeral(Decimal(n)) && ParseDigits(Decimal(n)) == Some(n)
    ensures forall i :: 0 <= i < |Decimal(n)| ==> Decimal(n)[i] != '_'
    ensures n > 0 ==> Decimal(n)[0] != '0'
  {
    ParseDecimal(n);
    NumeralExactly(Decimal(n));
    if n > 0 { NoLeadingZero(n); }
  }

  lemma {:induction false} NoLeadingZero(n: nat)
    requires n > 0
    ensures Decimal(n)[0] != '0'
  {
    if n >= 10 { NoLeadingZero(n / 10); }
  }

  /** Upper case turns the small letters into the capitals and keeps everything else. */
  lemma UpperLetters(s: string, i: nat)
    requires i < |s|
    ensures |Upper(s)| == |s|
    ensures if 'a' <= s[i] <= 'z' then Upper(s)[i] == "ABCDEFGHIJKLMNOPQRSTUVWXYZ"[s[i] as int - 'a' as int]
            else Upper(s)[i] == s[i]
  {}
}
