/** Recurrence rules (app/core/rrule.py), a subset of section 3.3.10 of RFC 5545:
    reading the parts of a rule, filling defaults and printing the canonical
    text that is stored and read again at every firing. */
module RRule {
  import opened Wrappers
  import opened Text

  datatype Error =
    | EmptyRule | MultiLine | HasDtstart | InvalidPart | DuplicatePart
    | BadFreq | BadInterval | BadCount | Rejected

  datatype Part = Part(key: string, value: string)

  const MAX_COUNT: nat := 730

  const PREFIX := "RRULE:"

  const PART_ORDER: seq<string> := [
    "FREQ", "INTERVAL", "COUNT", "UNTIL", "BYMONTH", "BYMONTHDAY", "BYDAY",
    "BYHOUR", "BYMINUTE", "BYSECOND", "WKST", "BYSETPOS", "BYWEEKNO", "BYYEARDAY"]

  predicate AllowedFreq(s: string) { s in {"YEARLY", "MONTHLY", "WEEKLY", "DAILY", "HOURLY"} }

  predicate OneLine(s: string) { Lacks(s, '\n') && Lacks(s, '\r') }

  ghost predicate MentionsDtstart(s: string) { Within("DTSTART", Upper(s)) }

  // ------------------------------------------------------------------ parts

  predicate HasKey(parts: seq<Part>, key: string) { exists i :: 0 <= i < |parts| && parts[i].key == key }

  /** `parsed.get(key, default)`. */
  function Get(parts: seq<Part>, key: string, default: string): string {
    if parts == [] then default
    else if parts[0].key == key then parts[0].value
    else Get(parts[1..], key, default)
  }

  /** `parsed[key] = value`: in place, or appended. */
  function Put(parts: seq<Part>, key: string, value: string): seq<Part> {
    if parts == [] then [Part(key, value)]
    else if parts[0].key == key then [Part(key, value)] + parts[1..]
    else [parts[0]] + Put(parts[1..], key, value)
  }

  predicate DistinctKeys(parts: seq<Part>) {
    forall i, j :: 0 <= i < j < |parts| ==> parts[i].key != parts[j].key
  }

  function Print(p: Part): string { p.key + ['='] + p.value }

  // ---------------------------------------------------------------- reading

  /** One piece between semicolons, stripped and not blank. */
  function ReadPart(piece: string): Result<Part, Error> {
    var i := IndexOf(piece, '=');
    if i == |piece| then Err(InvalidPart)
    else
      var key := Upper(Strip(piece[..i]));
      var value := Strip(piece[i + 1..]);
      if key == "" || value == "" then Err(InvalidPart) else Ok(Part(key, value))
  }

  function ReadPiece(parsed: seq<Part>, raw: string): Result<seq<Part>, Error> {
    var piece := Strip(raw);
    if piece == "" then Ok(parsed)
    else
      var part := ReadPart(piece);
      if part.Err? then Err(part.error)
      else if HasKey(parsed, part.value.key) then Err(DuplicatePart)
      else Ok(parsed + [part.value])
  }

  function ReadPieces(pieces: seq<string>): Result<seq<Part>, Error> {
    if pieces == [] then Ok([])
    else
      var parsed := ReadPieces(pieces[..|pieces| - 1]);
      if parsed.Err? then parsed else ReadPiece(parsed.value, pieces[|pieces| - 1])
  }

  // ---------------------------------------------------------------- filling

  function FillInterval(parts: seq<Part>): Result<seq<Part>, Error> {
    var interval := ParseInt(Get(parts, "INTERVAL", "1"));
    if interval.None? || interval.value < 1 then Err(BadInterval)
    else Ok(Put(parts, "INTERVAL", Decimal(interval.value)))
  }

  function FillCount(parts: seq<Part>): Result<seq<Part>, Error> {
    if !HasKey(parts, "COUNT") then Ok(parts)
    else
      var count := ParseInt(Get(parts, "COUNT", ""));
      if count.None? || count.value < 1 || count.value > MAX_COUNT then Err(BadCount)
      else Ok(Put(parts, "COUNT", Decimal(count.value)))
  }

  function FillSecond(parts: seq<Part>): seq<Part> {
    if HasKey(parts, "BYSECOND") then parts else Put(parts, "BYSECOND", "0")
  }

  function Fill(parts: seq<Part>): Result<seq<Part>, Error> {
    var freq := Upper(Get(parts, "FREQ", ""));
    if !AllowedFreq(freq) then Err(BadFreq)
    else
      var spaced := FillInterval(Put(parts, "FREQ", freq));
      if spaced.Err? then spaced
      else
        var counted := FillCount(spaced.value);
        if counted.Err? then counted else Ok(FillSecond(counted.value))
  }

  // --------------------------------------------------------------- printing

  function Known(parts: seq<Part>, order: seq<string>): seq<Part> {
    if order == [] then []
    else (if HasKey(parts, order[0]) then [Part(order[0], Get(parts, order[0], ""))] else []) + Known(parts, order[1..])
  }

  function Extras(parts: seq<Part>): seq<Part> {
    if parts == [] then []
    else (if parts[0].key in PART_ORDER then [] else [parts[0]]) + Extras(parts[1..])
  }

  /** Known parts in their fixed order, then unknown ones as they came. */
  function Arrange(parts: seq<Part>): seq<Part> { Known(parts, PART_ORDER) + Extras(parts) }

  function PrintAll(parts: seq<Part>): (texts: seq<string>)
    ensures |texts| == |parts| && forall i :: 0 <= i < |parts| ==> texts[i] == Print(parts[i])
  {
    seq(|parts|, i requires 0 <= i < |parts| => Print(parts[i]))
  }

  function Render(parts: seq<Part>): string { Join(PrintAll(parts), ';') }

  // ------------------------------------------------------------- whole rules

  /** The text after stripping and removing the optional prefix. */
  function Unprefixed(raw: string): string {
    var body := Strip(raw);
    if |body| >= |PREFIX| && Upper(body)[..|PREFIX|] == PREFIX then Strip(body[|PREFIX|..]) else body
  }

  ghost function Body(raw: string): Result<string, Error> {
    var body := Unprefixed(raw);
    if Strip(raw) == "" then Err(EmptyRule)
    else if !OneLine(body) then Err(MultiLine)
    else if MentionsDtstart(body) then Err(HasDtstart)
    else Ok(body)
  }

  /** What a rule library accepts, by the canonical text. */
  type Library = string -> bool

  function CanonicalOf(lib: Library, pieces: seq<string>): Result<string, Error> {
    var parsed := ReadPieces(pieces);
    if parsed.Err? then Err(parsed.error)
    else
      var filled := Fill(parsed.value);
      if filled.Err? then Err(filled.error)
      else
        var canonical := Render(Arrange(filled.value));
        if lib(canonical) then Ok(canonical) else Err(Rejected)
  }

  ghost function Canonicalize(lib: Library, raw: string): Result<string, Error> {
    var body := Body(raw);
    if body.Err? then Err(body.error) else CanonicalOf(lib, Split(body.value, ';'))
  }

  // ------------------------------------------------------------ step by step

  lemma {:induction false} ErrorStays(pieces: seq<string>, n: nat)
    requires n <= |pieces| && ReadPieces(pieces[..n]).Err?
    ensures ReadPieces(pieces) == ReadPieces(pieces[..n])
  {
    if n == |pieces| {
      assert pieces[..n] == pieces;
    } else {
      assert pieces[..|pieces| - 1][..n] == pieces[..n];
      ErrorStays(pieces[..|pieces| - 1], n);
    }
  }

  /** `needle in text`, by trying every position. */
  method Contains(needle: string, text: string) returns (found: bool)
    ensures found <==> Within(needle, text)
  {
    for i := 0 to |text| + 1
      invariant forall k :: 0 <= k < i ==> !At(needle, text, k)
    {
      if i + |needle| <= |text| && text[i..i + |needle|] == needle {
        assert At(needle, text, i);
        return true;
      }
    }
    return false;
  }

  /** The loop over the pieces, filling the dictionary. */
  method ParsePieces(pieces: seq<string>) returns (r: Result<seq<Part>, Error>)
    ensures r == ReadPieces(pieces)
  {
    var parsed: seq<Part> := [];
    for i := 0 to |pieces|
      invariant ReadPieces(pieces[..i]) == Ok(parsed)
    {
      assert pieces[..i + 1][..i] == pieces[..i];
      var piece := Strip(pieces[i]);
      if piece != "" {
        var part := ReadPart(piece);
        if part.Err? {
          ErrorStays(pieces, i + 1);
          return Err(part.error);
        }
        if HasKey(parsed, part.value.key) {
          ErrorStays(pieces, i + 1);
          return Err(DuplicatePart);
        }
        parsed := parsed + [part.value];
      }
    }
    assert pieces[..|pieces|] == pieces;
    return Ok(parsed);
  }

  method CanonicalizeRrule(lib: Library, raw: string) returns (r: Result<string, Error>)
    ensures r == Canonicalize(lib, raw)
  {
    if Strip(raw) == "" {
      return Err(EmptyRule);
    }
    var body := Unprefixed(raw);
    if !OneLine(body) {
      return Err(MultiLine);
    }
    var dtstart := Contains("DTSTART", Upper(body));
    if dtstart {
      return Err(HasDtstart);
    }
    var parsed := ParsePieces(Split(body, ';'));
    if parsed.Err? {
      return Err(parsed.error);
    }
    var filled := Fill(parsed.value);
    if filled.Err? {
      return Err(filled.error);
    }
    var canonical := Render(Arrange(filled.value));
    if !lib(canonical) {
      return Err(Rejected);
    }
    return Ok(canonical);
  }
}
