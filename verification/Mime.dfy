/** Choosing the text of a MIME message (app/integrations/gmail.py): the
    recursive choice made part by part equals a flat one over all leaves. */
module Mime {
  import opened Text
  import opened Wrappers

  /** A message part as the provider sends it; `encoded` is its body data. */
  datatype Part = Malformed | Part(mime: string, encoded: Option<string>, children: seq<Part>)

  /** Decoding of base64url body data to text. */
  type Decoder = string -> string

  const PLAIN := "text/plain"
  const HTML := "text/html"

  function Decoded(decode: Decoder, encoded: Option<string>): string {
    if encoded.None? || encoded.value == "" then "" else decode(encoded.value)
  }

  predicate IsLeaf(p: Part) { p.Malformed? || p.mime == PLAIN || p.mime == HTML }

  function LeafText(decode: Decoder, p: Part): (string, bool)
    requires IsLeaf(p)
  {
    if p.Malformed? then ("", false) else (Decoded(decode, p.encoded), p.mime == PLAIN)
  }

  /** The text of a part, and whether it is plain. */
  function PartText(decode: Decoder, p: Part): (string, bool)
    decreases p
  {
    if IsLeaf(p) then LeafText(decode, p)
    else
      var (plain, html) := ChildTexts(decode, p.children);
      if plain != [] then (Join(plain, '\n'), true) else (Join(html, '\n'), false)
  }

  /** The nonempty texts of the children, plain and other. */
  function ChildTexts(decode: Decoder, children: seq<Part>): (seq<string>, seq<string>)
    decreases children
  {
    if children == [] then ([], [])
    else
      var n := |children| - 1;
      var (plain, html) := ChildTexts(decode, children[..n]);
      Sorted(plain, html, PartText(decode, children[n]))
  }

  function Sorted(plain: seq<string>, html: seq<string>, text: (string, bool)): (seq<string>, seq<string>) {
    if text.0 == "" then (plain, html)
    else if text.1 then (plain + [text.0], html)
    else (plain, html + [text.0])
  }

  /** A leaf gives its decoded body, if it has any, and says whether it is plain. */
  lemma LeafReads(decode: Decoder, mime: string, encoded: string, children: seq<Part>)
    requires mime == "text/plain" || mime == "text/html"
    ensures PartText(decode, Part(mime, None, children)) == ("", mime == "text/plain")
    ensures PartText(decode, Part(mime, Some(""), children)) == ("", mime == "text/plain")
    ensures encoded != "" ==>
              PartText(decode, Part(mime, Some(encoded), children)) == (decode(encoded), mime == "text/plain")
    ensures PartText(decode, Malformed) == ("", false)
  {
    assert "text/plain" != "text/html";
  }

  method ExtractText(decode: Decoder, p: Part) returns (text: string, isPlain: bool)
    ensures (text, isPlain) == PartText(decode, p)
    decreases p
  {
    if p.Malformed? {
      return "", false;
    }
    if p.mime == PLAIN {
      return Decoded(decode, p.encoded), true;
    }
    if p.mime == HTML {
      return Decoded(decode, p.encoded), false;
    }
    var plain: seq<string>, html: seq<string> := [], [];
    for i := 0 to |p.children|
      invariant (plain, html) == ChildTexts(decode, p.children[..i])
    {
      var child, childIsPlain := ExtractText(decode, p.children[i]);
      assert p.children[..i + 1][..i] == p.children[..i];
      if child != "" {
        if childIsPlain {
          plain := plain + [child];
        } else {
          html := html + [child];
        }
      }
    }
    assert p.children[..|p.children|] == p.children;
    if plain != [] {
      return Join(plain, '\n'), true;
    }
    return Join(html, '\n'), false;
  }

  // ------------------------------------------------------- flat specification

  /** The nonempty texts of all leaves of one type, in document order. */
  function Leaves(decode: Decoder, p: Part, mime: string): seq<string>
    decreases p
  {
    if p.Malformed? then []
    else if IsLeaf(p) then
      if p.mime == mime && Decoded(decode, p.encoded) != "" then [Decoded(decode, p.encoded)] else []
    else LeavesOf(decode, p.children, mime)
  }

  function LeavesOf(decode: Decoder, children: seq<Part>, mime: string): seq<string>
    decreases children
  {
    if children == [] then []
    else
      var n := |children| - 1;
      LeavesOf(decode, children[..n], mime) + Leaves(decode, children[n], mime)
  }

  function FlatText(decode: Decoder, p: Part): string {
    var plain := Leaves(decode, p, PLAIN);
    Join(if plain != [] then plain else Leaves(decode, p, HTML), '\n')
  }

  lemma {:induction false} JoinAppend(a: seq<string>, b: seq<string>, c: char)
    ensures Join(a + b, c)
         == if a == [] then Join(b, c) else if b == [] then Join(a, c) else Join(a, c) + [c] + Join(b, c)
  {
    if a == [] {
      assert a + b == b;
    } else if b == [] {
      assert a + b == a;
    } else {
      assert (a + b)[1..] == a[1..] + b;
      JoinAppend(a[1..], b, c);
    }
  }

  predicate NonEmpty(texts: seq<string>) { forall i :: 0 <= i < |texts| ==> texts[i] != "" }

  lemma JoinNonEmpty(texts: seq<string>, c: char)
    requires NonEmpty(texts)
    ensures Join(texts, c) == "" <==> texts == []
  {}

  lemma {:induction false} LeavesNonEmpty(decode: Decoder, p: Part, mime: string)
    ensures NonEmpty(Leaves(decode, p, mime))
    decreases p
  {
    if !p.Malformed? && !IsLeaf(p) { LeavesOfNonEmpty(decode, p.children, mime); }
  }

  lemma {:induction false} LeavesOfNonEmpty(decode: Decoder, children: seq<Part>, mime: string)
    ensures NonEmpty(LeavesOf(decode, children, mime))
    decreases children
  {
    if children != [] {
      LeavesOfNonEmpty(decode, children[..|children| - 1], mime);
      LeavesNonEmpty(decode, children[|children| - 1], mime);
    }
  }

  /** THE CHOSEN TEXT IS THE FLAT ONE: all nonempty plain leaves at any depth,
      joined in document order, or all nonempty HTML leaves if there are none. */
  lemma {:induction false} PartTextIsFlat(decode: Decoder, p: Part)
    ensures PartText(decode, p).0 == FlatText(decode, p)
    ensures PartText(decode, p).1 <==> Leaves(decode, p, PLAIN) != [] || (p.Part? && p.mime == PLAIN)
    decreases p
  {
    if !IsLeaf(p) {
      ChildTextsAreFlat(decode, p.children);
      LeavesOfNonEmpty(decode, p.children, PLAIN);
    } else {
      assert PLAIN != HTML;
    }
  }

  /** What the children contribute, regrouped: the plain texts join to all plain
      leaves, and without those the others join to all HTML leaves. */
  ghost predicate Regrouped(decode: Decoder, children: seq<Part>) {
    var (plain, html) := ChildTexts(decode, children);
    && Join(plain, '\n') == Join(LeavesOf(decode, children, PLAIN), '\n')
    && (plain == [] <==> LeavesOf(decode, children, PLAIN) == [])
    && (plain == [] ==>
         && Join(html, '\n') == Join(LeavesOf(decode, children, HTML), '\n')
         && (html == [] <==> LeavesOf(decode, children, HTML) == []))
  }

  lemma {:induction false} ChildTextsAreFlat(decode: Decoder, children: seq<Part>)
    ensures Regrouped(decode, children)
    decreases children
  {
    if children != [] {
      var n := |children| - 1;
      ChildTextsAreFlat(decode, children[..n]);
      PartTextIsFlat(decode, children[n]);
      OneMoreChild(decode, children);
    }
  }

  lemma OneMoreChild(decode: Decoder, children: seq<Part>)
    requires children != [] && Regrouped(decode, children[..|children| - 1])
    requires var p := children[|children| - 1];
             && PartText(decode, p).0 == FlatText(decode, p)
             && (PartText(decode, p).1 <==> Leaves(decode, p, PLAIN) != [] || (p.Part? && p.mime == PLAIN))
    ensures Regrouped(decode, children)
  {
    var n := |children| - 1;
    var p := children[n];
    var (plain, html) := ChildTexts(decode, children[..n]);
    var text := PartText(decode, p).0;
    var plainLeaves, htmlLeaves := Leaves(decode, p, PLAIN), Leaves(decode, p, HTML);
    LeavesNonEmpty(decode, p, PLAIN);
    LeavesNonEmpty(decode, p, HTML);
    JoinNonEmpty(plainLeaves, '\n');
    JoinNonEmpty(htmlLeaves, '\n');
    JoinAppend(plain, [text], '\n');
    JoinAppend(html, [text], '\n');
    JoinAppend(LeavesOf(decode, children[..n], PLAIN), plainLeaves, '\n');
    JoinAppend(LeavesOf(decode, children[..n], HTML), htmlLeaves, '\n');
    assert PLAIN != HTML;
    if p.Part? && p.mime == PLAIN { assert htmlLeaves == []; }
  }
}
