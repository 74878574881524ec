/** The page's tag input: free text split into a tag list, and the tag list
    joined back into text when an edit form is pre-filled. */
module Tags {
  import opened Text

  /** One character of the class `[,、\s]`: an ASCII comma, the ideographic
      comma U+3001, or JavaScript whitespace. */
  predicate IsSeparator(c: char) {
    c == ',' || c == '\U{3001}' || IsWhitespace(c)
  }

  predicate SeparatorFree(s: string) {
    forall k :: 0 <= k < |s| ==> !IsSeparator(s[k])
  }

  /** A tag as it can come out of parsing: non-empty and separator-free. */
  predicate IsTag(s: string) {
    s != [] && SeparatorFree(s)
  }

  /** Every piece of a list is separator-free. */
  predicate PiecesSeparatorFree(pieces: seq<string>) {
    forall i :: 0 <= i < |pieces| ==> SeparatorFree(pieces[i])
  }

  predicate AllTags(tags: seq<string>) {
    forall i :: 0 <= i < |tags| ==> IsTag(tags[i])
  }

  /** `s.split(/[,、\s]+/)`: the pieces between maximal runs of separators.
      As in JavaScript, there is always at least one piece and a leading run
      yields an empty first piece; `SplitTrailingSeparator` shows that a
      trailing run yields an empty last piece. */
  function SplitRuns(s: string): (r: seq<string>)
    ensures |r| >= 1
    ensures s != [] && IsSeparator(s[0]) ==> r[0] == []
  {
    if s == [] then [[]]
    else
      var rest := SplitRuns(s[1..]);
      if !IsSeparator(s[0]) then [[s[0]] + rest[0]] + rest[1..]
      else if |s| > 1 && IsSeparator(s[1]) then rest
      else [[]] + rest
  }

  /** A trailing separator run yields an empty last piece, after at least
      one other piece. */
  lemma {:induction false} SplitTrailingSeparator(s: string)
    requires s != [] && IsSeparator(s[|s| - 1])
    ensures var r := SplitRuns(s); |r| >= 2 && r[|r| - 1] == []
  {
    if |s| > 1 {
      assert s[1..][|s| - 2] == s[|s| - 1];
      SplitTrailingSeparator(s[1..]);
    }
  }

  /** No piece of a split contains a separator. */
  lemma {:induction false} SplitPiecesAreSeparatorFree(s: string)
    ensures PiecesSeparatorFree(SplitRuns(s))
  {
    if s != [] {
      SplitPiecesAreSeparatorFree(s[1..]);
      var rest := SplitRuns(s[1..]);
      if !IsSeparator(s[0]) {
        assert SeparatorFree([s[0]] + rest[0]);
      }
    }
  }

  /** `.map((tag) => tag.trim())` */
  function TrimEach(pieces: seq<string>): seq<string> {
    seq(|pieces|, i requires 0 <= i < |pieces| => Trim(pieces[i]))
  }

  /** `.filter(Boolean)` on strings: keeps the non-empty pieces, in order. */
  function DropEmpty(pieces: seq<string>): (r: seq<string>)
    ensures |r| <= |pieces|
  {
    if pieces == [] then []
    else (if pieces[0] == [] then [] else [pieces[0]]) + DropEmpty(pieces[1..])
  }

  /** The tag list the page derives from a tag text field:
      `s.split(/[,、\s]+/).map((tag) => tag.trim()).filter(Boolean)`. */
  function ParseTags(s: string): seq<string> {
    DropEmpty(TrimEach(SplitRuns(s)))
  }

  /** `tags.join(' ')` */
  function JoinWithSpace(tags: seq<string>): string {
    if tags == [] then []
    else if |tags| == 1 then tags[0]
    else tags[0] + [' '] + JoinWithSpace(tags[1..])
  }

  /** The concatenation of a list of strings. */
  function Flatten(pieces: seq<string>): string {
    if pieces == [] then [] else pieces[0] + Flatten(pieces[1..])
  }

  /** The text with every separator character removed. */
  function RemoveSeparators(s: string): string {
    if s == [] then []
    else (if IsSeparator(s[0]) then [] else [s[0]]) + RemoveSeparators(s[1..])
  }

  /** Split pieces never hold whitespace, so trimming them changes nothing. */
  lemma TrimEachSeparatorFree(pieces: seq<string>)
    requires PiecesSeparatorFree(pieces)
    ensures TrimEach(pieces) == pieces
  {
    forall i | 0 <= i < |pieces|
      ensures TrimEach(pieces)[i] == pieces[i]
    {
      TrimNoWhitespace(pieces[i]);
    }
  }

  lemma {:induction false} DropEmptyKeepsSeparatorFree(pieces: seq<string>)
    requires PiecesSeparatorFree(pieces)
    ensures AllTags(DropEmpty(pieces))
  {
    if pieces != [] {
      DropEmptyKeepsSeparatorFree(pieces[1..]);
    }
  }

  /** Every parsed tag is non-empty and contains no comma, ideographic
      comma or whitespace. */
  lemma ParseTagsYieldsTags(s: string)
    ensures AllTags(ParseTags(s))
  {
    ParseTagsDropsEmptyPieces(s);
    SplitPiecesAreSeparatorFree(s);
    DropEmptyKeepsSeparatorFree(SplitRuns(s));
  }

  /** Parsing is splitting followed by dropping the empty pieces. */
  lemma ParseTagsDropsEmptyPieces(s: string)
    ensures ParseTags(s) == DropEmpty(SplitRuns(s))
  {
    SplitPiecesAreSeparatorFree(s);
    TrimEachSeparatorFree(SplitRuns(s));
  }

  lemma {:induction false} DropEmptyAppend(a: seq<string>, b: seq<string>)
    ensures DropEmpty(a + b) == DropEmpty(a) + DropEmpty(b)
  {
    if a == [] {
      assert a + b == b;
    } else {
      var head: seq<string> := if a[0] == [] then [] else [a[0]];
      assert (a + b)[0] == a[0] && (a + b)[1..] == a[1..] + b;
      assert DropEmpty(a + b) == head + DropEmpty(a[1..] + b);
      DropEmptyAppend(a[1..], b);
      assert DropEmpty(a) == head + DropEmpty(a[1..]);
    }
  }

  lemma {:induction false} FlattenDropEmpty(pieces: seq<string>)
    ensures Flatten(DropEmpty(pieces)) == Flatten(pieces)
  {
    if pieces != [] {
      FlattenDropEmpty(pieces[1..]);
      if pieces[0] != [] {
        assert ([pieces[0]] + DropEmpty(pieces[1..]))[1..] == DropEmpty(pieces[1..]);
      } else {
        assert DropEmpty(pieces) == DropEmpty(pieces[1..]);
        assert Flatten(pieces) == Flatten(pieces[1..]);
      }
    }
  }

  /** Splitting a text that starts with a separator-free word `w` glues `w`
      onto the first piece of the rest. */
  lemma {:induction false} SplitAfterWord(w: string, x: string)
    requires SeparatorFree(w)
    ensures SplitRuns(w + x) == [w + SplitRuns(x)[0]] + SplitRuns(x)[1..]
  {
    if w == [] {
      assert w + x == x;
      assert w + SplitRuns(x)[0] == SplitRuns(x)[0];
      assert SplitRuns(x) == [SplitRuns(x)[0]] + SplitRuns(x)[1..];
    } else {
      assert (w + x)[1..] == w[1..] + x;
      SplitAfterWord(w[1..], x);
      assert [w[0]] + (w[1..] + SplitRuns(x)[0]) == w + SplitRuns(x)[0];
    }
  }

  /** A separator in front of a text only contributes empty pieces. */
  lemma SplitAfterSeparator(c: char, x: string)
    requires IsSeparator(c)
    ensures DropEmpty(SplitRuns([c] + x)[1..]) == DropEmpty(SplitRuns(x))
  {
    assert ([c] + x)[1..] == x;
    var rest := SplitRuns(x);
    if x != [] && IsSeparator(x[0]) {
      assert rest == [rest[0]] + rest[1..];
      DropEmptyAppend([rest[0]], rest[1..]);
    }
  }

  /** A separator-free word followed by a separator parses to the word's
      tags followed by the tags of what comes after. */
  lemma WordThenSeparator(w: string, c: char, x: string)
    requires SeparatorFree(w) && IsSeparator(c)
    ensures DropEmpty(SplitRuns(w + [c] + x)) == DropEmpty([w]) + DropEmpty(SplitRuns(x))
  {
    var tail := SplitRuns([c] + x);
    assert w + [c] + x == w + ([c] + x);
    SplitAfterWord(w, [c] + x);
    assert w + tail[0] == w;
    DropEmptyAppend([w], tail[1..]);
    SplitAfterSeparator(c, x);
  }

  /** Length of the longest separator-free prefix. */
  function SeparatorFreePrefix(s: string): (k: nat)
    ensures k <= |s| && SeparatorFree(s[..k])
    ensures k < |s| ==> IsSeparator(s[k])
  {
    if s == [] || IsSeparator(s[0]) then 0
    else
      var k := 1 + SeparatorFreePrefix(s[1..]);
      assert s[..k] == [s[0]] + s[1..][..k - 1];
      k
  }

  /** A separator-free word parses to itself, or to nothing when empty. */
  lemma ParseWord(w: string)
    requires SeparatorFree(w)
    ensures ParseTags(w) == if w == [] then [] else [w]
  {
    ParseTagsDropsEmptyPieces(w);
    SplitWord(w);
    assert [w][1..] == [];
  }

  lemma SplitWord(w: string)
    requires SeparatorFree(w)
    ensures SplitRuns(w) == [w]
  {
    SplitAfterWord(w, []);
    assert w + [] == w;
  }

  /** One step of the proof below: peeling off the first word. */
  lemma CutAfterFirstWord(w: string, d: char, x: string, c: char, y: string)
    requires SeparatorFree(w) && IsSeparator(d)
    requires DropEmpty(SplitRuns(x + [c] + y)) == DropEmpty(SplitRuns(x)) + DropEmpty(SplitRuns(y))
    ensures DropEmpty(SplitRuns(w + [d] + x + [c] + y))
         == DropEmpty(SplitRuns(w + [d] + x)) + DropEmpty(SplitRuns(y))
  {
    Regroup(w, d, x, c, y);
    WordThenSeparator(w, d, x + [c] + y);
    WordThenSeparator(w, d, x);
  }

  lemma Regroup(w: string, d: char, x: string, c: char, y: string)
    ensures w + [d] + x + [c] + y == w + [d] + (x + [c] + y)
  {
  }

  /** Dropping the empty pieces of a split, for texts cut at a separator. */
  lemma {:induction false} TokensSplitAtSeparator(a: string, c: char, b: string)
    requires IsSeparator(c)
    ensures DropEmpty(SplitRuns(a + [c] + b)) == DropEmpty(SplitRuns(a)) + DropEmpty(SplitRuns(b))
    decreases |a|
  {
    var k := SeparatorFreePrefix(a);
    var w := a[..k];
    if k == |a| {
      assert a == w;
      WordThenSeparator(w, c, b);
      SplitWord(w);
    } else {
      var d, a' := a[k], a[k + 1..];
      assert a[k..] == [d] + a';
      assert a == w + a[k..];
      assert a == w + [d] + a';
      TokensSplitAtSeparator(a', c, b);
      CutAfterFirstWord(w, d, a', c, b);
    }
  }

  /** Any single separator cuts the text into two independently parsed
      halves: this is why tags keep their input order and duplicates are
      kept. */
  lemma ParseSplitsAtSeparator(a: string, c: char, b: string)
    requires IsSeparator(c)
    ensures ParseTags(a + [c] + b) == ParseTags(a) + ParseTags(b)
  {
    ParseTagsDropsEmptyPieces(a + [c] + b);
    ParseTagsDropsEmptyPieces(a);
    ParseTagsDropsEmptyPieces(b);
    TokensSplitAtSeparator(a, c, b);
  }

  /** A leading separator contributes no tag. */
  lemma ParseLeadingSeparator(c: char, b: string)
    requires IsSeparator(c)
    ensures ParseTags([c] + b) == ParseTags(b)
  {
    ParseSplitsAtSeparator([], c, b);
    assert [] + [c] + b == [c] + b;
    ParseWord([]);
  }

  lemma {:induction false} FlattenSplitRuns(s: string)
    ensures Flatten(SplitRuns(s)) == RemoveSeparators(s)
  {
    if s != [] {
      FlattenSplitRuns(s[1..]);
      var rest := SplitRuns(s[1..]);
      if !IsSeparator(s[0]) {
        assert ([[s[0]] + rest[0]] + rest[1..])[1..] == rest[1..];
        assert rest == [rest[0]] + rest[1..];
        assert Flatten(rest) == rest[0] + Flatten(rest[1..]);
      } else if !(|s| > 1 && IsSeparator(s[1])) {
        assert ([[]] + rest)[1..] == rest;
      }
    }
  }

  /** Parsing loses nothing but separators: the tags, concatenated in order,
      are the input text with its separators removed. */
  lemma ParseKeepsText(s: string)
    ensures Flatten(ParseTags(s)) == RemoveSeparators(s)
  {
    ParseTagsDropsEmptyPieces(s);
    FlattenDropEmpty(SplitRuns(s));
    FlattenSplitRuns(s);
  }

  /** Round trip of the edit form: a well-formed tag list joined with spaces
      parses back to the same list. */
  lemma {:induction false} ParseJoinRoundTrip(tags: seq<string>)
    requires AllTags(tags)
    ensures ParseTags(JoinWithSpace(tags)) == tags
  {
    if tags == [] {
      ParseWord([]);
    } else if |tags| == 1 {
      ParseWord(tags[0]);
    } else {
      ParseSplitsAtSeparator(tags[0], ' ', JoinWithSpace(tags[1..]));
      ParseWord(tags[0]);
      ParseJoinRoundTrip(tags[1..]);
    }
  }

  /** Re-parsing the joined result of a parse changes nothing, so saving an
      unchanged edit form a second time is a no-op on the tags. */
  lemma ParseIsIdempotent(s: string)
    ensures ParseTags(JoinWithSpace(ParseTags(s))) == ParseTags(s)
  {
    ParseTagsYieldsTags(s);
    ParseJoinRoundTrip(ParseTags(s));
  }

  /** Example: the text "a, b<U+3000>c,,d" (a comma and a space, an
      ideographic space, two commas) parses to ["a", "b", "c", "d"], for any
      four tags a, b, c and d. */
  lemma ParseExample(a: string, b: string, c: string, d: string)
    requires IsTag(a) && IsTag(b) && IsTag(c) && IsTag(d)
    ensures ParseTags(a + [','] + ([' '] + (b + ['\U{3000}'] + (c + [','] + ([','] + d)))))
         == [a, b, c, d]
  {
    var rest := [' '] + (b + ['\U{3000}'] + (c + [','] + ([','] + d)));
    ExampleTail(b, c, d);
    ParseSplitsAtSeparator(a, ',', rest);
    ParseWord(a);
  }

  lemma ExampleTail(b: string, c: string, d: string)
    requires IsTag(b) && IsTag(c) && IsTag(d)
    ensures ParseTags([' '] + (b + ['\U{3000}'] + (c + [','] + ([','] + d)))) == [b, c, d]
  {
    ParseLeadingSeparator(' ', b + ['\U{3000}'] + (c + [','] + ([','] + d)));
    ExampleMiddle(b, c, d);
  }

  lemma ExampleMiddle(b: string, c: string, d: string)
    requires IsTag(b) && IsTag(c) && IsTag(d)
    ensures ParseTags(b + ['\U{3000}'] + (c + [','] + ([','] + d))) == [b, c, d]
  {
    ParseSplitsAtSeparator(b, '\U{3000}', c + [','] + ([','] + d));
    ParseWord(b);
    ExampleLast(c, d);
  }

  lemma ExampleLast(c: string, d: string)
    requires IsTag(c) && IsTag(d)
    ensures ParseTags(c + [','] + ([','] + d)) == [c, d]
  {
    ParseSplitsAtSeparator(c, ',', [','] + d);
    ParseLeadingSeparator(',', d);
    ParseWord(c);
    ParseWord(d);
  }
}
