/**
 * The visible characters of a preview, each with the elements around it, and what collapsing the
 * whitespace of `frontend/src/app/shared/markdown/markdown-preview.ts` makes of them.
 */
module PreviewGlyphs {
  import opened PreviewText
  import opened Sequences

  datatype Tag = Tag(name: string, attributes: map<string, string>)

  /** A visible character with the elements around it, outermost first. */
  datatype Glyph = Glyph(letter: char, within: seq<Tag>)

  function GlyphsOfText(text: string, path: seq<Tag>): (r: seq<Glyph>)
    ensures |r| == |text|
  {
    seq(|text|, i requires 0 <= i < |text| => Glyph(text[i], path))
  }

  /** The text nodes' characters, in order, each node within its own elements. */
  function Placed(texts: seq<string>, paths: seq<seq<Tag>>): seq<Glyph>
    requires |texts| == |paths|
  {
    if texts == [] then []
    else
      var n := |texts| - 1;
      Placed(texts[..n], paths[..n]) + GlyphsOfText(texts[n], paths[n])
  }

  lemma {:induction false} PlacedConcat(a: seq<string>, b: seq<string>, p: seq<seq<Tag>>, q: seq<seq<Tag>>)
    requires |a| == |p| && |b| == |q|
    ensures Placed(a + b, p + q) == Placed(a, p) + Placed(b, q)
    decreases |b|
  {
    if b == [] {
      assert a + b == a && p + q == p;
    } else {
      var n := |b| - 1;
      assert (a + b)[..|a + b| - 1] == a + b[..n] && (p + q)[..|a + b| - 1] == p + q[..n];
      PlacedConcat(a, b[..n], p, q[..n]);
      Associate(Placed(a, p), Placed(b[..n], q[..n]), GlyphsOfText(b[n], q[n]));
    }
  }

  lemma PlacedLast(texts: seq<string>, paths: seq<seq<Tag>>, n: nat)
    requires |texts| == |paths| == n + 1
    ensures Placed(texts, paths) == Placed(texts[..n], paths[..n]) + GlyphsOfText(texts[n], paths[n])
  {
  }

  lemma PlacedOne(text: string, path: seq<Tag>)
    ensures Placed([text], [path]) == GlyphsOfText(text, path)
  {
    assert [text][..0] == [] && [path][..0] == [];
  }

  /** The characters spell out the joined texts. */
  lemma {:induction false} PlacedSpells(texts: seq<string>, paths: seq<seq<Tag>>)
    requires |texts| == |paths|
    ensures |Placed(texts, paths)| == |Join(texts)|
    ensures forall i :: 0 <= i < |Join(texts)| ==> Placed(texts, paths)[i].letter == Join(texts)[i]
  {
    hide Join;
    if texts == [] {
      JoinOne([]);
    } else {
      var n := |texts| - 1;
      assert texts[..n + 1] == texts;
      PlacedSpells(texts[..n], paths[..n]);
      JoinNext(texts, n);
    }
  }

  // ------------------------------------------------------------------ collapsing

  function AfterGlyphs(shown: seq<Glyph>, afterSpace: bool): bool {
    if shown == [] then afterSpace else IsSpace(shown[|shown| - 1].letter)
  }

  /** Of a run of whitespace the first character stays, as a space and where it is. */
  function SqueezeGlyphs(shown: seq<Glyph>, afterSpace: bool): seq<Glyph> {
    if shown == [] then []
    else if !IsSpace(shown[0].letter) then [shown[0]] + SqueezeGlyphs(shown[1..], false)
    else if afterSpace then SqueezeGlyphs(shown[1..], true)
    else [shown[0].(letter := ' ')] + SqueezeGlyphs(shown[1..], true)
  }

  function TrimGlyphs(shown: seq<Glyph>): seq<Glyph> {
    if shown != [] && IsSpace(shown[|shown| - 1].letter) then TrimGlyphs(shown[..|shown| - 1]) else shown
  }

  /** What is shown of some characters on one line: each survivor stays within its elements. */
  function OneLineGlyphs(shown: seq<Glyph>): seq<Glyph> {
    TrimGlyphs(SqueezeGlyphs(shown, true))
  }

  function SqueezeFirstGlyph(first: Glyph, afterSpace: bool): seq<Glyph> {
    if !IsSpace(first.letter) then [first] else if afterSpace then [] else [first.(letter := ' ')]
  }

  lemma GlyphsFirst(shown: seq<Glyph>, afterSpace: bool)
    requires shown != []
    ensures SqueezeGlyphs(shown, afterSpace)
      == SqueezeFirstGlyph(shown[0], afterSpace) + SqueezeGlyphs(shown[1..], IsSpace(shown[0].letter))
  {
    hide IsSpace;
  }

  lemma AfterGlyphsConcat(a: seq<Glyph>, b: seq<Glyph>, afterSpace: bool)
    ensures AfterGlyphs(a + b, afterSpace) == AfterGlyphs(b, AfterGlyphs(a, afterSpace))
  {
    hide IsSpace;
    if b == [] { assert a + b == a; }
  }

  lemma {:induction false} SqueezeGlyphsConcat(a: seq<Glyph>, b: seq<Glyph>, afterSpace: bool)
    ensures SqueezeGlyphs(a + b, afterSpace)
      == SqueezeGlyphs(a, afterSpace) + SqueezeGlyphs(b, AfterGlyphs(a, afterSpace))
    decreases |a|
  {
    hide IsSpace, SqueezeFirstGlyph;
    if a == [] {
      assert a + b == b;
    } else {
      AfterGlyphsConcat(a[..1], a[1..], afterSpace);
      assert a == a[..1] + a[1..];
      var first, space := SqueezeFirstGlyph(a[0], afterSpace), IsSpace(a[0].letter);
      assert AfterGlyphs(a[..1], afterSpace) == space;
      hide SqueezeGlyphs, AfterGlyphs;
      assert (a + b)[0] == a[0] && (a + b)[1..] == a[1..] + b;
      GlyphsFirst(a + b, afterSpace);
      GlyphsFirst(a, afterSpace);
      SqueezeGlyphsConcat(a[1..], b, space);
      Associate(first, SqueezeGlyphs(a[1..], space), SqueezeGlyphs(b, AfterGlyphs(a, afterSpace)));
    }
  }

  lemma {:induction false} SqueezeOfText(text: string, path: seq<Tag>, afterSpace: bool)
    ensures SqueezeGlyphs(GlyphsOfText(text, path), afterSpace) == GlyphsOfText(Squeeze(text, afterSpace), path)
    decreases |text|
  {
    hide IsSpace;
    if text == [] {
    } else {
      var shown := GlyphsOfText(text, path);
      assert shown[1..] == GlyphsOfText(text[1..], path);
      SqueezeFirst(text, afterSpace);
      GlyphsFirst(shown, afterSpace);
      SqueezeOfText(text[1..], path, IsSpace(text[0]));
      OneCharPlaced(text[0], path, afterSpace);
      PlacedText(SqueezeOneChar(text[0], afterSpace), Squeeze(text[1..], IsSpace(text[0])), path);
      hide Squeeze, SqueezeGlyphs, SqueezeOneChar, SqueezeFirstGlyph, GlyphsOfText;
    }
  }

  lemma OneCharPlaced(c: char, path: seq<Tag>, afterSpace: bool)
    ensures SqueezeFirstGlyph(Glyph(c, path), afterSpace) == GlyphsOfText(SqueezeOneChar(c, afterSpace), path)
  {
    hide IsSpace;
  }

  lemma PlacedText(a: string, b: string, path: seq<Tag>)
    ensures GlyphsOfText(a + b, path) == GlyphsOfText(a, path) + GlyphsOfText(b, path)
  {
  }

  lemma PlacedAfter(texts: seq<string>, paths: seq<seq<Tag>>, afterSpace: bool)
    requires |texts| == |paths|
    ensures AfterGlyphs(Placed(texts, paths), afterSpace) == After(Join(texts), afterSpace)
  {
    hide Placed, Join, IsSpace;
    PlacedSpells(texts, paths);
  }

  /** Collapsing the texts one by one is collapsing the characters, wherever the texts are. */
  lemma {:induction false} PlacedSqueezed(texts: seq<string>, paths: seq<seq<Tag>>)
    requires |texts| == |paths|
    ensures Placed(Squeezed(texts), paths) == SqueezeGlyphs(Placed(texts, paths), true)
  {
    hide Join, Squeeze, After, AfterGlyphs, GlyphsOfText, SqueezeGlyphs, Squeezed, Placed;
    if texts == [] {
      NothingShown();
    } else {
      var n := |texts| - 1;
      PlacedLast(texts, paths, n);
      var last := Squeeze(texts[n], After(Join(texts[..n]), true));
      assert texts[..n + 1] == texts && paths == paths[..n] + [paths[n]];
      SqueezedNext(texts, n);
      PlacedSqueezed(texts[..n], paths[..n]);
      PlacedConcat(Squeezed(texts[..n]), [last], paths[..n], [paths[n]]);
      PlacedOne(last, paths[n]);
      PlacedAfter(texts[..n], paths[..n], true);
      SqueezeGlyphsConcat(Placed(texts[..n], paths[..n]), GlyphsOfText(texts[n], paths[n]), true);
      SqueezeOfText(texts[n], paths[n], After(Join(texts[..n]), true));
    }
  }

  lemma NothingShown()
    ensures SqueezeGlyphs([], true) == [] && TrimGlyphs([]) == [] && Squeezed([]) == [] && TrimTail([]) == []
    ensures Placed([], []) == []
  {
  }

  // ------------------------------------------------------------------ trimming

  predicate AllSpaceGlyphs(shown: seq<Glyph>) {
    forall i :: 0 <= i < |shown| ==> IsSpace(shown[i].letter)
  }

  lemma {:induction false} TrimGlyphsConcat(a: seq<Glyph>, b: seq<Glyph>)
    ensures TrimGlyphs(a + b) == if AllSpaceGlyphs(b) then TrimGlyphs(a) else a + TrimGlyphs(b)
    decreases |b|
  {
    hide IsSpace;
    if b == [] {
      assert a + b == a;
    } else {
      var n := |b| - 1;
      assert (a + b)[..|a + b| - 1] == a + b[..n];
      TrimGlyphsConcat(a, b[..n]);
    }
  }

  lemma {:induction false} TrimOfText(text: string, path: seq<Tag>)
    ensures TrimGlyphs(GlyphsOfText(text, path)) == GlyphsOfText(TrimEnd(text), path)
    decreases |text|
  {
    hide IsSpace;
    if text == [] {
    } else {
      var n := |text| - 1;
      assert GlyphsOfText(text, path)[..n] == GlyphsOfText(text[..n], path);
      TrimOfText(text[..n], path);
    }
  }

  lemma SpacesPlaced(text: string, path: seq<Tag>)
    ensures AllSpaceGlyphs(GlyphsOfText(text, path)) <==> TrimEnd(text) == []
  {
    TrimEndEmpty(text);
    hide IsSpace, TrimEnd;
    var shown := GlyphsOfText(text, path);
    if AllSpaceGlyphs(shown) {
      forall i | 0 <= i < |text| ensures IsSpace(text[i]) { assert IsSpace(shown[i].letter); }
    }
  }

  /** Trimming the texts from the last one back is trimming the characters. */
  lemma {:induction false} PlacedTrimmed(texts: seq<string>, paths: seq<seq<Tag>>)
    requires |texts| == |paths|
    ensures Placed(TrimTail(texts), paths) == TrimGlyphs(Placed(texts, paths))
    decreases |texts|
  {
    hide TrimEnd, GlyphsOfText, TrimGlyphs, TrimTail, Placed, AllSpaceGlyphs;
    if texts == [] {
      NothingShown();
    } else {
      var n := |texts| - 1;
      PlacedLast(texts, paths, n);
      var last := TrimEnd(texts[n]);
      assert texts[..n + 1] == texts && paths == paths[..n] + [paths[n]];
      TrimTailAt(texts, n);
      TrimGlyphsConcat(Placed(texts[..n], paths[..n]), GlyphsOfText(texts[n], paths[n]));
      TrimOfText(texts[n], paths[n]);
      SpacesPlaced(texts[n], paths[n]);
      PlacedOne(last, paths[n]);
      if last != [] {
        PlacedConcat(texts[..n], [last], paths[..n], [paths[n]]);
      } else {
        PlacedTrimmed(texts[..n], paths[..n]);
        PlacedConcat(TrimTail(texts[..n]), [[]], paths[..n], [paths[n]]);
        EmptyPlaced(paths[n]);
      }
    }
  }

  lemma EmptyPlaced(path: seq<Tag>)
    ensures GlyphsOfText([], path) == []
  {
  }
}
