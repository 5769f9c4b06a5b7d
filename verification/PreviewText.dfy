/**
 * Strings as the preview treats them: JavaScript whitespace, its collapsing and trimming, and the
 * cut of one text, `clip` of `frontend/src/app/shared/markdown/markdown-preview.ts`.
 */
module PreviewText {
  import opened Sequences

  /** What `\s` matches and `trimEnd` removes. */
  predicate IsSpace(c: char) {
    c in {' ', '\t', '\n', '\r'} || c in {'\U{000B}', '\U{000C}', '\U{00A0}', '\U{1680}', '\U{2028}', '\U{2029}',
        '\U{202F}', '\U{205F}', '\U{3000}', '\U{FEFF}'}
    || '\U{2000}' <= c <= '\U{200A}'
  }

  /** The white space and line terminators of sections 12.2 and 12.3 of ECMA-262, by code point. */
  lemma SpacesAre(c: char)
    ensures IsSpace(c) <==>
      c as int in {9, 10, 11, 12, 13, 32, 160, 5760, 8232, 8233, 8239, 8287, 12288, 65279} || 8192 <= c as int <= 8202
  {
  }

  function DropSpaces(s: string): (r: string)
    ensures |r| <= |s|
  {
    if s != [] && IsSpace(s[0]) then DropSpaces(s[1..]) else s
  }

  /** `replace(/\s+/g, ' ')`: every run of whitespace becomes one space. */
  function Collapsed(s: string): string
    decreases |s|
  {
    if s == [] then []
    else if IsSpace(s[0]) then [' '] + Collapsed(DropSpaces(s[1..]))
    else [s[0]] + Collapsed(s[1..])
  }

  /** `replace(/\s+$/, '')`, which is also `trimEnd`. */
  function TrimEnd(s: string): (r: string)
    ensures r <= s && (r != [] ==> !IsSpace(r[|r| - 1]))
    ensures forall i :: |r| <= i < |s| ==> IsSpace(s[i])
  {
    if s != [] && IsSpace(s[|s| - 1]) then TrimEnd(s[..|s| - 1]) else s
  }

  /** The trimmed text with its whitespace runs collapsed: what a browser shows of it on one line. */
  function OneLine(s: string): string {
    TrimEnd(DropSpaces(Collapsed(s)))
  }

  lemma {:induction false} DropSpacesIs(s: string)
    ensures var i := |s| - |DropSpaces(s)|;
      && DropSpaces(s) == s[i..] && (forall k :: 0 <= k < i ==> IsSpace(s[k])) && (i < |s| ==> !IsSpace(s[i]))
  {
    hide IsSpace;
    if s != [] && IsSpace(s[0]) { DropSpacesIs(s[1..]); }
  }

  // ------------------------------------------------------------------ the same, one character at a time

  /** Collapsing with the memory of whether the last visible character was a space. */
  function Squeeze(s: string, afterSpace: bool): string {
    if s == [] then []
    else if !IsSpace(s[0]) then [s[0]] + Squeeze(s[1..], false)
    else if afterSpace then Squeeze(s[1..], true)
    else [' '] + Squeeze(s[1..], true)
  }

  function After(s: string, afterSpace: bool): bool {
    if s == [] then afterSpace else IsSpace(s[|s| - 1])
  }

  /** What one character comes to. */
  function SqueezeOneChar(c: char, afterSpace: bool): string {
    if !IsSpace(c) then [c] else if afterSpace then [] else [' ']
  }

  lemma SqueezeFirst(s: string, afterSpace: bool)
    requires s != []
    ensures Squeeze(s, afterSpace) == SqueezeOneChar(s[0], afterSpace) + Squeeze(s[1..], IsSpace(s[0]))
  {
    hide IsSpace;
  }

  lemma {:induction false} SqueezeConcat(s: string, t: string, afterSpace: bool)
    ensures Squeeze(s + t, afterSpace) == Squeeze(s, afterSpace) + Squeeze(t, After(s, afterSpace))
    decreases |s|
  {
    hide IsSpace, SqueezeOneChar;
    if s == [] {
      assert s + t == t;
    } else {
      hide Squeeze;
      var first, space := SqueezeOneChar(s[0], afterSpace), IsSpace(s[0]);
      assert (s + t)[0] == s[0] && (s + t)[1..] == s[1..] + t;
      SqueezeFirst(s + t, afterSpace);
      SqueezeFirst(s, afterSpace);
      SqueezeConcat(s[1..], t, space);
      Associate(first, Squeeze(s[1..], space), Squeeze(t, After(s, afterSpace)));
      assert After(s[1..], space) == After(s, afterSpace);
    }
  }

  lemma AfterConcat(s: string, t: string, afterSpace: bool)
    ensures After(s + t, afterSpace) == After(t, After(s, afterSpace))
  {
    if t == [] { assert s + t == s; }
  }

  lemma {:induction false} SqueezeAfterSpace(s: string)
    ensures Squeeze(s, true) == Squeeze(DropSpaces(s), false) == Squeeze(DropSpaces(s), true)
  {
    if s == [] {
    } else if IsSpace(s[0]) {
      SqueezeAfterSpace(s[1..]);
    }
  }

  lemma {:induction false} CollapsedIs(s: string)
    ensures Collapsed(s) == Squeeze(s, false)
    decreases |s|
  {
    if s == [] {
    } else {
      if IsSpace(s[0]) {
        CollapsedIs(DropSpaces(s[1..]));
        SqueezeAfterSpace(s[1..]);
      } else {
        CollapsedIs(s[1..]);
      }
    }
  }

  lemma {:induction false} NoDoubleSpace(s: string, afterSpace: bool)
    ensures var r := Squeeze(s, afterSpace);
      && (r != [] && afterSpace ==> !IsSpace(r[0]))
      && (forall i :: 0 <= i < |r| - 1 ==> !(IsSpace(r[i]) && IsSpace(r[i + 1])))
      && (forall i :: 0 <= i < |r| && IsSpace(r[i]) ==> r[i] == ' ')
      && (if r == [] then (s == [] || afterSpace) && (s != [] ==> After(s, afterSpace))
          else IsSpace(r[|r| - 1]) == After(s, afterSpace))
  {
    if s == [] {
    } else {
      assert IsSpace(' ');
      hide IsSpace;
      NoDoubleSpace(s[1..], IsSpace(s[0]));
      assert After(s, afterSpace) == After(s[1..], IsSpace(s[0]));
    }
  }

  /** What the first loop of `collapseWhitespace` makes of one text, as it computes it. */
  function SqueezeText(s: string, afterSpace: bool): string {
    var text := Collapsed(s);
    if afterSpace && text != [] && text[0] == ' ' then text[1..] else text
  }

  lemma SqueezeTextIs(s: string, afterSpace: bool)
    ensures var text := SqueezeText(s, afterSpace);
      && text == Squeeze(s, afterSpace)
      && (if text != [] then text[|text| - 1] == ' ' else afterSpace) == After(s, afterSpace)
  {
    CollapsedIs(s);
    NoDoubleSpace(s, false);
    NoDoubleSpace(s, afterSpace);
  }

  lemma DropSpacesOfCollapsed(s: string)
    ensures DropSpaces(Collapsed(s)) == Squeeze(s, true)
  {
    CollapsedIs(s);
    NoDoubleSpace(s, false);
    NoDoubleSpace(s, true);
    if s != [] && IsSpace(s[0]) {
      var r := Squeeze(s, false);
      assert r == [' '] + Squeeze(s[1..], true);
      assert r[1..] == Squeeze(s[1..], true);
    }
  }

  // ------------------------------------------------------------------ clip

  /** `lastIndexOf(' ')`. */
  function LastSpace(s: string): (k: int)
    ensures -1 <= k < |s| && (k >= 0 ==> s[k] == ' ')
    ensures forall i :: k < i < |s| ==> s[i] != ' '
  {
    if s == [] then -1
    else if s[|s| - 1] == ' ' then |s| - 1
    else LastSpace(s[..|s| - 1])
  }

  /** No two spaces follow each other. */
  ghost predicate SingleSpaced(s: string) {
    forall i :: 0 <= i < |s| - 1 ==> !(IsSpace(s[i]) && IsSpace(s[i + 1]))
  }

  function Slice(text: string, limit: nat): (r: string)
    ensures r <= text && |r| == if limit < |text| then limit else |text|
  {
    text[..if limit < |text| then limit else |text|]
  }

  /**
   * `clip`: a prefix of at most `limit` characters that ends in no space, cut back to the last word
   * boundary exactly when that lies in the back half.  So a long word cannot eat the preview: of a
   * single-spaced text that is too long at least half the limit is kept, and what is kept ends at the
   * limit or at a word boundary.
   */
  function Clip(text: string, limit: nat): (r: string)
    ensures r <= text && |r| <= limit
    ensures r != [] ==> !IsSpace(r[|r| - 1])
    ensures var boundary := LastSpace(Slice(text, limit));
      r == TrimEnd(if 2 * boundary > limit then text[..boundary] else Slice(text, limit))
    ensures |text| > limit && SingleSpaced(text) ==> 2 * |r| + 1 >= limit && (|r| == limit || IsSpace(text[|r|]))
  {
    var slice := Slice(text, limit);
    var lastSpace := LastSpace(slice);
    var r := TrimEnd(if 2 * lastSpace > limit then slice[..lastSpace] else slice);
    HalfKept(text, limit, r);
    assert r <= slice <= text;
    r
  }

  lemma HalfKept(text: string, limit: nat, r: string)
    requires var boundary := LastSpace(Slice(text, limit));
      r == TrimEnd(if 2 * boundary > limit then Slice(text, limit)[..boundary] else Slice(text, limit))
    ensures var boundary := LastSpace(Slice(text, limit)); 2 * boundary > limit ==>
        Slice(text, limit)[..boundary] == text[..boundary]
    ensures |text| > limit && SingleSpaced(text) ==> 2 * |r| + 1 >= limit && (|r| == limit || IsSpace(text[|r|]))
  {
    hide TrimEnd, LastSpace, SingleSpaced;
    var slice := Slice(text, limit);
    var boundary := LastSpace(slice);
    if |text| > limit && SingleSpaced(text) {
      TrimsOne(text, slice, r, if 2 * boundary > limit then boundary else limit);
    }
  }

  lemma SpacesAtEnd(s: string, from: nat, to: nat)
    requires from <= to <= |s| && forall i :: from <= i < to ==> IsSpace(s[i])
    ensures SingleSpaced(s) ==> to <= from + 1
  {
    if from + 1 < to { assert IsSpace(s[from]) && IsSpace(s[from + 1]); }
  }

  /** Trimming a part of a single-spaced text takes off one space at most. */
  lemma TrimsOne(text: string, slice: string, r: string, cut: nat)
    requires SingleSpaced(text) && slice <= text && cut <= |slice| && r == TrimEnd(slice[..cut])
    ensures |r| >= cut - 1 && (|r| < cut ==> IsSpace(text[|r|]))
  {
    hide TrimEnd, IsSpace;
    assert slice[..cut] == text[..cut];
    assert forall i :: |r| <= i < cut ==> text[..cut][i] == text[i];
    SpacesAtEnd(text, |r|, cut);
  }

  // ------------------------------------------------------------------ texts side by side

  function Join(texts: seq<string>): string {
    if texts == [] then [] else texts[0] + Join(texts[1..])
  }

  lemma {:induction false} JoinConcat(a: seq<string>, b: seq<string>)
    ensures Join(a + b) == Join(a) + Join(b)
    decreases |a|
  {
    if a == [] {
      assert a + b == b;
    } else {
      assert (a + b)[1..] == a[1..] + b;
      JoinConcat(a[1..], b);
    }
  }

  lemma JoinNext(texts: seq<string>, i: nat)
    requires i < |texts|
    ensures Join(texts[..i + 1]) == Join(texts[..i]) + texts[i]
  {
    assert texts[..i + 1] == texts[..i] + [texts[i]];
    JoinConcat(texts[..i], [texts[i]]);
    assert Join([texts[i]]) == texts[i];
  }

  predicate AllSpace(s: string) {
    forall i :: 0 <= i < |s| ==> IsSpace(s[i])
  }

  lemma {:induction false} TrimEndConcat(a: string, b: string)
    ensures TrimEnd(a + b) == if AllSpace(b) then TrimEnd(a) else a + TrimEnd(b)
    decreases |b|
  {
    hide IsSpace;
    if b == [] {
      assert a + b == a;
    } else {
      var n := |b| - 1;
      assert (a + b)[..|a + b| - 1] == a + b[..n];
      TrimEndConcat(a, b[..n]);
    }
  }

  lemma {:induction false} TrimEndEmpty(s: string)
    ensures TrimEnd(s) == [] <==> AllSpace(s)
  {
    if s == [] {
    } else if IsSpace(s[|s| - 1]) {
      TrimEndEmpty(s[..|s| - 1]);
    }
  }

  /** How the collapsed texts relate to the originals: each is what is left of its own characters. */
  ghost predicate CollapsedFrom(after: seq<string>, before: seq<string>) {
    && |after| == |before|
    && Join(after) == OneLine(Join(before))
    && forall i :: 0 <= i < |before| ==> after[i] <= Squeeze(before[i], After(Join(before[..i]), true))
  }

  /** `collapseWhitespace` on the text nodes it gathered, in document order. */
  method CollapseTexts(texts: array<string>)
    modifies texts
    ensures CollapsedFrom(texts[..], old(texts[..])) && texts[..] == TrimTail(Squeezed(old(texts[..])))
  {
    ghost var before := texts[..];
    SqueezeTexts(texts);
    ghost var squeezed := texts[..];
    SqueezedIs(before);
    DropSpacesOfCollapsed(Join(before));
    TrimTexts(texts);
    TrimTailIs(squeezed);
    forall i | 0 <= i < |before| ensures texts[i] <= Squeeze(before[i], After(Join(before[..i]), true)) {
      assert texts[i] <= squeezed[i];
    }
  }

  /** Each text collapsed with the memory of what precedes it. */
  function Squeezed(texts: seq<string>): (r: seq<string>)
    ensures |r| == |texts|
  {
    if texts == [] then []
    else
      var n := |texts| - 1;
      Squeezed(texts[..n]) + [Squeeze(texts[n], After(Join(texts[..n]), true))]
  }

  lemma {:induction false} SqueezedIs(texts: seq<string>)
    ensures Join(Squeezed(texts)) == Squeeze(Join(texts), true)
    ensures forall i :: 0 <= i < |texts| ==> Squeezed(texts)[i] == Squeeze(texts[i], After(Join(texts[..i]), true))
  {
    hide Join, Squeeze, After;
    if texts == [] {
      JoinOne([]);
    } else {
      var n := |texts| - 1;
      var last := Squeeze(texts[n], After(Join(texts[..n]), true));
      assert texts[..n + 1] == texts;
      JoinNext(texts, n);
      SqueezedIs(texts[..n]);
      SqueezeConcat(Join(texts[..n]), texts[n], true);
      JoinConcat(Squeezed(texts[..n]), [last]);
      JoinOne(last);
      assert forall i :: 0 <= i < n ==> texts[..n][..i] == texts[..i];
    }
  }

  lemma SqueezedNext(texts: seq<string>, i: nat)
    requires i < |texts|
    ensures Squeezed(texts[..i + 1]) == Squeezed(texts[..i]) + [Squeeze(texts[i], After(Join(texts[..i]), true))]
  {
    hide Join, Squeeze, After;
    assert texts[..i + 1][..i] == texts[..i];
  }

  lemma AfterNext(texts: seq<string>, i: nat)
    requires i < |texts|
    ensures After(Join(texts[..i + 1]), true) == After(texts[i], After(Join(texts[..i]), true))
  {
    hide Join, Squeeze, After;
    JoinNext(texts, i);
    AfterConcat(Join(texts[..i]), texts[i], true);
  }

  /** One turn of the first loop. */
  method SqueezeOne(text: string, afterSpace: bool) returns (r: string, after: bool)
    ensures r == Squeeze(text, afterSpace) && after == After(text, afterSpace)
  {
    hide Squeeze, Collapsed, After;
    SqueezeTextIs(text, afterSpace);
    r, after := Collapsed(text), afterSpace;
    if afterSpace && r != [] && r[0] == ' ' {
      r := r[1..];
    }
    if r == [] {
    } else {
      after := r[|r| - 1] == ' ';
    }
  }

  lemma Replaced(texts: seq<string>, done: seq<string>, rest: seq<string>, text: string)
    requires texts == done + rest && rest != []
    ensures texts[|done| := text] == done + [text] + rest[1..]
  {
  }

  method SqueezeTexts(texts: array<string>)
    modifies texts
    ensures texts[..] == Squeezed(old(texts[..]))
  {
    ghost var before := texts[..];
    var afterSpace := true;
    hide Join, Squeeze, After, Squeezed;
    JoinOne([]);
    for i := 0 to texts.Length
      invariant texts[..] == Squeezed(before[..i]) + before[i..]
      invariant afterSpace == After(Join(before[..i]), true)
    {
      SqueezedNext(before, i);
      AfterNext(before, i);
      ghost var was := texts[..];
      assert texts[i] == was[i] == before[i];
      var text;
      text, afterSpace := SqueezeOne(texts[i], afterSpace);
      texts[i] := text;
      assert texts[..] == was[i := text];
      Replaced(was, Squeezed(before[..i]), before[i..], text);
      assert before[i..][1..] == before[i + 1..];
    }
    assert before[..texts.Length] == before;
  }

  /** Trimming the texts from the last one back to the first that holds more than spaces. */
  function TrimTail(texts: seq<string>): (r: seq<string>)
    ensures |r| == |texts|
  {
    if texts == [] then []
    else
      var n := |texts| - 1;
      if TrimEnd(texts[n]) != [] then texts[..n] + [TrimEnd(texts[n])] else TrimTail(texts[..n]) + [[]]
  }

  lemma {:induction false} TrimTailIs(texts: seq<string>)
    ensures Join(TrimTail(texts)) == TrimEnd(Join(texts))
    ensures forall i :: 0 <= i < |texts| ==> TrimTail(texts)[i] <= texts[i]
    decreases |texts|
  {
    hide Join, TrimEnd, AllSpace;
    if texts == [] {
      JoinOne([]);
    } else {
      var n := |texts| - 1;
      var last := TrimEnd(texts[n]);
      assert texts[..n + 1] == texts;
      JoinNext(texts, n);
      TrimEndConcat(Join(texts[..n]), texts[n]);
      TrimEndEmpty(texts[n]);
      if last != [] {
        assert TrimTail(texts) == texts[..n] + [last];
        JoinOne(last);
        JoinConcat(texts[..n], [last]);
      } else {
        TrimTailIs(texts[..n]);
        assert TrimTail(texts) == TrimTail(texts[..n]) + [[]];
        JoinOne([]);
        JoinConcat(TrimTail(texts[..n]), [[]]);
      }
    }
  }

  lemma JoinOne(text: string)
    ensures Join([text]) == text && Join([]) == [] && TrimEnd([]) == []
    ensures Squeeze([], true) == [] && After([], true) && Squeezed([]) == [] && TrimTail([]) == []
  {
  }

  lemma TrimTailAt(texts: seq<string>, i: nat)
    requires i < |texts|
    ensures var trimmed := TrimEnd(texts[i]);
      TrimTail(texts[..i + 1]) == if trimmed != [] then texts[..i] + [trimmed] else TrimTail(texts[..i]) + [[]]
  {
    hide TrimEnd;
    assert texts[..i + 1][..i] == texts[..i];
  }

  lemma ReplacedLast(done: seq<string>, last: string, rest: seq<string>, text: string)
    ensures ((done + [last]) + rest)[|done| := text] == done + ([text] + rest)
  {
  }

  method TrimTexts(texts: array<string>)
    modifies texts
    ensures texts[..] == TrimTail(old(texts[..]))
  {
    ghost var before := texts[..];
    ghost var rest: seq<string> := [];
    assert before[..|before|] == before;
    hide TrimTail, TrimEnd;
    var i := texts.Length;
    while i > 0
      invariant 0 <= i <= texts.Length
      invariant texts[..] == before[..i] + rest
      invariant TrimTail(before) == TrimTail(before[..i]) + rest
    {
      i := i - 1;
      ghost var was := texts[..];
      assert before[..i + 1] == before[..i] + [before[i]];
      assert texts[i] == was[i] == before[i];
      var trimmed := TrimEnd(texts[i]);
      TrimTailAt(before, i);
      texts[i] := trimmed;
      assert texts[..] == was[i := trimmed];
      ReplacedLast(before[..i], before[i], rest, trimmed);
      if trimmed != [] {
        Associate(before[..i], [trimmed], rest);
        return;
      }
      Associate(TrimTail(before[..i]), [trimmed], rest);
      rest := [trimmed] + rest;
    }
    JoinOne([]);
    assert before[..0] == [] && [] + rest == rest;
  }
}
