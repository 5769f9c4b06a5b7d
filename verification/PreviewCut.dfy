/**
 * Exactly what `truncate` of `frontend/src/app/shared/markdown/markdown-preview.ts` leaves: which text
 * nodes, in which elements, and where the ellipsis stands.
 */
module PreviewCut {
  import opened Sequences
  import opened PreviewText
  import opened PreviewGlyphs
  import opened Preview

  /**
   * The budget ends in text `j`, of which what `clip` keeps of it is left, with an ellipsis; a text of
   * which nothing is kept is gone like those after it.
   */
  ghost predicate CutIn(
      texts: seq<string>, paths: seq<seq<Tag>>, budget: nat, j: nat,
      left: seq<string>, places: seq<seq<Tag>>, after: Cursor)
  {
    && |texts| == |paths| && j < |texts| && |Join(texts[..j])| <= budget && after.cut
    && var kept := Clip(texts[j], budget - |Join(texts[..j])|);
      && (after.ellipsised <==> kept != [])
      && left == texts[..j] + Ended(kept) && places == paths[..j + |Ended(kept)|]
  }

  /** What is kept of a text, with the ellipsis, if it is anything. */
  function Ended(kept: string): (r: seq<string>)
    ensures |r| <= 1
  {
    if kept != [] then [kept + [ELLIPSIS]] else []
  }

  lemma CutLater(
      a: seq<string>, ap: seq<seq<Tag>>, texts: seq<string>, paths: seq<seq<Tag>>, budget: nat, j: nat,
      left: seq<string>, places: seq<seq<Tag>>, after: Cursor)
    requires |a| == |ap| && CutIn(texts, paths, budget, j, left, places, after)
    ensures CutIn(a + texts, ap + paths, budget + |Join(a)|, |a| + j, a + left, ap + places, after)
  {
    hide Clip, Join, Ended;
    var kept := Clip(texts[j], budget - |Join(texts[..j])|);
    PrefixLater(a, texts, j);
    JoinConcat(a, texts[..j]);
    PrefixLater(ap, paths, j + |Ended(kept)|);
    Associate(a, texts[..j], Ended(kept));
  }

  lemma CutEarlier(
      texts: seq<string>, paths: seq<seq<Tag>>, b: seq<string>, bp: seq<seq<Tag>>, budget: nat, j: nat,
      left: seq<string>, places: seq<seq<Tag>>, after: Cursor)
    requires |b| == |bp| && CutIn(texts, paths, budget, j, left, places, after)
    ensures CutIn(texts + b, paths + bp, budget, j, left, places, after)
  {
    hide Clip, Join, Ended;
    PrefixEarlier(texts, b, j);
    PrefixEarlier(paths, bp, j + |Ended(Clip(texts[j], budget - |Join(texts[..j])|))|);
  }

  lemma PrefixLater<T>(a: seq<T>, b: seq<T>, j: nat)
    requires j <= |b|
    ensures (a + b)[..|a| + j] == a + b[..j] && (j < |b| ==> (a + b)[|a| + j] == b[j])
  {
  }

  lemma PrefixEarlier<T>(a: seq<T>, b: seq<T>, j: nat)
    requires j <= |a|
    ensures (a + b)[..j] == a[..j] && (j < |a| ==> (a + b)[j] == a[j])
  {
  }

  lemma CutHere(text: string, path: seq<Tag>, c: Cursor)
    requires !c.cut && !c.ellipsised
    ensures var kept := Clip(text, c.budget);
      CutIn([text], [path], c.budget, 0, if kept != [] then [kept + [ELLIPSIS]] else [],
        if kept != [] then [path] else [], c.(cut := true, ellipsised := kept != []))
  {
    hide Clip;
    assert [text][..0] == [] && [path][..0] == [] && [path][..1] == [path];
    assert Join([]) == [];
  }

  /** The walk leaves the texts before the budget's end as they are, and the elements around them. */
  lemma {:induction false} WalkTexts(dom: Dom, path: seq<Tag>, c: Cursor, j: nat)
    requires !c.cut && !c.ellipsised && j < |Texts(dom)|
    requires |Join(Texts(dom)[..j])| <= c.budget < |Join(Texts(dom)[..j + 1])|
    ensures var (left, after) := Walk(dom, c);
      CutIn(Texts(dom), Paths(dom, path), c.budget, j, Texts(left), Paths(left, path), after)
    decreases dom, 0
  {
    hide CutIn, Clip;
    match dom
    case Text(text, next) => WalkTextsText(text, next, path, c, j);
    case Element(tag, children, next) =>
      var n := |Texts(children)|;
      var all := Texts(children) + Texts(next);
      TextsJoin(children);
      if j < n {
        assert all[..j] == Texts(children)[..j] && all[..j + 1] == Texts(children)[..j + 1];
        WalkTexts(children, path + [tag], c, j);
        var (left, after) := Walk(children, c);
        IsCut(children, path + [tag], c, j, left, after);
        WalkCut(next, after);
        CutEarlier(Texts(children), Paths(children, path + [tag]), Texts(next), Paths(next, path), c.budget, j,
          Texts(left), Paths(left, path + [tag]), after);
        NothingAfter(tag, left, path);
      } else {
        JoinPast(Texts(children), Texts(next), j);
        WholeChildren(children, path + [tag], c);
        var rest := c.(budget := c.budget - |Join(Texts(children))|);
        WalkTexts(next, path, rest, j - n);
        var (left, after) := Walk(next, rest);
        CutLater(Texts(children), Paths(children, path + [tag]), Texts(next), Paths(next, path), rest.budget, j - n,
          Texts(left), Paths(left, path), after);
      }
  }

  lemma IsCut(dom: Dom, path: seq<Tag>, c: Cursor, j: nat, left: Dom, after: Cursor)
    requires CutIn(Texts(dom), Paths(dom, path), c.budget, j, Texts(left), Paths(left, path), after)
    ensures after.cut
  {
    hide Clip;
  }

  lemma NothingAfter(tag: Tag, children: Dom, path: seq<Tag>)
    ensures Texts(Element(tag, children, End)) == Texts(children)
    ensures Paths(Element(tag, children, End), path) == Paths(children, path + [tag])
  {
    assert Texts(End) == [] && Paths(End, path) == [];
  }

  lemma JoinPast(a: seq<string>, b: seq<string>, j: nat)
    requires |a| <= j < |a| + |b|
    ensures |Join((a + b)[..j])| == |Join(a)| + |Join(b[..j - |a|])|
    ensures |Join((a + b)[..j + 1])| == |Join(a)| + |Join(b[..j - |a| + 1])|
  {
    assert (a + b)[..j] == a + b[..j - |a|] && (a + b)[..j + 1] == a + b[..j - |a| + 1];
    JoinConcat(a, b[..j - |a|]);
    JoinConcat(a, b[..j - |a| + 1]);
  }

  lemma WholeChildren(dom: Dom, path: seq<Tag>, c: Cursor)
    requires !c.cut && !c.ellipsised && |Join(Texts(dom))| <= c.budget
    ensures Walk(dom, c) == (dom, c.(budget := c.budget - |Join(Texts(dom))|))
  {
    TextsJoin(dom);
    WalkIs(dom, path, c);
    NotCut(dom, path, c);
    FitsWhole(dom, path, c);
  }

  lemma FitsWhole(dom: Dom, path: seq<Tag>, c: Cursor)
    requires !c.cut && Walked(dom, path, c, Walk(dom, c)) && |TextOf(dom)| <= c.budget
    ensures !Walk(dom, c).1.cut
  {
  }

  lemma WalkTextsText(text: string, next: Dom, path: seq<Tag>, c: Cursor, j: nat)
    requires !c.cut && !c.ellipsised && j < 1 + |Texts(next)|
    requires |Join(([text] + Texts(next))[..j])| <= c.budget < |Join(([text] + Texts(next))[..j + 1])|
    ensures var (left, after) := Walk(Text(text, next), c);
      CutIn([text] + Texts(next), [path] + Paths(next, path), c.budget, j, Texts(left), Paths(left, path), after)
    decreases next, 1
  {
    hide CutIn, Clip, Walk, Texts, Paths, Join;
    JustOne(text);
    if j == 0 {
      assert ([text] + Texts(next))[..1] == [text];
      CutHere(text, path, c);
      WalkCutText(text, next, c);
      var kept, after := Clip(text, c.budget), c.(cut := true, ellipsised := Clip(text, c.budget) != []);
      OneText(kept + [ELLIPSIS], path);
      CutEarlier([text], [path], Texts(next), Paths(next, path), c.budget, 0,
        if kept != [] then [kept + [ELLIPSIS]] else [], if kept != [] then [path] else [], after);
    } else {
      JoinPast([text], Texts(next), j);
      var rest := c.(budget := c.budget - |text|);
      WalkTexts(next, path, rest, j - 1);
      var (left, after) := Walk(next, rest);
      CutLater([text], [path], Texts(next), Paths(next, path), rest.budget, j - 1, Texts(left), Paths(left, path),
        after);
      WalkWhole(text, next, c);
      TextsOf(text, left, path);
    }
  }

  lemma JustOne(text: string)
    ensures Join([text]) == text
  {
  }

  lemma WalkCutText(text: string, next: Dom, c: Cursor)
    requires !c.cut && |text| > c.budget
    ensures var kept := Clip(text, c.budget);
      Walk(Text(text, next), c)
        == (if kept != [] then Text(kept + [ELLIPSIS], End) else End, c.(cut := true, ellipsised := kept != []))
  {
    hide Clip;
    WalkCut(next, c.(cut := true, ellipsised := Clip(text, c.budget) != []));
  }

  lemma WalkWhole(text: string, next: Dom, c: Cursor)
    requires !c.cut && |text| <= c.budget
    ensures var walked := Walk(next, c.(budget := c.budget - |text|));
      Walk(Text(text, next), c) == (Text(text, walked.0), walked.1)
  {
  }

  lemma OneText(text: string, path: seq<Tag>)
    ensures Texts(Text(text, End)) == [text] && Paths(Text(text, End), path) == [path]
    ensures Texts(End) == [] && Paths(End, path) == []
  {
    assert Texts(End) == [] && Paths(End, path) == [];
  }

  // ------------------------------------------------------------------ the tail

  /** Every element has some text in it. */
  predicate NoneHollow(dom: Dom) {
    match dom
    case End => true
    case Text(_, next) => NoneHollow(next)
    case Element(_, children, next) => TextOf(children) != [] && NoneHollow(children) && NoneHollow(next)
  }

  lemma {:induction false} NoTexts(dom: Dom)
    requires NoEmptyTexts(dom) && TextOf(dom) == []
    ensures Texts(dom) == []
  {
    match dom
    case End =>
    case Text(_, next) =>
    case Element(_, children, next) =>
      NoTexts(children);
      NoTexts(next);
  }

  /** Dropping the elements without text leaves no such element, and every text in its elements. */
  lemma {:induction false} DropEmptyElementsIs(dom: Dom, path: seq<Tag>)
    requires NoEmptyTexts(dom)
    ensures var r := DropEmptyElements(dom);
      && NoneHollow(r) && TextOf(r) == TextOf(dom) && Texts(r) == Texts(dom) && Paths(r, path) == Paths(dom, path)
  {
    match dom
    case End =>
    case Text(_, next) => DropEmptyElementsIs(next, path);
    case Element(tag, children, next) =>
      DropEmptyElementsIs(children, path + [tag]);
      DropEmptyElementsIs(next, path);
      if TextOf(children) == [] { NoTexts(children); }
  }

  /** The last of the texts without its trailing space. */
  function LastTrimmed(texts: seq<string>): seq<string> {
    if texts == [] then [] else texts[..|texts| - 1] + [TrimEnd(texts[|texts| - 1])]
  }

  lemma LastOfMore(a: seq<string>, b: seq<string>)
    ensures LastTrimmed(a + b) == if b == [] then LastTrimmed(a) else a + LastTrimmed(b)
  {
    hide TrimEnd;
    if b == [] {
      assert a + b == a;
    } else {
      assert (a + b)[..|a + b| - 1] == a + b[..|b| - 1];
      Associate(a, b[..|b| - 1], [TrimEnd(b[|b| - 1])]);
    }
  }

  lemma LastOfOne(text: string)
    ensures LastTrimmed([text]) == [TrimEnd(text)] && LastTrimmed([]) == []
  {
    hide TrimEnd;
    assert [text][..0] == [];
  }

  /** The last text loses its trailing space, and nothing else changes. */
  lemma {:induction false} TrimLastTexts(dom: Dom, path: seq<Tag>)
    ensures Texts(TrimLast(dom)) == LastTrimmed(Texts(dom)) && Paths(TrimLast(dom), path) == Paths(dom, path)
  {
    hide TrimEnd, Texts, Paths, LastTrimmed;
    match dom
    case End =>
      OneText([], path);
      LastOfOne([]);
    case Text(text, next) =>
      TrimLastTexts(next, path);
      TextsOf(text, next, path);
      TextsOf(text, TrimLast(next), path);
      TextsOf(TrimEnd(text), next, path);
      LastOfOne(text);
      LastOfMore([text], Texts(next));
    case Element(tag, children, next) =>
      TextsIn(tag, children, next, path);
      LastOfMore(Texts(children), Texts(next));
      if Texts(next) == [] {
        TrimLastTexts(children, path + [tag]);
        TextsIn(tag, TrimLast(children), next, path);
      } else {
        TrimLastTexts(next, path);
        TextsIn(tag, children, TrimLast(next), path);
      }
  }

  lemma TextsOf(text: string, next: Dom, path: seq<Tag>)
    ensures Texts(Text(text, next)) == [text] + Texts(next)
    ensures Paths(Text(text, next), path) == [path] + Paths(next, path)
  {
  }

  lemma TextsIn(tag: Tag, children: Dom, next: Dom, path: seq<Tag>)
    ensures Texts(Element(tag, children, next)) == Texts(children) + Texts(next)
    ensures Paths(Element(tag, children, next), path) == Paths(children, path + [tag]) + Paths(next, path)
  {
  }

  lemma {:induction false} AppendTexts(dom: Dom, more: Dom, path: seq<Tag>)
    ensures Texts(Append(dom, more)) == Texts(dom) + Texts(more)
    ensures Paths(Append(dom, more), path) == Paths(dom, path) + Paths(more, path)
  {
    match dom
    case End => OneText([], path);
    case Text(text, next) =>
      AppendTexts(next, more, path);
      TextsOf(text, next, path);
      TextsOf(text, Append(next, more), path);
      hide Texts, Paths;
      Associate([text], Texts(next), Texts(more));
      Associate([path], Paths(next, path), Paths(more, path));
    case Element(tag, children, next) =>
      AppendTexts(next, more, path);
      TextsIn(tag, children, next, path);
      TextsIn(tag, children, Append(next, more), path);
      hide Texts, Paths;
      Associate(Texts(children), Texts(next), Texts(more));
      Associate(Paths(children, path + [tag]), Paths(next, path), Paths(more, path));
  }

  /**
   * The limit is reached in text `j`.  If `clip` keeps something of that text, it ends in the ellipsis and
   * is the last; if not, it is gone as well, the text before it loses its trailing space, and the ellipsis
   * stands outside all elements.  Every other text before it is left as it is, within its elements.
   */
  ghost predicate CutAt(
      texts: seq<string>, paths: seq<seq<Tag>>, limit: nat, j: nat, left: seq<string>, places: seq<seq<Tag>>)
    requires |texts| == |paths| && j < |texts| && |Join(texts[..j])| <= limit
  {
    var kept := Clip(texts[j], limit - |Join(texts[..j])|);
    if kept != [] then left == texts[..j] + [kept + ['\U{2026}']] && places == paths[..j + 1]
    else
      && left == (if j == 0 then [] else texts[..j - 1] + [TrimEnd(texts[j - 1])]) + [['\U{2026}']]
      && places == paths[..j] + [[]]
  }

  /** Exactly what `truncate` leaves of a tree that is too long. */
  lemma TruncateTexts(root: Dom, limit: nat, j: nat)
    requires NoEmptyTexts(root) && j < |Texts(root)|
    requires |Join(Texts(root)[..j])| <= limit < |Join(Texts(root)[..j + 1])|
    ensures var r := Truncate(root, limit); CutAt(Texts(root), Paths(root, []), limit, j, Texts(r), Paths(r, []))
  {
    hide CutAt, CutIn, DropEmptyElements, TrimLast, Append, Walk, Walked, Texts, Paths, Join, NoEmptyTexts;
    var c := Cursor(limit, false, false);
    WalkTexts(root, [], c, j);
    var (left, after) := Walk(root, c);
    var r := Truncate(root, limit);
    IsCut(root, [], c, j, left, after);
    if after.ellipsised {
      KeptSome(Texts(root), Paths(root, []), limit, j, Texts(left), Paths(left, []), after);
    } else {
      WalkIs(root, [], c);
      LeftTidy(root, c);
      Trailing(left);
      KeptNone(Texts(root), Paths(root, []), limit, j, Texts(left), Paths(left, []), after, Texts(r), Paths(r, []));
    }
  }

  lemma KeptSome(
      texts: seq<string>, paths: seq<seq<Tag>>, limit: nat, j: nat,
      left: seq<string>, places: seq<seq<Tag>>, after: Cursor)
    requires CutIn(texts, paths, limit, j, left, places, after) && after.ellipsised
    ensures CutAt(texts, paths, limit, j, left, places)
  {
    hide Clip, Join, TrimEnd;
  }

  lemma KeptNone(
      texts: seq<string>, paths: seq<seq<Tag>>, limit: nat, j: nat,
      left: seq<string>, places: seq<seq<Tag>>, after: Cursor, all: seq<string>, at: seq<seq<Tag>>)
    requires CutIn(texts, paths, limit, j, left, places, after) && !after.ellipsised
    requires all == LastTrimmed(left) + [[ELLIPSIS]]
    requires at == places + [[]]
    ensures CutAt(texts, paths, limit, j, all, at)
  {
    hide Clip, Join, TrimEnd;
    assert texts[..j] + [] == texts[..j];
    LastOfPrefix(texts, j);
  }

  lemma Trailing(left: Dom)
    requires NoEmptyTexts(left)
    ensures var r, texts := Append(TrimLast(DropEmptyElements(left)), Text([ELLIPSIS], End)), Texts(left);
      && Texts(r) == LastTrimmed(texts) + [[ELLIPSIS]]
      && Paths(r, []) == Paths(left, []) + [[]]
  {
    hide TrimEnd, DropEmptyElements, TrimLast, Append, Texts, Paths, NoEmptyTexts;
    var bare := DropEmptyElements(left);
    DropEmptyElementsIs(left, []);
    TrimLastTexts(bare, []);
    AppendTexts(TrimLast(bare), Text([ELLIPSIS], End), []);
    OneText([ELLIPSIS], []);
  }

  lemma LastOfPrefix(texts: seq<string>, j: nat)
    requires j <= |texts|
    ensures texts[..j] == [] <==> j == 0
    ensures j > 0 ==> texts[..j][..|texts[..j]| - 1] == texts[..j - 1] && texts[..j][|texts[..j]| - 1] == texts[j - 1]
  {
  }

  lemma LeftTidy(dom: Dom, c: Cursor)
    requires Walked(dom, [], c, Walk(dom, c)) && NoEmptyTexts(dom) && !Walk(dom, c).1.ellipsised
    ensures NoEmptyTexts(Walk(dom, c).0)
  {
  }
}
