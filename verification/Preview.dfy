/**
 * The one-line Markdown preview of `frontend/src/app/shared/markdown/markdown-preview.ts`: flatten
 * the parsed HTML to inline tags, collapse its whitespace across elements, cut it to a budget.
 *
 * A list of sibling nodes is a `Dom`: its first node and the rest.
 */
module Preview {
  import opened PreviewText
  import opened PreviewGlyphs

  /** Parsed HTML. */
  datatype Html =
    | HtmlEnd
    | HtmlText(text: string, next: Html)
    | HtmlOther(next: Html)
    | HtmlElement(tag: Tag, children: Html, next: Html)

  /** The preview's own nodes. */
  datatype Dom =
    | End
    | Text(text: string, next: Dom)
    | Element(tag: Tag, children: Dom, next: Dom)

  const ELLIPSIS := '\U{2026}'

  const INLINE_TAGS: set<string> := {
    "A", "ABBR", "B", "CITE", "CODE", "DEL", "EM", "I", "INS", "KBD", "MARK", "Q", "S", "SAMP",
    "SMALL", "SPAN", "STRONG", "SUB", "SUP", "TIME", "U", "VAR"}

  predicate IsInline(tag: Tag) {
    tag.name in INLINE_TAGS
  }

  /** `textContent`. */
  function TextOf(dom: Dom): string {
    match dom
    case End => []
    case Text(text, next) => text + TextOf(next)
    case Element(_, children, next) => TextOf(children) + TextOf(next)
  }

  /** The elements alone. */
  function Skeleton(dom: Dom): Dom {
    match dom
    case End => End
    case Text(_, next) => Skeleton(next)
    case Element(tag, children, next) => Element(tag, Skeleton(children), Skeleton(next))
  }

  // ------------------------------------------------------------------ flatten

  function Append(dom: Dom, more: Dom): (r: Dom)
    ensures TextOf(r) == TextOf(dom) + TextOf(more)
  {
    match dom
    case End => more
    case Text(text, next) => Text(text, Append(next, more))
    case Element(tag, children, next) => Element(tag, children, Append(next, more))
  }

  function Trim(s: string): string {
    TrimEnd(DropSpaces(s))
  }

  function Alt(tag: Tag): string {
    if "alt" in tag.attributes then Trim(tag.attributes["alt"]) else []
  }

  /** The alternative text without the spaces around it. */
  lemma AltMeans(tag: Tag)
    ensures "alt" !in tag.attributes ==> Alt(tag) == ""
    ensures "alt" in tag.attributes ==>
      var alt := tag.attributes["alt"];
      exists i: nat, j: nat :: i <= j <= |alt| && Alt(tag) == alt[i..j]
        && (forall k :: 0 <= k < i || j <= k < |alt| ==> IsSpace(alt[k]))
        && (i < j ==> !IsSpace(alt[i]) && !IsSpace(alt[j - 1]))
  {
    hide IsSpace, DropSpaces, TrimEnd;
    if "alt" in tag.attributes {
      var alt := tag.attributes["alt"];
      DropSpacesIs(alt);
      var rest := DropSpaces(alt);
      var i := |alt| - |rest|;
      var j := i + |TrimEnd(rest)|;
      assert Alt(tag) == alt[i..j];
      assert forall k :: j <= k < |alt| ==> alt[k] == rest[k - i];
    }
  }

  /** Of the elements Markdown is rendered to, these are inline and those are not. */
  lemma MarkdownTags(tag: Tag)
    ensures tag.name in {"A", "CODE", "DEL", "EM", "STRONG"} ==> IsInline(tag)
    ensures tag.name in {"P", "H1", "H2", "H3", "UL", "OL", "LI", "BLOCKQUOTE", "PRE", "TABLE", "HR", "BR", "IMG"} ==>
      !IsInline(tag)
  {
  }

  /** `flatten`, onto the nodes already in the target. */
  function Flatten(source: Html, target: Dom): Dom
    decreases source, 1
  {
    match source
    case HtmlEnd => target
    case HtmlText(text, next) => Flatten(next, Append(target, Text(text, End)))
    case HtmlOther(next) => Flatten(next, target)
    case HtmlElement(tag, children, next) => Flatten(next, FlattenElement(tag, children, target))
  }

  function FlattenElement(tag: Tag, children: Html, target: Dom): Dom
    decreases children, 2
  {
    if tag.name == "BR" then Append(target, Text(" ", End))
    else if tag.name == "IMG" then (if Alt(tag) != [] then Append(target, Text(Alt(tag), End)) else target)
    else if IsInline(tag) then Append(target, Element(tag, Flatten(children, End), End))
    else Append(Flatten(children, Append(target, Text(" ", End))), Text(" ", End))
  }

  /** The text a flattened element should have, around the text of its children. */
  function ElementText(tag: Tag, inside: string): string {
    if tag.name == "BR" then " "
    else if tag.name == "IMG" then Alt(tag)
    else if IsInline(tag) then inside
    else " " + inside + " "
  }

  /** The text a flattened document should have: gaps for breaks and blocks, alt texts for images. */
  function PlainText(source: Html): string {
    match source
    case HtmlEnd => []
    case HtmlText(text, next) => text + PlainText(next)
    case HtmlOther(next) => PlainText(next)
    case HtmlElement(tag, children, next) => ElementText(tag, PlainText(children)) + PlainText(next)
  }

  /** The inline elements of a document, blocks opened up, breaks and images dropped. */
  function InlineElements(source: Html): Dom {
    match source
    case HtmlEnd => End
    case HtmlText(_, next) => InlineElements(next)
    case HtmlOther(next) => InlineElements(next)
    case HtmlElement(tag, children, next) =>
      if tag.name == "BR" || tag.name == "IMG" then InlineElements(next)
      else if IsInline(tag) then Element(tag, InlineElements(children), InlineElements(next))
      else Append(InlineElements(children), InlineElements(next))
  }

  lemma {:induction false} AppendSkeleton(dom: Dom, more: Dom)
    ensures Skeleton(Append(dom, more)) == Append(Skeleton(dom), Skeleton(more))
  {
    match dom
    case End =>
    case Text(_, next) => AppendSkeleton(next, more);
    case Element(_, _, next) => AppendSkeleton(next, more);
  }

  lemma {:induction false} AppendAssociative(a: Dom, b: Dom, c: Dom)
    ensures Append(Append(a, b), c) == Append(a, Append(b, c))
    ensures Append(a, End) == a
  {
    match a
    case End =>
    case Text(_, next) => AppendAssociative(next, b, c);
    case Element(_, _, next) => AppendAssociative(next, b, c);
  }

  lemma LeafText(text: string)
    ensures TextOf(Text(text, End)) == text
  {
    assert TextOf(End) == [];
  }

  /** Flattening keeps the text, with its gaps. */
  lemma {:induction false} FlattenText(source: Html, target: Dom)
    ensures TextOf(Flatten(source, target)) == TextOf(target) + PlainText(source)
    decreases source, 1
  {
    hide IsInline, Alt, Append, FlattenElement, ElementText;
    match source
    case HtmlEnd =>
    case HtmlText(text, next) =>
      FlattenText(next, Append(target, Text(text, End)));
      LeafText(text);
    case HtmlOther(next) => FlattenText(next, target);
    case HtmlElement(tag, children, next) =>
      FlattenElementText(tag, children, target);
      FlattenText(next, FlattenElement(tag, children, target));
  }

  lemma {:induction false} FlattenElementText(tag: Tag, children: Html, target: Dom)
    ensures TextOf(FlattenElement(tag, children, target)) == TextOf(target) + ElementText(tag, PlainText(children))
    decreases children, 2
  {
    hide IsInline, Alt, Append, Flatten, PlainText;
    LeafText(" ");
    LeafText(Alt(tag));
    FlattenText(children, End);
    FlattenText(children, Append(target, Text(" ", End)));
  }

  /** Flattening keeps exactly the inline elements, tags and attributes included. */
  lemma {:induction false} FlattenSkeleton(source: Html, target: Dom)
    ensures Skeleton(Flatten(source, target)) == Append(Skeleton(target), InlineElements(source))
    decreases source
  {
    hide IsInline, Alt;
    match source
    case HtmlEnd => AppendAssociative(Skeleton(target), End, End);
    case HtmlText(text, next) =>
      FlattenSkeleton(next, Append(target, Text(text, End)));
      AddLeaf(target, Text(text, End));
    case HtmlOther(next) => FlattenSkeleton(next, target);
    case HtmlElement(tag, children, next) =>
      var gap := Text(" ", End);
      if tag.name == "BR" || tag.name == "IMG" {
        var leaf := if tag.name == "BR" then gap else Text(Alt(tag), End);
        FlattenSkeleton(next, Append(target, leaf));
        FlattenSkeleton(next, target);
        AddLeaf(target, leaf);
      } else if IsInline(tag) {
        var clone := Element(tag, Flatten(children, End), End);
        FlattenSkeleton(children, End);
        FlattenSkeleton(next, Append(target, clone));
        AddClone(target, clone, InlineElements(next));
      } else {
        var inner := Flatten(children, Append(target, gap));
        FlattenSkeleton(children, Append(target, gap));
        FlattenSkeleton(next, Append(inner, gap));
        AddLeaf(target, gap);
        AddLeaf(inner, gap);
        AppendAssociative(Skeleton(target), InlineElements(children), InlineElements(next));
      }
  }

  lemma AddLeaf(target: Dom, leaf: Dom)
    requires leaf.Text? && leaf.next.End?
    ensures Skeleton(Append(target, leaf)) == Skeleton(target)
  {
    AppendSkeleton(target, leaf);
    AppendAssociative(Skeleton(target), End, End);
  }

  lemma AddClone(target: Dom, clone: Dom, rest: Dom)
    requires clone.Element? && clone.next.End?
    ensures Append(Skeleton(Append(target, clone)), rest)
      == Append(Skeleton(target), Element(clone.tag, Skeleton(clone.children), rest))
  {
    AppendSkeleton(target, clone);
    AppendAssociative(Skeleton(target), Skeleton(clone), rest);
  }

  /** What a document shows, each character within the inline elements around it. */
  function PlainGlyphs(source: Html, path: seq<Tag>): seq<Glyph> {
    match source
    case HtmlEnd => []
    case HtmlText(text, next) => GlyphsOfText(text, path) + PlainGlyphs(next, path)
    case HtmlOther(next) => PlainGlyphs(next, path)
    case HtmlElement(tag, children, next) =>
      (if tag.name == "BR" then GlyphsOfText(" ", path)
       else if tag.name == "IMG" then GlyphsOfText(Alt(tag), path)
       else if IsInline(tag) then PlainGlyphs(children, path + [tag])
       else GlyphsOfText(" ", path) + PlainGlyphs(children, path) + GlyphsOfText(" ", path))
      + PlainGlyphs(next, path)
  }

  /** A flattened document, written without a target to append to. */
  function Flat(source: Html): Dom {
    match source
    case HtmlEnd => End
    case HtmlText(text, next) => Text(text, Flat(next))
    case HtmlOther(next) => Flat(next)
    case HtmlElement(tag, children, next) =>
      if tag.name == "BR" then Text(" ", Flat(next))
      else if tag.name == "IMG" then (if Alt(tag) != [] then Text(Alt(tag), Flat(next)) else Flat(next))
      else if IsInline(tag) then Element(tag, Flat(children), Flat(next))
      else Text(" ", Append(Flat(children), Text(" ", Flat(next))))
  }

  /** Flattening puts every text, gap and inline element where it belongs, after what is there already. */
  lemma {:induction false} FlattenIs(source: Html, target: Dom)
    ensures Flatten(source, target) == Append(target, Flat(source))
    decreases source
  {
    hide IsInline, Alt;
    match source
    case HtmlEnd => AppendAssociative(target, End, End);
    case HtmlText(text, next) =>
      FlattenIs(next, Append(target, Text(text, End)));
      AppendAssociative(target, Text(text, End), Flat(next));
    case HtmlOther(next) => FlattenIs(next, target);
    case HtmlElement(tag, children, next) =>
      var gap := Text(" ", End);
      if tag.name == "BR" || tag.name == "IMG" {
        var leaf := if tag.name == "BR" then gap else Text(Alt(tag), End);
        FlattenIs(next, Append(target, leaf));
        FlattenIs(next, target);
        AppendAssociative(target, leaf, Flat(next));
      } else if IsInline(tag) {
        FlattenIs(children, End);
        var clone := Element(tag, Flat(children), End);
        FlattenIs(next, Append(target, clone));
        AppendAssociative(target, clone, Flat(next));
      } else {
        FlatBlock(tag, children, next, target);
      }
  }

  lemma {:induction false} FlatBlock(tag: Tag, children: Html, next: Html, target: Dom)
    ensures var gap := Text(" ", End);
      Flatten(next, Append(Flatten(children, Append(target, gap)), gap))
        == Append(target, Text(" ", Append(Flat(children), Text(" ", Flat(next)))))
    decreases HtmlElement(tag, children, next), 0
  {
    var gap := Text(" ", End);
    FlattenIs(children, Append(target, gap));
    var inner := Append(Append(target, gap), Flat(children));
    FlattenIs(next, Append(inner, gap));
    AppendAssociative(inner, gap, Flat(next));
    AppendAssociative(Append(target, gap), Flat(children), Text(" ", Flat(next)));
    AppendAssociative(target, gap, Append(Flat(children), Text(" ", Flat(next))));
  }

  /** Flattening keeps every character within exactly the inline elements around it. */
  lemma {:induction false} FlatGlyphs(source: Html, path: seq<Tag>)
    ensures Glyphs(Flat(source), path) == PlainGlyphs(source, path)
    decreases source
  {
    hide IsInline, Alt, GlyphsOfText;
    match source
    case HtmlEnd =>
    case HtmlText(_, next) => FlatGlyphs(next, path);
    case HtmlOther(next) => FlatGlyphs(next, path);
    case HtmlElement(tag, children, next) =>
      FlatGlyphs(next, path);
      if tag.name == "BR" || tag.name == "IMG" {
        EmptyPlaced(path);
      } else if IsInline(tag) {
        FlatGlyphs(children, path + [tag]);
      } else {
        FlatGlyphs(children, path);
        AppendGlyphs(Flat(children), Text(" ", Flat(next)), path);
      }
  }

  // ------------------------------------------------------------------ collapseWhitespace

  /** The text nodes in document order. */
  function Texts(dom: Dom): seq<string> {
    match dom
    case End => []
    case Text(text, next) => [text] + Texts(next)
    case Element(_, children, next) => Texts(children) + Texts(next)
  }

  /** The same nodes with their texts replaced, in document order. */
  function PutTexts(dom: Dom, texts: seq<string>): Dom
    requires |texts| == |Texts(dom)|
  {
    match dom
    case End => End
    case Text(_, next) => Text(texts[0], PutTexts(next, texts[1..]))
    case Element(tag, children, next) =>
      var n := |Texts(children)|;
      Element(tag, PutTexts(children, texts[..n]), PutTexts(next, texts[n..]))
  }

  function DropEmptyTexts(dom: Dom): Dom {
    match dom
    case End => End
    case Text(text, next) => if text == [] then DropEmptyTexts(next) else Text(text, DropEmptyTexts(next))
    case Element(tag, children, next) => Element(tag, DropEmptyTexts(children), DropEmptyTexts(next))
  }

  lemma {:induction false} TextsJoin(dom: Dom)
    ensures TextOf(dom) == Join(Texts(dom))
  {
    match dom
    case End =>
    case Text(_, next) => TextsJoin(next);
    case Element(_, children, next) =>
      TextsJoin(children);
      TextsJoin(next);
      JoinConcat(Texts(children), Texts(next));
  }

  lemma {:induction false} PutTextsIs(dom: Dom, texts: seq<string>)
    requires |texts| == |Texts(dom)|
    ensures Texts(PutTexts(dom, texts)) == texts && Skeleton(PutTexts(dom, texts)) == Skeleton(dom)
  {
    match dom
    case End =>
    case Text(_, next) => PutTextsIs(next, texts[1..]);
    case Element(_, children, next) =>
      PutTextsIs(children, texts[..|Texts(children)|]);
      PutTextsIs(next, texts[|Texts(children)|..]);
  }

  ghost predicate NoEmptyTexts(dom: Dom) {
    match dom
    case End => true
    case Text(text, next) => text != [] && NoEmptyTexts(next)
    case Element(_, children, next) => NoEmptyTexts(children) && NoEmptyTexts(next)
  }

  lemma {:induction false} DropEmptyTextsIs(dom: Dom)
    ensures TextOf(DropEmptyTexts(dom)) == TextOf(dom) && Skeleton(DropEmptyTexts(dom)) == Skeleton(dom)
    ensures NoEmptyTexts(DropEmptyTexts(dom))
  {
    match dom
    case End =>
    case Text(_, next) => DropEmptyTextsIs(next);
    case Element(_, children, next) =>
      DropEmptyTextsIs(children);
      DropEmptyTextsIs(next);
  }

  /** No two spaces follow each other, across elements too, and no text node is empty. */
  ghost predicate Tidy(dom: Dom) {
    NoEmptyTexts(dom) && SingleSpaced(TextOf(dom))
  }

  /** The elements around each text node, in document order. */
  function Paths(dom: Dom, path: seq<Tag>): (r: seq<seq<Tag>>)
    ensures |r| == |Texts(dom)|
  {
    match dom
    case End => []
    case Text(_, next) => [path] + Paths(next, path)
    case Element(tag, children, next) => Paths(children, path + [tag]) + Paths(next, path)
  }

  lemma {:induction false} GlyphsArePlaced(dom: Dom, path: seq<Tag>)
    ensures Glyphs(dom, path) == Placed(Texts(dom), Paths(dom, path))
  {
    hide GlyphsOfText, Placed;
    match dom
    case End => NothingPlaced();
    case Text(text, next) =>
      GlyphsArePlaced(next, path);
      PlacedOne(text, path);
      PlacedConcat([text], Texts(next), [path], Paths(next, path));
    case Element(tag, children, next) =>
      GlyphsArePlaced(children, path + [tag]);
      GlyphsArePlaced(next, path);
      PlacedConcat(Texts(children), Texts(next), Paths(children, path + [tag]), Paths(next, path));
  }

  lemma NothingPlaced()
    ensures Placed([], []) == []
  {
  }

  lemma {:induction false} PutTextsStay(dom: Dom, texts: seq<string>, path: seq<Tag>)
    requires |texts| == |Texts(dom)|
    ensures |Texts(PutTexts(dom, texts))| == |texts| && Paths(PutTexts(dom, texts), path) == Paths(dom, path)
  {
    match dom
    case End =>
    case Text(_, next) => PutTextsStay(next, texts[1..], path);
    case Element(tag, children, next) =>
      PutTextsStay(children, texts[..|Texts(children)|], path + [tag]);
      PutTextsStay(next, texts[|Texts(children)|..], path);
  }

  lemma {:induction false} DropEmptyTextsShows(dom: Dom, path: seq<Tag>)
    ensures Glyphs(DropEmptyTexts(dom), path) == Glyphs(dom, path)
  {
    match dom
    case End =>
    case Text(_, next) => DropEmptyTextsShows(next, path);
    case Element(tag, children, next) =>
      DropEmptyTextsShows(children, path + [tag]);
      DropEmptyTextsShows(next, path);
  }

  /** Each text node of `r` is what is left of one of `root`'s, in its place; those left empty are gone. */
  ghost predicate IsCollapsed(root: Dom, r: Dom) {
    exists texts: seq<string> ::
      CollapsedFrom(texts, Texts(root)) && r == DropEmptyTexts(PutTexts(root, texts))
  }

  lemma CollapsedShows(root: Dom, texts: seq<string>)
    requires texts == TrimTail(Squeezed(Texts(root)))
    ensures |texts| == |Texts(root)|
    ensures Glyphs(DropEmptyTexts(PutTexts(root, texts)), []) == OneLineGlyphs(Glyphs(root, []))
  {
    hide Glyphs, Placed, TrimTail, Squeezed, TrimGlyphs, SqueezeGlyphs, Paths, PutTexts, DropEmptyTexts;
    var before, paths := Texts(root), Paths(root, []);
    DropEmptyTextsShows(PutTexts(root, texts), []);
    PutTextsIs(root, texts);
    PutTextsStay(root, texts, []);
    GlyphsArePlaced(PutTexts(root, texts), []);
    GlyphsArePlaced(root, []);
    PlacedTrimmed(Squeezed(before), paths);
    PlacedSqueezed(before, paths);
  }

  /**
   * `collapseWhitespace`: the text becomes the one line a browser shows of it, whatever elements it
   * is spread over.  Every text stays in its element, every character within its elements, and the
   * elements stay.
   */
  method CollapseWhitespace(root: Dom) returns (r: Dom)
    ensures TextOf(r) == OneLine(TextOf(root)) && Skeleton(r) == Skeleton(root) && Tidy(r)
    ensures IsCollapsed(root, r) && Glyphs(r, []) == OneLineGlyphs(Glyphs(root, []))
  {
    hide OneLineGlyphs, Glyphs, PutTexts, DropEmptyTexts, Skeleton, NoEmptyTexts, Join, Squeezed, TrimTail;
    var gathered := Texts(root);
    var texts := new string[|gathered|](i requires 0 <= i < |gathered| => gathered[i]);
    assert texts[..] == gathered;
    CollapseTexts(texts);
    r := DropEmptyTexts(PutTexts(root, texts[..]));
    TextsJoin(root);
    PutTextsIs(root, texts[..]);
    TextsJoin(PutTexts(root, texts[..]));
    DropEmptyTextsIs(PutTexts(root, texts[..]));
    DropSpacesOfCollapsed(TextOf(root));
    NoDoubleSpace(TextOf(root), true);
    CollapsedShows(root, texts[..]);
    assert CollapsedFrom(texts[..], Texts(root));
  }

  // ------------------------------------------------------------------ truncate

  /** What the traversal carries along. */
  datatype Cursor = Cursor(budget: nat, cut: bool, ellipsised: bool)

  /** `walk`: spends the budget in document order and drops everything after the cut. */
  function Walk(dom: Dom, c: Cursor): (Dom, Cursor) {
    match dom
    case End => (End, c)
    case Text(text, next) =>
      if c.cut then Walk(next, c)
      else if |text| <= c.budget then
        var (rest, after) := Walk(next, c.(budget := c.budget - |text|));
        (Text(text, rest), after)
      else
        var kept := Clip(text, c.budget);
        var (rest, after) := Walk(next, c.(cut := true, ellipsised := kept != []));
        (if kept != [] then Text(kept + [ELLIPSIS], rest) else rest, after)
    case Element(tag, children, next) =>
      if c.cut then Walk(next, c)
      else
        var (inside, between) := Walk(children, c);
        var (rest, after) := Walk(next, between);
        (Element(tag, inside, rest), after)
  }

  /** Every element without text is removed. */
  function DropEmptyElements(dom: Dom): Dom {
    match dom
    case End => End
    case Text(text, next) => Text(text, DropEmptyElements(next))
    case Element(tag, children, next) =>
      if TextOf(children) == [] then DropEmptyElements(next)
      else Element(tag, DropEmptyElements(children), DropEmptyElements(next))
  }

  /** The last text node in document order, if there is one, loses its trailing space. */
  function TrimLast(dom: Dom): Dom {
    match dom
    case End => End
    case Text(text, next) => if Texts(next) == [] then Text(TrimEnd(text), next) else Text(text, TrimLast(next))
    case Element(tag, children, next) =>
      if Texts(next) == [] then Element(tag, TrimLast(children), next) else Element(tag, children, TrimLast(next))
  }

  function Truncate(root: Dom, limit: nat): Dom {
    var (walked, c) := Walk(root, Cursor(limit, false, false));
    if c.cut && !c.ellipsised
    then Append(TrimLast(DropEmptyElements(walked)), Text([ELLIPSIS], End))
    else walked
  }

  /** The traversal as the source runs it, on shared variables. */
  class Traversal {
    var budget: nat
    var cut: bool
    var ellipsised: bool

    constructor (limit: nat)
      ensures Now() == Cursor(limit, false, false)
    {
      budget, cut, ellipsised := limit, false, false;
    }

    function Now(): Cursor
      reads this
    {
      Cursor(budget, cut, ellipsised)
    }

    /** `walk`, on the nodes of one parent; a node that is removed is left out of `r`. */
    method WalkNodes(nodes: Dom) returns (r: Dom)
      modifies this
      ensures (r, Now()) == Walk(nodes, old(Now()))
      decreases nodes
    {
      match nodes {
        case End => r := End;
        case Text(text, next) =>
          if cut {
            r := WalkNodes(next);
          } else if |text| <= budget {
            budget := budget - |text|;
            var rest := WalkNodes(next);
            r := Text(text, rest);
          } else {
            var kept := Clip(text, budget);
            cut, ellipsised := true, kept != [];
            r := WalkNodes(next);
            if kept != [] { r := Text(kept + [ELLIPSIS], r); }
          }
        case Element(tag, children, next) =>
          if cut {
            r := WalkNodes(next);
          } else {
            var inside := WalkNodes(children);
            var rest := WalkNodes(next);
            r := Element(tag, inside, rest);
          }
      }
    }
  }

  method TruncateTree(root: Dom, limit: nat) returns (r: Dom)
    ensures r == Truncate(root, limit)
  {
    var traversal := new Traversal(limit);
    r := traversal.WalkNodes(root);
    if traversal.cut && !traversal.ellipsised {
      r := Append(TrimLast(DropEmptyElements(r)), Text([ELLIPSIS], End));
    }
  }

  // ------------------------------------------------------------------ what truncation shows

  function Glyphs(dom: Dom, path: seq<Tag>): (r: seq<Glyph>)
    ensures |r| == |TextOf(dom)|
  {
    match dom
    case End => []
    case Text(text, next) => GlyphsOfText(text, path) + Glyphs(next, path)
    case Element(tag, children, next) => Glyphs(children, path + [tag]) + Glyphs(next, path)
  }

  lemma {:induction false} GlyphsAreText(dom: Dom, path: seq<Tag>)
    ensures forall i :: 0 <= i < |TextOf(dom)| ==> Glyphs(dom, path)[i].letter == TextOf(dom)[i]
  {
    match dom
    case End =>
    case Text(_, next) => GlyphsAreText(next, path);
    case Element(tag, children, next) =>
      GlyphsAreText(children, path + [tag]);
      GlyphsAreText(next, path);
  }

  lemma {:induction false} WalkCut(dom: Dom, c: Cursor)
    requires c.cut
    ensures Walk(dom, c) == (End, c)
  {
    match dom
    case End =>
    case Text(_, next) => WalkCut(next, c);
    case Element(_, _, next) => WalkCut(next, c);
  }

  ghost predicate SingleSpacedGlyphs(shown: seq<Glyph>) {
    forall i :: 0 <= i < |shown| - 1 ==> !(IsSpace(shown[i].letter) && IsSpace(shown[i + 1].letter))
  }

  /** The first `k` characters go up to the budget or to a word boundary. */
  predicate EndsWell(shown: seq<Glyph>, budget: nat, k: nat) {
    k <= budget < |shown| && (k == budget || IsSpace(shown[k].letter))
  }

  /**
   * What spending a budget on some characters leaves of them: all, or the first so many, each in its
   * elements, with an ellipsis right after the last if the cut falls within a text.  Of single-spaced
   * characters at least half the budget is spent, and all but one character of it if the cut falls
   * between texts; what is left ends at the budget or at a word boundary.
   */
  ghost predicate Spent(shown: seq<Glyph>, c: Cursor, left: seq<Glyph>, after: Cursor) {
    if |shown| <= c.budget then left == shown && after == c.(budget := c.budget - |shown|)
    else
      && after.cut
      && if after.ellipsised then
           var k := |left| - 1;
           && 0 < k <= c.budget && !IsSpace(shown[k - 1].letter)
           && left == shown[..k] + [Glyph(ELLIPSIS, shown[k - 1].within)]
           && (SingleSpacedGlyphs(shown) ==> 2 * k + 1 >= c.budget && EndsWell(shown, c.budget, k))
         else
           && |left| <= c.budget && left == shown[..|left|]
           && (SingleSpacedGlyphs(shown) ==> |left| + 1 >= c.budget && EndsWell(shown, c.budget, |left|))
  }

  ghost predicate Walked(dom: Dom, path: seq<Tag>, c: Cursor, after: (Dom, Cursor)) {
    && Spent(Glyphs(dom, path), c, Glyphs(after.0, path), after.1)
    && (!after.1.cut ==> after.0 == dom)
    && (!after.1.ellipsised && NoEmptyTexts(dom) ==> NoEmptyTexts(after.0))
  }

  /** What comes after a part kept whole is cut the same within the whole. */
  lemma WholeFirst(a: seq<Glyph>, b: seq<Glyph>, c: Cursor, left: seq<Glyph>, after: Cursor)
    requires |a| <= c.budget && Spent(b, c.(budget := c.budget - |a|), left, after)
    ensures Spent(a + b, c, a + left, after)
  {
    if |b| > c.budget - |a| {
      var k := if after.ellipsised then |left| - 1 else |left|;
      assert (a + b)[..|a| + k] == a + b[..k];
      if after.ellipsised { assert (a + b)[|a| + k - 1] == b[k - 1]; }
      if SingleSpacedGlyphs(a + b) {
        SingleSpacedParts(a, b);
        assert (a + b)[|a| + k] == b[k];
      }
    }
  }

  lemma SingleSpacedParts(a: seq<Glyph>, b: seq<Glyph>)
    requires SingleSpacedGlyphs(a + b)
    ensures SingleSpacedGlyphs(a) && SingleSpacedGlyphs(b)
  {
    forall i | 0 <= i < |a| - 1 ensures !(IsSpace(a[i].letter) && IsSpace(a[i + 1].letter)) {
      assert (a + b)[i] == a[i] && (a + b)[i + 1] == a[i + 1];
    }
    forall i | 0 <= i < |b| - 1 ensures !(IsSpace(b[i].letter) && IsSpace(b[i + 1].letter)) {
      assert (a + b)[|a| + i] == b[i] && (a + b)[|a| + i + 1] == b[i + 1];
    }
  }

  /** What comes after a part that was cut does not matter. */
  lemma CutFirst(a: seq<Glyph>, b: seq<Glyph>, c: Cursor, left: seq<Glyph>, after: Cursor)
    requires Spent(a, c, left, after) && after.cut && !c.cut
    ensures Spent(a + b, c, left, after)
  {
    var k := if after.ellipsised then |left| - 1 else |left|;
    assert (a + b)[..k] == a[..k];
    if SingleSpacedGlyphs(a + b) { SingleSpacedParts(a, b); }
  }

  lemma {:induction false} WalkIs(dom: Dom, path: seq<Tag>, c: Cursor)
    requires !c.cut && !c.ellipsised
    ensures Walked(dom, path, c, Walk(dom, c))
    decreases dom
  {
    hide Walked;
    match dom
    case End => WalkEnd(path, c);
    case Text(text, next) =>
      if |text| <= c.budget {
        WalkIs(next, path, c.(budget := c.budget - |text|));
        WalkWholeText(text, next, path, c, Walk(next, c.(budget := c.budget - |text|)));
      } else {
        WalkText(text, next, path, c);
      }
    case Element(tag, children, next) =>
      var (inside, between) := Walk(children, c);
      WalkIs(children, path + [tag], c);
      NotCut(children, path + [tag], c);
      if between.cut {
        WalkCut(next, between);
        WalkCutElement(tag, children, next, path, c, Walk(children, c));
      } else {
        WalkIs(next, path, between);
        WalkWholeElement(tag, children, next, path, c, Walk(next, between));
      }
  }

  lemma WalkEnd(path: seq<Tag>, c: Cursor)
    requires !c.cut && !c.ellipsised
    ensures Walked(End, path, c, Walk(End, c))
  {
  }

  lemma NotCut(dom: Dom, path: seq<Tag>, c: Cursor)
    requires !c.cut && !c.ellipsised && Walked(dom, path, c, Walk(dom, c))
    ensures !Walk(dom, c).1.cut ==>
      Walk(dom, c) == (dom, c.(budget := c.budget - |Glyphs(dom, path)|)) && |Glyphs(dom, path)| <= c.budget
  {
  }

  lemma WalkWholeText(text: string, next: Dom, path: seq<Tag>, c: Cursor, after: (Dom, Cursor))
    requires !c.cut && !c.ellipsised && |text| <= c.budget
    requires Walked(next, path, c.(budget := c.budget - |text|), after)
    ensures Walked(Text(text, next), path, c, (Text(text, after.0), after.1))
  {
    hide Spent, GlyphsOfText;
    WholeFirst(GlyphsOfText(text, path), Glyphs(next, path), c, Glyphs(after.0, path), after.1);
    assert Glyphs(Text(text, after.0), path) == GlyphsOfText(text, path) + Glyphs(after.0, path);
  }

  lemma WalkCutElement(tag: Tag, children: Dom, next: Dom, path: seq<Tag>, c: Cursor, after: (Dom, Cursor))
    requires !c.cut && !c.ellipsised && Walked(children, path + [tag], c, after) && after.1.cut
    ensures Walked(Element(tag, children, next), path, c, (Element(tag, after.0, End), after.1))
  {
    hide Spent;
    CutFirst(Glyphs(children, path + [tag]), Glyphs(next, path), c, Glyphs(after.0, path + [tag]), after.1);
    assert Glyphs(End, path) == [];
    assert Glyphs(Element(tag, after.0, End), path) == Glyphs(after.0, path + [tag]);
    assert Glyphs(Element(tag, children, next), path) == Glyphs(children, path + [tag]) + Glyphs(next, path);
    assert NoEmptyTexts(Element(tag, children, next)) ==> NoEmptyTexts(children);
    assert NoEmptyTexts(after.0) ==> NoEmptyTexts(Element(tag, after.0, End));
    assert Spent(Glyphs(Element(tag, children, next), path), c, Glyphs(Element(tag, after.0, End), path), after.1);
  }

  lemma WalkWholeElement(tag: Tag, children: Dom, next: Dom, path: seq<Tag>, c: Cursor, after: (Dom, Cursor))
    requires !c.cut && !c.ellipsised && |Glyphs(children, path + [tag])| <= c.budget
    requires Walked(next, path, c.(budget := c.budget - |Glyphs(children, path + [tag])|), after)
    ensures Walked(Element(tag, children, next), path, c, (Element(tag, children, after.0), after.1))
  {
    hide Spent;
    WholeFirst(Glyphs(children, path + [tag]), Glyphs(next, path), c, Glyphs(after.0, path), after.1);
    assert Glyphs(Element(tag, children, after.0), path) == Glyphs(children, path + [tag]) + Glyphs(after.0, path);
  }

  lemma WalkText(text: string, next: Dom, path: seq<Tag>, c: Cursor)
    requires !c.cut && !c.ellipsised && |text| > c.budget
    ensures Walked(Text(text, next), path, c, Walk(Text(text, next), c))
  {
    var kept := Clip(text, c.budget);
    hide TrimEnd, LastSpace, IsSpace, Clip;
    var after := c.(cut := true, ellipsised := kept != []);
    WalkCut(next, after);
    var left := if kept != [] then Text(kept + [ELLIPSIS], End) else End;
    assert Walk(Text(text, next), c) == (left, after);
    assert Glyphs(left, path) == if kept != [] then GlyphsOfText(kept + [ELLIPSIS], path) else [];
    var shown := GlyphsOfText(text, path) + Glyphs(next, path);
    ClippedGlyphs(text, kept, Glyphs(next, path), path);
    ClippedWell(text, kept, Glyphs(next, path), path, c.budget);
    hide GlyphsOfText, SingleSpaced, SingleSpacedGlyphs, EndsWell;
    assert Spent(shown, c, Glyphs(left, path), after);
  }

  lemma ClippedGlyphs(text: string, kept: string, rest: seq<Glyph>, path: seq<Tag>)
    requires kept <= text
    ensures var shown := GlyphsOfText(text, path) + rest;
      && GlyphsOfText(kept + [ELLIPSIS], path) == shown[..|kept|] + [Glyph(ELLIPSIS, path)]
      && forall i :: 0 <= i < |kept| ==> shown[i] == Glyph(kept[i], path)
  {
  }

  lemma ClippedWell(text: string, kept: string, rest: seq<Glyph>, path: seq<Tag>, budget: nat)
    requires kept == Clip(text, budget) && |text| > budget
    ensures var shown := GlyphsOfText(text, path) + rest;
      SingleSpacedGlyphs(shown) ==> 2 * |kept| + 1 >= budget && EndsWell(shown, budget, |kept|)
  {
    hide IsSpace, Clip;
    var shown := GlyphsOfText(text, path) + rest;
    assert forall i :: 0 <= i < |text| ==> shown[i].letter == text[i];
    if SingleSpacedGlyphs(shown) {
      forall i | 0 <= i < |text| - 1 ensures !(IsSpace(text[i]) && IsSpace(text[i + 1])) {
        assert shown[i].letter == text[i] && shown[i + 1].letter == text[i + 1];
      }
    }
  }

  lemma {:induction false} TextlessGlyphs(dom: Dom, path: seq<Tag>)
    ensures Glyphs(DropEmptyElements(dom), path) == Glyphs(dom, path)
    ensures NoEmptyTexts(dom) ==> NoEmptyTexts(DropEmptyElements(dom))
  {
    match dom
    case End =>
    case Text(_, next) => TextlessGlyphs(next, path);
    case Element(tag, children, next) =>
      TextlessGlyphs(children, path + [tag]);
      TextlessGlyphs(next, path);
  }

  /** What trimming the last text takes off: trailing spaces, and it does take them off a text that holds more. */
  ghost predicate TrimmedTo(shown: seq<Glyph>, left: seq<Glyph>) {
    && |left| <= |shown| && left == shown[..|left|]
    && (forall i :: |left| <= i < |shown| ==> IsSpace(shown[i].letter))
    && (|left| == |shown| > 0 ==> !IsSpace(shown[|shown| - 1].letter))
  }

  lemma TrimmedAfter(a: seq<Glyph>, b: seq<Glyph>, left: seq<Glyph>)
    requires TrimmedTo(b, left) && b != []
    ensures TrimmedTo(a + b, a + left)
  {
    assert (a + b)[..|a| + |left|] == a + b[..|left|];
  }

  lemma {:induction false} TextsAndGlyphs(dom: Dom, path: seq<Tag>)
    requires NoEmptyTexts(dom)
    ensures Texts(dom) == [] <==> Glyphs(dom, path) == []
  {
    match dom
    case End =>
    case Text(_, next) =>
    case Element(tag, children, next) =>
      TextsAndGlyphs(children, path + [tag]);
      TextsAndGlyphs(next, path);
  }

  lemma {:induction false} TrimLastIs(dom: Dom, path: seq<Tag>)
    requires NoEmptyTexts(dom)
    ensures TrimmedTo(Glyphs(dom, path), Glyphs(TrimLast(dom), path))
  {
    match dom
    case End =>
    case Text(text, next) =>
      TextsAndGlyphs(next, path);
      if Texts(next) != [] {
        TrimLastIs(next, path);
        TrimmedAfter(GlyphsOfText(text, path), Glyphs(next, path), Glyphs(TrimLast(next), path));
      }
    case Element(tag, children, next) =>
      TextsAndGlyphs(next, path);
      if Texts(next) != [] {
        TrimLastIs(next, path);
        TrimmedAfter(Glyphs(children, path + [tag]), Glyphs(next, path), Glyphs(TrimLast(next), path));
      } else {
        TrimLastIs(children, path + [tag]);
      }
  }

  lemma {:induction false} AppendGlyphs(dom: Dom, more: Dom, path: seq<Tag>)
    ensures Glyphs(Append(dom, more), path) == Glyphs(dom, path) + Glyphs(more, path)
  {
    match dom
    case End =>
    case Text(_, next) => AppendGlyphs(next, more, path);
    case Element(_, _, next) => AppendGlyphs(next, more, path);
  }

  /**
   * `shown` cut to `left`: at most `limit` characters and at least half as many, up to the limit or to
   * a word boundary, the last no space, and one ellipsis.
   */
  ghost predicate CutShort(shown: seq<Glyph>, limit: nat, left: seq<Glyph>) {
    && 0 < |left| <= limit + 1
    && var k := |left| - 1;
      && k <= |shown| && left[..k] == shown[..k] && left[k].letter == '\U{2026}'
      && 2 * k + 1 >= limit && EndsWell(shown, limit, k)
      && (k > 0 ==> !IsSpace(shown[k - 1].letter))
      && (left[k].within == [] || (k > 0 && left[k].within == shown[k - 1].within))
  }

  /**
   * `truncate` leaves a tree that fits alone.  Of one that does not, it shows the first so many
   * characters, no more than the limit and no fewer than half of it, up to the limit or to a word
   * boundary, ending in no space, each inside the same elements with the same attributes as before,
   * and then one ellipsis: in the element of the last character shown if its text was cut, else
   * outside all elements.
   */
  lemma TruncateShows(root: Dom, limit: nat)
    requires Tidy(root)
    ensures if |TextOf(root)| <= limit then Truncate(root, limit) == root
      else CutShort(Glyphs(root, []), limit, Glyphs(Truncate(root, limit), []))
  {
    hide Walk, Walked, CutShort, Glyphs, Tidy;
    var c := Cursor(limit, false, false);
    var (walked, after) := Walk(root, c);
    WalkIs(root, [], c);
    if |TextOf(root)| <= limit {
      WholeTree(root, limit, walked, after);
    } else if after.ellipsised {
      CutInText(root, limit, walked, after);
    } else {
      CutBetweenTexts(root, limit, walked, after);
    }
  }

  lemma WholeTree(root: Dom, limit: nat, walked: Dom, after: Cursor)
    requires |TextOf(root)| <= limit && Walked(root, [], Cursor(limit, false, false), (walked, after))
    ensures walked == root && !after.cut
  {
  }

  lemma CutInText(root: Dom, limit: nat, walked: Dom, after: Cursor)
    requires Tidy(root) && |TextOf(root)| > limit
    requires Walked(root, [], Cursor(limit, false, false), (walked, after)) && after.ellipsised
    ensures CutShort(Glyphs(root, []), limit, Glyphs(walked, []))
  {
    hide Glyphs, Tidy, SingleSpacedGlyphs, IsSpace;
    TidyGlyphs(root);
  }

  lemma CutBetweenTexts(root: Dom, limit: nat, walked: Dom, after: Cursor)
    requires Tidy(root) && |TextOf(root)| > limit
    requires Walked(root, [], Cursor(limit, false, false), (walked, after)) && !after.ellipsised
    ensures after.cut
    ensures CutShort(Glyphs(root, []), limit,
      Glyphs(Append(TrimLast(DropEmptyElements(walked)), Text([ELLIPSIS], End)), []))
  {
    hide Walked, Tidy, CutShort, Glyphs, TextOf, NoEmptyTexts, DropEmptyElements, TrimLast, TrimmedTo, Append, EndsWell;
    hide SingleSpacedGlyphs, IsSpace;
    WalkedPrefix(root, limit, walked, after);
    var bare := DropEmptyElements(walked);
    TextlessGlyphs(walked, []);
    TrimLastIs(bare, []);
    TidyGlyphs(root);
    LoneEllipsis(TrimLast(bare));
    ShortOfTrimmed(Glyphs(root, []), limit, Glyphs(walked, []), Glyphs(TrimLast(bare), []));
  }

  lemma TidyGlyphs(root: Dom)
    requires Tidy(root)
    ensures NoEmptyTexts(root) && SingleSpacedGlyphs(Glyphs(root, []))
  {
    hide IsSpace, Glyphs;
    GlyphsAreText(root, []);
    var shown, text := Glyphs(root, []), TextOf(root);
    forall i | 0 <= i < |shown| - 1 ensures !(IsSpace(shown[i].letter) && IsSpace(shown[i + 1].letter)) {
      assert shown[i].letter == text[i] && shown[i + 1].letter == text[i + 1];
    }
  }

  lemma WalkedPrefix(root: Dom, limit: nat, walked: Dom, after: Cursor)
    requires Tidy(root) && |TextOf(root)| > limit
    requires Walked(root, [], Cursor(limit, false, false), (walked, after)) && !after.ellipsised
    ensures after.cut && NoEmptyTexts(walked)
    ensures var shown, kept := Glyphs(root, []), Glyphs(walked, []);
      |kept| <= limit <= |kept| + 1 && |kept| <= |shown| && kept == shown[..|kept|] && EndsWell(shown, limit, |kept|)
  {
    hide Glyphs, Tidy, SingleSpacedGlyphs, IsSpace, NoEmptyTexts;
    TidyGlyphs(root);
  }

  lemma LoneEllipsis(dom: Dom)
    ensures Glyphs(Append(dom, Text([ELLIPSIS], End)), []) == Glyphs(dom, []) + [Glyph(ELLIPSIS, [])]
  {
    AppendGlyphs(dom, Text([ELLIPSIS], End), []);
  }

  /** Of single-spaced characters cut between texts, trimming takes off one space at most. */
  lemma ShortOfTrimmed(shown: seq<Glyph>, limit: nat, kept: seq<Glyph>, left: seq<Glyph>)
    requires SingleSpacedGlyphs(shown) && |kept| <= |shown| && kept == shown[..|kept|] && TrimmedTo(kept, left)
    requires |kept| <= limit <= |kept| + 1 && EndsWell(shown, limit, |kept|)
    ensures CutShort(shown, limit, left + [Glyph(ELLIPSIS, [])])
  {
    hide IsSpace;
    var k, cut := |left|, left + [Glyph(ELLIPSIS, [])];
    assert |cut| - 1 == k && cut[..k] == left && cut[k] == Glyph(ELLIPSIS, []);
    TrimmedOnce(shown, kept, left);
  }

  lemma GlyphSpacesAtEnd(shown: seq<Glyph>, from: nat, to: nat)
    requires from <= to <= |shown| && forall i :: from <= i < to ==> IsSpace(shown[i].letter)
    ensures SingleSpacedGlyphs(shown) ==> to <= from + 1
  {
    if from + 1 < to { assert IsSpace(shown[from].letter) && IsSpace(shown[from + 1].letter); }
  }

  lemma TrimmedOnce(shown: seq<Glyph>, kept: seq<Glyph>, left: seq<Glyph>)
    requires SingleSpacedGlyphs(shown) && |kept| <= |shown| && kept == shown[..|kept|] && TrimmedTo(kept, left)
    ensures left == shown[..|left|] && (left != [] ==> !IsSpace(shown[|left| - 1].letter))
    ensures |kept| - 1 <= |left| <= |kept|
    ensures |left| < |kept| ==> IsSpace(shown[|left|].letter) && (|kept| < |shown| ==> !IsSpace(shown[|kept|].letter))
  {
    hide IsSpace;
    var k := |left|;
    assert forall i :: k <= i < |kept| ==> IsSpace(kept[i].letter) && kept[i] == shown[i];
    GlyphSpacesAtEnd(shown, k, |kept|);
    assert 0 < k < |kept| ==> IsSpace(shown[k].letter) && !IsSpace(shown[k - 1].letter);
    assert 0 < k == |kept| ==> kept[k - 1] == shown[k - 1];
    assert k < |kept| < |shown| ==> k == |kept| - 1;
    assert k < |kept| < |shown| ==> IsSpace(shown[|kept| - 1].letter);
  }

  /**
   * The page on one line, with all its inline elements and no empty text: each text in its own element,
   * and each character within its own.
   */
  ghost predicate OnOneLine(body: Html, line: Dom) {
    && TextOf(line) == OneLine(PlainText(body)) && Skeleton(line) == InlineElements(body) && Tidy(line)
    && IsCollapsed(Flat(body), line) && Glyphs(line, []) == OneLineGlyphs(PlainGlyphs(body, []))
  }

  /**
   * `toPreviewHtml`, up to its writing out: the page on one line if that fits, and otherwise that line
   * cut short.
   */
  method ToPreview(body: Html, limit: nat) returns (r: Dom)
    ensures if |OneLine(PlainText(body))| <= limit then OnOneLine(body, r)
      else exists line: Dom :: OnOneLine(body, line) && CutShort(Glyphs(line, []), limit, Glyphs(r, []))
  {
    var preview := Flatten(body, End);
    FlattenText(body, End);
    FlattenSkeleton(body, End);
    FlattenIs(body, End);
    FlatGlyphs(body, []);
    assert TextOf(preview) == PlainText(body) && preview == Flat(body);
    hide Glyphs, PlainGlyphs, OneLineGlyphs, Flat, IsCollapsed, InlineElements;
    preview := CollapseWhitespace(preview);
    assert OnOneLine(body, preview);
    hide OnOneLine, Tidy, CutShort;
    TidyLine(body, preview);
    TruncateShows(preview, limit);
    r := TruncateTree(preview, limit);
  }

  lemma TidyLine(body: Html, line: Dom)
    requires OnOneLine(body, line)
    ensures Tidy(line) && TextOf(line) == OneLine(PlainText(body))
  {
  }
}
