/** The Markdown helpers of server/utils/content.ts over the parsed body as
    they walk it, nodes with a `tag`, a `value` and `children`: the plain
    text of a document, and the first child value of its first `h1` (the
    title) or first `p` (the description). */
module Content {
  import opened Wrappers
  import Text
  import Seqs

  /** A node of the parsed body: a bare string, or an element with an
      optional tag, an optional `value` and its children (an absent
      `children` array is the empty one: no function here tells them apart). */
  datatype Node =
    | Str(s: string)
    | Element(tag: Option<string>, value: Option<string>, children: seq<Node>)

  datatype Body = Body(children: Option<seq<Node>>)

  /** A content document as the collections return it; only `body` is read. */
  datatype Doc = Doc(body: Option<Body>)

  /** `node.value` is truthy. */
  predicate HasValue(n: Node)
  {
    n.Element? && n.value.Some? && n.value.value != ""
  }

  /** `extractText`: a string is itself, a truthy `value` wins over the
      children, otherwise the children's texts are concatenated. */
  function ExtractText(n: Node): string
    decreases n, 1
  {
    match n
    case Str(s) => s
    case Element(_, value, children) =>
      if value.Some? && value.value != "" then value.value
      else ConcatTexts(children)
  }

  /** `children.map(extractText).join('')`. */
  function ConcatTexts(ns: seq<Node>): string
    decreases ns, 0
  {
    if ns == [] then "" else ExtractText(ns[0]) + ConcatTexts(ns[1..])
  }

  /** The texts of a list of nodes, in order. */
  function Texts(ns: seq<Node>): (r: seq<string>)
    ensures |r| == |ns|
    ensures forall k :: 0 <= k < |ns| ==> r[k] == ExtractText(ns[k])
  {
    seq(|ns|, k requires 0 <= k < |ns| => ExtractText(ns[k]))
  }

  /** The children's texts are concatenated with no separator. */
  lemma {:induction false} ConcatTextsIsJoin(ns: seq<Node>)
    ensures ConcatTexts(ns) == Text.Join(Texts(ns), "")
  {
    if ns != [] {
      ConcatTextsIsJoin(ns[1..]);
      assert Texts(ns)[1..] == Texts(ns[1..]);
      if |ns| == 1 {
        assert ConcatTexts(ns[1..]) == "";
      }
    }
  }

  /** The text of an element, stated against `join('')`. */
  lemma ExtractTextElement(tag: Option<string>, value: Option<string>, children: seq<Node>)
    ensures value.Some? && value.value != "" ==> ExtractText(Element(tag, value, children)) == value.value
    ensures !(value.Some? && value.value != "") ==>
              ExtractText(Element(tag, value, children)) == Text.Join(Texts(children), "")
    ensures !(value.Some? && value.value != "") && children == [] ==>
              ExtractText(Element(tag, value, children)) == ""
  {
    ConcatTextsIsJoin(children);
  }

  /** Concatenation distributes over splitting the list of children. */
  lemma {:induction false} ConcatTextsAppend(a: seq<Node>, b: seq<Node>)
    ensures ConcatTexts(a + b) == ConcatTexts(a) + ConcatTexts(b)
  {
    if a != [] {
      assert (a + b)[1..] == a[1..] + b;
      ConcatTextsAppend(a[1..], b);
    } else {
      assert a + b == b;
    }
  }

  /** The text of every child ends up in the text of the children. */
  lemma ConcatTextsIncludes(ns: seq<Node>, k: nat)
    requires k < |ns|
    ensures Text.Includes(ConcatTexts(ns), ExtractText(ns[k]))
  {
    ConcatTextsIsJoin(ns);
    Text.JoinIncludes(Texts(ns), "", k);
  }

  /** The top-level children, `[]` when the body or its children are missing. */
  function TopChildren(doc: Doc): seq<Node>
  {
    if doc.body.Some? && doc.body.value.children.Some? then doc.body.value.children.value else []
  }

  /** `getMarkdownContent`: the texts of the top-level children joined by a blank line. */
  function MarkdownContent(doc: Doc): (r: string)
    ensures doc.body.None? || doc.body.value.children.None? ==> r == ""
    ensures r == Text.Join(Texts(TopChildren(doc)), "\n\n")
  {
    if doc.body.None? then ""
    else match doc.body.value.children
      case None => ""
      case Some(children) =>
        var joined := Text.Join(Texts(children), "\n\n");
        if joined != "" then joined else ""
  }

  /** The content is as long as the children's texts plus two characters per gap. */
  lemma MarkdownContentLength(doc: Doc)
    ensures |MarkdownContent(doc)| ==
            Text.SumLengths(Texts(TopChildren(doc)))
            + (if TopChildren(doc) == [] then 0 else 2 * (|TopChildren(doc)| - 1))
  {
  }

  /** `node.tag === tag`; a bare string has no tag. */
  predicate HasTag(n: Node, tag: string)
  {
    n.Element? && n.tag == Some(tag)
  }

  /** `node.children?.[0] ? node.children[0].value : undefined`: the value of
      the first child when it is an element (a string has no `value`). */
  function LeadValue(n: Node): Option<string>
  {
    if n.Element? && n.children != [] && n.children[0].Element? then n.children[0].value else None
  }

  /** The lead value of the first top-level node tagged `tag`. */
  function FirstTaggedValue(doc: Doc, tag: string): (r: Option<string>)
    ensures (forall k :: 0 <= k < |TopChildren(doc)| ==> !HasTag(TopChildren(doc)[k], tag)) ==> r.None?
    ensures forall i :: 0 <= i < |TopChildren(doc)| && HasTag(TopChildren(doc)[i], tag)
                        && (forall k :: 0 <= k < i ==> !HasTag(TopChildren(doc)[k], tag))
                        ==> r == LeadValue(TopChildren(doc)[i])
  {
    if doc.body.None? || doc.body.value.children.None? then None
    else
      var children := doc.body.value.children.value;
      match Seqs.FindFirst((n: Node) => HasTag(n, tag), children)
      case None => None
      case Some(i) =>
        assert TopChildren(doc) == children && HasTag(TopChildren(doc)[i], tag);
        LeadValue(children[i])
  }

  /** `extractTitle`. */
  function ExtractTitle(doc: Doc): (r: Option<string>)
    ensures (forall k :: 0 <= k < |TopChildren(doc)| ==> !HasTag(TopChildren(doc)[k], "h1")) ==> r.None?
    ensures forall i :: 0 <= i < |TopChildren(doc)| && HasTag(TopChildren(doc)[i], "h1")
                        && (forall k :: 0 <= k < i ==> !HasTag(TopChildren(doc)[k], "h1"))
                        ==> r == LeadValue(TopChildren(doc)[i])
  {
    FirstTaggedValue(doc, "h1")
  }

  /** `extractDescription`. */
  function ExtractDescription(doc: Doc): (r: Option<string>)
    ensures (forall k :: 0 <= k < |TopChildren(doc)| ==> !HasTag(TopChildren(doc)[k], "p")) ==> r.None?
    ensures forall i :: 0 <= i < |TopChildren(doc)| && HasTag(TopChildren(doc)[i], "p")
                        && (forall k :: 0 <= k < i ==> !HasTag(TopChildren(doc)[k], "p"))
                        ==> r == LeadValue(TopChildren(doc)[i])
  {
    FirstTaggedValue(doc, "p")
  }

  /** Nodes after the first `tag` node never change what is found. */
  lemma FirstTaggedIgnoresLater(cs: seq<Node>, later: seq<Node>, tag: string)
    requires exists k :: 0 <= k < |cs| && HasTag(cs[k], tag)
    ensures FirstTaggedValue(Doc(Some(Body(Some(cs + later)))), tag)
            == FirstTaggedValue(Doc(Some(Body(Some(cs)))), tag)
  {
    var p := (n: Node) => HasTag(n, tag);
    var k :| 0 <= k < |cs| && HasTag(cs[k], tag);
    assert p(cs[k]);
    Seqs.FindFirstIgnoresSuffix(p, cs, later);
  }

  /** A document whose first `h1` has an element child with a value is titled by it. */
  lemma TitleOfHeading(title: string, rest: seq<Node>)
    ensures ExtractTitle(Doc(Some(Body(Some([Element(Some("h1"), None, [Element(None, Some(title), [])])] + rest)))))
            == Some(title)
  {
    var cs := [Element(Some("h1"), None, [Element(None, Some(title), [])])] + rest;
    assert HasTag(cs[0], "h1");
  }
}
