/**
  Plain-text extraction from tldraw's rich-text trees (`extractTextFromRichText`
  and its inner `extractFromNode` in src/utils/storage.ts).
 */
module RichText {
  import opened Wrappers
  import Strings

  /** The `content` of a node: an array of child nodes, or anything else
      (missing, falsy, or not an array), which the code ignores. */
  datatype Children = Absent | Items(nodes: seq<Node>)

  /** A rich-text value. `NotObject` is `null`, `undefined` or a primitive;
      every object, an array included, is an `Object` with whatever of
      `type`, `text` and `content` it carries (an array carries none).
      `type` and `text` are strings; a node whose `text` is some other
      truthy value is not modelled. */
  datatype Node =
    | NotObject
    | Object(kind: Option<string>, text: Option<string>, content: Children)

  /** A node that `extractFromNode` returns as it is: type "text" with a non-empty text. */
  predicate IsTextLeaf(n: Node)
  {
    n.Object? && n.kind == Some("text") && n.text.Some? && n.text.value != ""
  }

  /** `extractFromNode`: a text leaf gives its text, a node with a `content`
      array the concatenation of its children, anything else ''. The result is
      the concatenation of the node's text leaves in document order. */
  function FromNode(n: Node): (r: string)
    ensures r == Strings.Join(Leaves(n), "")
  {
    if IsTextLeaf(n) then n.text.value
    else if n.Object? && n.content.Items? then Strings.Join(FromNodes(n.content.nodes), "")
    else ""
  }

  /** `nodes.map(extractFromNode)`; its `join('')` concatenates all the
      children's leaves in order. */
  function FromNodes(ns: seq<Node>): (r: seq<string>)
    ensures |r| == |ns|
    ensures forall i :: 0 <= i < |ns| ==> r[i] == FromNode(ns[i])
    ensures Strings.Join(r, "") == Strings.Join(LeavesOf(ns), "")
  {
    if ns == [] then []
    else
      var first, rest := FromNode(ns[0]), FromNodes(ns[1..]);
      Strings.ConcatAppend([first], rest);
      Strings.ConcatAppend(Leaves(ns[0]), LeavesOf(ns[1..]));
      [first] + rest
  }

  /** The top-level blocks of a rich-text value, when it has a `content` array. */
  predicate HasBlocks(rt: Node)
  {
    rt.Object? && rt.content.Items?
  }

  /** `extractTextFromRichText`: the top-level blocks' texts joined with line
      feeds, or None (`null`) for a value without blocks or an empty result.
      That happens exactly when there are no blocks, or a single block whose
      text is empty: two empty blocks give "\n", not `null`. */
  function ExtractText(rt: Node): (r: Option<string>)
    ensures r != Some("")
    ensures r.Some? ==> HasBlocks(rt) && r.value == Strings.Join(FromNodes(rt.content.nodes), "\n")
    ensures r.None? <==>
      (!HasBlocks(rt) || |rt.content.nodes| == 0 ||
       (|rt.content.nodes| == 1 && FromNode(rt.content.nodes[0]) == ""))
  {
    if !HasBlocks(rt) then None
    else
      var joined := Strings.Join(FromNodes(rt.content.nodes), "\n");
      JoinEmpty(FromNodes(rt.content.nodes), "\n");
      if joined == "" then None else Some(joined)
  }

  /** A join with a non-empty separator is empty only for at most one empty part. */
  lemma {:induction false} JoinEmpty(parts: seq<string>, sep: string)
    requires sep != ""
    ensures Strings.Join(parts, sep) == "" <==> |parts| == 0 || (|parts| == 1 && parts[0] == "")
  {
    if |parts| >= 2 {
      assert |Strings.Join(parts, sep)| >= |sep|;
    }
  }

  /** The text leaves of a tree, depth-first and left to right: an independent
      reading of the order in which extraction visits text. */
  function Leaves(n: Node): seq<string>
  {
    if IsTextLeaf(n) then [n.text.value]
    else if n.Object? && n.content.Items? then LeavesOf(n.content.nodes)
    else []
  }

  function LeavesOf(ns: seq<Node>): seq<string>
  {
    if ns == [] then [] else Leaves(ns[0]) + LeavesOf(ns[1..])
  }

  /** Every text leaf is non-empty: empty texts never reach the output. */
  lemma {:induction false} LeavesNonEmpty(n: Node)
    ensures forall i :: 0 <= i < |Leaves(n)| ==> Leaves(n)[i] != ""
  {
    if !IsTextLeaf(n) && n.Object? && n.content.Items? {
      LeavesOfNonEmpty(n.content.nodes);
    }
  }

  lemma {:induction false} LeavesOfNonEmpty(ns: seq<Node>)
    ensures forall i :: 0 <= i < |LeavesOf(ns)| ==> LeavesOf(ns)[i] != ""
  {
    if ns != [] {
      LeavesNonEmpty(ns[0]);
      LeavesOfNonEmpty(ns[1..]);
    }
  }

  lemma {:induction false} ConcatKeepsOut(parts: seq<string>, c: char)
    requires forall i :: 0 <= i < |parts| ==> c !in parts[i]
    ensures c !in Strings.Join(parts, "")
  {
    if parts != [] {
      ConcatKeepsOut(parts[1..], c);
      Strings.ConcatAppend([parts[0]], parts[1..]);
      assert [parts[0]] + parts[1..] == parts;
    }
  }

  /** When no text leaf holds a line feed, splitting the extracted text on
      line feeds gives back the top-level blocks' texts one by one. */
  lemma SplitRecoversBlocks(rt: Node)
    requires HasBlocks(rt) && rt.content.nodes != []
    requires forall i, j :: 0 <= i < |rt.content.nodes| && 0 <= j < |Leaves(rt.content.nodes[i])| ==>
      '\n' !in Leaves(rt.content.nodes[i])[j]
    ensures ExtractText(rt).Some? ==> Strings.Split(ExtractText(rt).value, '\n') == FromNodes(rt.content.nodes)
  {
    var blocks := rt.content.nodes;
    var texts := FromNodes(blocks);
    forall i | 0 <= i < |texts|
      ensures '\n' !in texts[i]
    {
      ConcatKeepsOut(Leaves(blocks[i]), '\n');
    }
    Strings.SplitJoin(texts, '\n');
  }

  function TextLeaf(s: string): Node
  {
    Object(Some("text"), Some(s), Absent)
  }

  function Container(kind: string, children: seq<Node>): Node
  {
    Object(Some(kind), None, Items(children))
  }

  /** Two sibling leaves "A" and "B" in one paragraph followed by a paragraph
      holding "C" extract to "AB\nC". */
  lemma TwoParagraphs()
    ensures ExtractText(Container("doc", [
      Container("paragraph", [TextLeaf("A"), TextLeaf("B")]),
      Container("paragraph", [TextLeaf("C")])])) == Some("AB\nC")
  {
    var p1 := Container("paragraph", [TextLeaf("A"), TextLeaf("B")]);
    var p2 := Container("paragraph", [TextLeaf("C")]);
    assert FromNodes([TextLeaf("A"), TextLeaf("B")]) == ["A", "B"];
    assert FromNode(p1) == "AB";
    assert FromNodes([TextLeaf("C")]) == ["C"];
    assert FromNode(p2) == "C";
    assert FromNodes([p1, p2]) == ["AB", "C"];
    assert Strings.Join(["AB", "C"], "\n") == "AB\nC";
    var doc := Container("doc", [p1, p2]);
    assert ExtractText(doc) == Some("AB\nC");
  }
}
