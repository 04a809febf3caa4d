/**
 * The parsed HTML document as the converters see it, and the DOM queries
 * they use: `textContent`, `getAttribute`, `querySelectorAll` over all
 * descendants, `:scope >` over direct children, and `children`.
 */
module Html {
  import opened Text

  /**
   * A DOM node. `tag` is the lower-cased tag name; `attributes` holds the
   * attributes as written; `backgroundColor` is the inline style's parsed
   * `background-color` ("" when none). `Other` stands for comments and every
   * other node kind that is neither text nor an element.
   */
  datatype Node =
    | TextNode(data: string)
    | Element(tag: string, attributes: map<string, string>, backgroundColor: string, children: seq<Node>)
    | Other

  /** `getAttribute(name) || ""`: an absent attribute reads as the empty string. */
  function Attribute(n: Node, name: string): string
    requires n.Element?
  {
    if name in n.attributes then n.attributes[name] else ""
  }

  /** `textContent`: the text of every text node below, in document order. */
  function TextContent(n: Node): string
    decreases n, 1
  {
    match n
    case TextNode(d) => d
    case Element(_, _, _, cs) => TextContentSeq(cs)
    case Other => ""
  }

  function TextContentSeq(ns: seq<Node>): string
    decreases ns, 0
  {
    if ns == [] then "" else TextContent(ns[0]) + TextContentSeq(ns[1..])
  }

  /** True for an element whose tag is in `tags`. */
  predicate HasTag(n: Node, tags: set<string>) {
    n.Element? && n.tag in tags
  }

  /**
   * `querySelectorAll` for a list of tag names, run on an element whose child
   * nodes are `ns`: every descendant element with one of the tags, in document
   * order (an element before its own descendants).
   */
  function SelectAll(ns: seq<Node>, tags: set<string>): (r: seq<Node>)
    ensures forall k :: 0 <= k < |r| ==> HasTag(r[k], tags)
    decreases ns
  {
    if ns == [] then []
    else
      var n := ns[0];
      (if n.Element? then (if n.tag in tags then [n] else []) + SelectAll(n.children, tags) else [])
      + SelectAll(ns[1..], tags)
  }

  /** `querySelectorAll(":scope > tag")` on an element whose child nodes are `ns`. */
  function SelectChildren(ns: seq<Node>, tag: string): (r: seq<Node>)
    ensures forall k :: 0 <= k < |r| ==> HasTag(r[k], {tag})
    ensures forall n :: n in r ==> n in ns
    ensures |r| <= |ns|
  {
    if ns == [] then []
    else (if HasTag(ns[0], {tag}) then [ns[0]] else []) + SelectChildren(ns[1..], tag)
  }

  /** `children`: the element children, leaving out text and other nodes. */
  function ElementChildren(ns: seq<Node>): (r: seq<Node>)
    ensures forall k :: 0 <= k < |r| ==> r[k].Element?
    ensures forall n :: n in r <==> n in ns && n.Element?
    ensures |r| <= |ns|
  {
    if ns == [] then []
    else (if ns[0].Element? then [ns[0]] else []) + ElementChildren(ns[1..])
  }

  /** `querySelector` finds something exactly when a node with one of the tags lies below. */
  lemma SelectAllFinds(ns: seq<Node>, tags: set<string>)
    ensures SelectAll(ns, tags) != [] <==> exists m :: Below(m, ns) && HasTag(m, tags)
  {
    var found := SelectAll(ns, tags);
    if found != [] {
      SelectAllIff(ns, tags, found[0]);
    }
    forall m | Below(m, ns) && HasTag(m, tags) ensures m in found {
      SelectAllIff(ns, tags, m);
    }
  }

  /** `SelectChildren` keeps exactly the direct children with the tag. */
  lemma {:induction false} SelectChildrenMembers(ns: seq<Node>, tag: string)
    ensures forall n :: n in SelectChildren(ns, tag) <==> n in ns && HasTag(n, {tag})
  {
    if ns != [] {
      SelectChildrenMembers(ns[1..], tag);
      assert ns == [ns[0]] + ns[1..];
    }
  }

  /** Selecting over a concatenation selects over each part in turn. */
  lemma {:induction false} SelectAllAppend(a: seq<Node>, b: seq<Node>, tags: set<string>)
    ensures SelectAll(a + b, tags) == SelectAll(a, tags) + SelectAll(b, tags)
  {
    if a != [] {
      SelectAllAppend(a[1..], b, tags);
      assert (a + b)[1..] == a[1..] + b;
    } else {
      assert a + b == b;
    }
  }

  /** `n` is one of the nodes `ns` or lies somewhere below one of them. */
  predicate Below(n: Node, ns: seq<Node>)
    decreases ns
  {
    ns != [] && (n == ns[0] || (ns[0].Element? && Below(n, ns[0].children)) || Below(n, ns[1..]))
  }

  /**
   * `SelectAll` misses nothing and invents nothing: a node is selected
   * exactly when it lies below the starting nodes and carries one of the tags.
   */
  lemma {:induction false} SelectAllIff(ns: seq<Node>, tags: set<string>, n: Node)
    ensures n in SelectAll(ns, tags) <==> Below(n, ns) && HasTag(n, tags)
    decreases ns
  {
    if ns != [] {
      if ns[0].Element? {
        SelectAllIff(ns[0].children, tags, n);
      }
      SelectAllIff(ns[1..], tags, n);
    }
  }

  /**
   * A descendant query reaches into nested elements: a matching element
   * inside a non-matching child is still selected, which a children query does not do.
   */
  lemma NestedSelection(inner: Node, wrapperTag: string, tag: string)
    requires HasTag(inner, {tag}) && wrapperTag != tag
    ensures var wrapper := Element(wrapperTag, map[], "", [inner]);
      inner in SelectAll([wrapper], {tag}) && SelectChildren([wrapper], tag) == []
  {
    var wrapper := Element(wrapperTag, map[], "", [inner]);
    assert [wrapper][1..] == [];
    assert [inner][1..] == [];
    assert SelectAll([inner], {tag}) == [inner] + SelectAll(inner.children, {tag});
  }
}
