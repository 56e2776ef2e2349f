/** Looking things up in a parsed XML document. */
module Xml {
  import opened Wrappers

  /** `content` is the text the parser library gives for the node, when it gives one. */
  datatype Node = Node(name: Option<string>, children: seq<Node>, content: Option<string>)

  predicate Has(node: Node, name: string) {
    node.name == Some(name)
  }

  /** The first node with a name, or the number of nodes. */
  function FirstNamed(nodes: seq<Node>, name: string): (i: nat)
    ensures i <= |nodes| && (i < |nodes| ==> Has(nodes[i], name))
    ensures forall j :: 0 <= j < i ==> !Has(nodes[j], name)
  {
    if nodes == [] || Has(nodes[0], name) then 0
    else
      var i := FirstNamed(nodes[1..], name);
      assert forall j :: 1 <= j < i + 1 ==> nodes[j] == nodes[1..][j - 1];
      i + 1
  }

  /** Descends along a path of names, at each level into the first child with the name. */
  function Lookup(node: Node, names: seq<string>): Option<Node>
    decreases |names|
  {
    if names == [] then Some(node)
    else
      var i := FirstNamed(node.children, names[0]);
      if i == |node.children| then None else Lookup(node.children[i], names[1..])
  }

  // ----- what a lookup finds -----

  /** The node at a path of child positions. */
  function At(node: Node, path: seq<nat>): Option<Node>
    decreases |path|
  {
    if path == [] then Some(node)
    else if path[0] < |node.children| then At(node.children[path[0]], path[1..])
    else None
  }

  /** The path spells the names. */
  predicate Spells(node: Node, names: seq<string>, path: seq<nat>)
    decreases |names|
  {
    && |path| == |names|
    && (names != [] ==>
          && path[0] < |node.children| && Has(node.children[path[0]], names[0])
          && Spells(node.children[path[0]], names[1..], path[1..]))
  }

  /** No sibling before a node on the path has the same name. */
  predicate Leftmost(node: Node, names: seq<string>, path: seq<nat>)
    requires Spells(node, names, path)
    decreases |names|
  {
    names != [] ==>
      && (forall j :: 0 <= j < path[0] ==> !Has(node.children[j], names[0]))
      && Leftmost(node.children[path[0]], names[1..], path[1..])
  }

  predicate LeftmostPath(node: Node, names: seq<string>, path: seq<nat>) {
    Spells(node, names, path) && Leftmost(node, names, path)
  }

  lemma {:induction false} LookupFinds(node: Node, names: seq<string>) returns (path: seq<nat>)
    ensures Lookup(node, names).Some? ==>
              LeftmostPath(node, names, path) && At(node, path) == Lookup(node, names)
    decreases |names|
  {
    path := [];
    if names != [] {
      var i := FirstNamed(node.children, names[0]);
      if i < |node.children| {
        var rest := LookupFinds(node.children[i], names[1..]);
        path := [i] + rest;
        assert path[1..] == rest;
      }
    }
  }

  lemma {:induction false} LeftmostIsFound(node: Node, names: seq<string>, path: seq<nat>)
    requires LeftmostPath(node, names, path)
    ensures Lookup(node, names).Some? && Lookup(node, names) == At(node, path)
    decreases |names|
  {
    if names != [] {
      assert FirstNamed(node.children, names[0]) == path[0];
      LeftmostIsFound(node.children[path[0]], names[1..], path[1..]);
    }
  }

  /** A lookup succeeds exactly when a path spells the names with the leftmost choice at every
      level, and gives the node there. */
  lemma LookupExactly(node: Node, names: seq<string>)
    ensures Lookup(node, names).Some? <==> exists path :: LeftmostPath(node, names, path)
    ensures forall path :: LeftmostPath(node, names, path) ==> Lookup(node, names) == At(node, path)
  {
    var found := LookupFinds(node, names);
    assert Lookup(node, names).Some? ==> LeftmostPath(node, names, found);
    forall path | LeftmostPath(node, names, path)
      ensures Lookup(node, names).Some? && Lookup(node, names) == At(node, path)
    {
      LeftmostIsFound(node, names, path);
    }
  }

  /** It does not go back: a path through a later sibling is missed. */
  lemma NoBacktracking(a: string, b: string)
    ensures exists node, path :: Spells(node, [a, b], path) && Lookup(node, [a, b]).None?
  {
    var leaf := Node(Some(b), [], None);
    var bare, full := Node(Some(a), [], None), Node(Some(a), [leaf], None);
    var root := Node(None, [bare, full], None);
    assert [a, b][1..] == [b] && [b][1..] == [] && [1, 0][1..] == [0] && [0][1..] == [];
    assert Spells(leaf, [], []);
    assert Spells(full, [b], [0]);
    assert Spells(root, [a, b], [1, 0]);
    assert FirstNamed(root.children, a) == 0;
    assert Lookup(bare, [b]) == None;
  }

  // ----- lists of children -----

  function Reverse<T>(xs: seq<T>): (r: seq<T>)
    ensures |r| == |xs| && forall i :: 0 <= i < |xs| ==> r[i] == xs[|xs| - 1 - i]
  {
    if xs == [] then [] else Reverse(xs[1..]) + [xs[0]]
  }

  lemma ReversePush<T>(xs: seq<T>, x: T)
    ensures Reverse(xs + [x]) == [x] + Reverse(xs)
  {}

  /** The nodes with a name, in document order. */
  function Named(nodes: seq<Node>, name: string): seq<Node> {
    if nodes == [] then []
    else (if Has(nodes[0], name) then [nodes[0]] else []) + Named(nodes[1..], name)
  }

  /** The texts of those nodes that have one, in order. */
  function Contents(nodes: seq<Node>): seq<string> {
    if nodes == [] then []
    else (if nodes[0].content.Some? then [nodes[0].content.value] else []) + Contents(nodes[1..])
  }

  lemma {:induction false} NamedConcat(xs: seq<Node>, ys: seq<Node>, name: string)
    ensures Named(xs + ys, name) == Named(xs, name) + Named(ys, name)
  {
    if xs == [] {
      assert xs + ys == ys;
    } else {
      assert (xs + ys)[1..] == xs[1..] + ys;
      NamedConcat(xs[1..], ys, name);
    }
  }

  lemma {:induction false} NamedNone(nodes: seq<Node>, name: string)
    requires FirstNamed(nodes, name) == |nodes|
    ensures Named(nodes, name) == []
  {
    if nodes != [] { NamedNone(nodes[1..], name); }
  }

  /** The nodes with a name are those at increasing positions that include every position of one. */
  lemma {:induction false} NamedExactly(nodes: seq<Node>, name: string) returns (positions: seq<nat>)
    ensures forall k, m :: 0 <= k < m < |positions| ==> positions[k] < positions[m]
    ensures forall i :: 0 <= i < |nodes| && nodes[i].name == Some(name) ==> i in positions
    ensures |Named(nodes, name)| == |positions|
    ensures forall k :: 0 <= k < |positions| ==>
              && positions[k] < |nodes| && nodes[positions[k]].name == Some(name)
              && Named(nodes, name)[k] == nodes[positions[k]]
  {
    positions := [];
    if nodes != [] {
      var n := |nodes| - 1;
      var init, last := nodes[..n], nodes[n];
      assert nodes == init + [last] && [last][1..] == [];
      NamedConcat(init, [last], name);
      positions := NamedExactly(init, name);
      if Has(last, name) { positions := positions + [n]; }
    }
  }

  lemma {:induction false} ContentsConcat(xs: seq<Node>, ys: seq<Node>)
    ensures Contents(xs + ys) == Contents(xs) + Contents(ys)
  {
    if xs == [] {
      assert xs + ys == ys;
    } else {
      assert (xs + ys)[1..] == xs[1..] + ys;
      ContentsConcat(xs[1..], ys);
    }
  }

  /** What the string list of a path is: the texts, in document order, of all children with the
      last name under the node the other names lead to. Without a name, these are the siblings of
      the starting node, under `above`, that have the same name as itself. */
  function StringList(node: Node, above: Node, names: seq<string>): seq<string>
    requires names == [] ==> node.name.Some?
  {
    if names == [] then Contents(Named(above.children, node.name.value))
    else
      var n := |names| - 1;
      match Lookup(node, names[..n])
      case None => []
      case Some(parent) => Contents(Named(parent.children, names[n]))
  }

  lemma {:induction false} LookupLast(node: Node, names: seq<string>)
    requires names != []
    ensures Lookup(node, names) ==
            match Lookup(node, names[..|names| - 1])
            case None => None
            case Some(parent) => Lookup(parent, [names[|names| - 1]])
    decreases |names|
  {
    if |names| == 1 {
      assert names[..0] == [] && names == [names[0]];
    } else {
      var i := FirstNamed(node.children, names[0]);
      assert names[..|names| - 1][1..] == names[1..][..|names| - 2];
      if i < |node.children| { LookupLast(node.children[i], names[1..]); }
    }
  }

  lemma NoTexts(name: string)
    ensures Contents(Named([], name)) == []
  {}

  lemma OneText(node: Node, name: string)
    ensures Contents(Named([node], name)) ==
            if Has(node, name) && node.content.Some? then [node.content.value] else []
  {
    assert [node][1..] == [] && Named([node], name) == if Has(node, name) then [node] else [];
  }

  lemma {:induction false} TextsExactly(nodes: seq<Node>, name: string) returns (positions: seq<nat>)
    ensures forall k, m :: 0 <= k < m < |positions| ==> positions[k] < positions[m]
    ensures forall i :: 0 <= i < |nodes| && nodes[i].name == Some(name) && nodes[i].content.Some? ==> i in positions
    ensures |Contents(Named(nodes, name))| == |positions|
    ensures forall k :: 0 <= k < |positions| ==>
              && positions[k] < |nodes| && nodes[positions[k]].name == Some(name)
              && nodes[positions[k]].content == Some(Contents(Named(nodes, name))[k])
  {
    hide Contents, Named;
    positions := [];
    NoTexts(name);
    if nodes != [] {
      var n := |nodes| - 1;
      var init, last := nodes[..n], nodes[n];
      assert nodes == init + [last];
      NamedConcat(init, [last], name);
      ContentsConcat(Named(init, name), Named([last], name));
      OneText(last, name);
      positions := TextsExactly(init, name);
      if Has(last, name) && last.content.Some? { positions := positions + [n]; }
    }
  }

  /** The string list of a path has, in document order, the text of every child that has one and is named
      like the end of the path, under the node that the rest of the path leads to; without a path, of every
      sibling named like the starting node. */
  lemma StringListExactly(node: Node, above: Node, names: seq<string>) returns (positions: seq<nat>)
    requires names == [] ==> node.name.Some?
    ensures var parent := if names == [] then Some(above) else Lookup(node, names[..|names| - 1]);
            var name := if names == [] then node.name else Some(names[|names| - 1]);
            var texts := StringList(node, above, names);
            && (parent.None? ==> texts == [])
            && (parent.Some? ==>
                  var nodes := parent.value.children;
                  && (forall k, m :: 0 <= k < m < |positions| ==> positions[k] < positions[m])
                  && (forall i :: 0 <= i < |nodes| && nodes[i].name == name && nodes[i].content.Some? ==>
                        i in positions)
                  && |texts| == |positions|
                  && forall k :: 0 <= k < |positions| ==>
                       && positions[k] < |nodes| && nodes[positions[k]].name == name
                       && nodes[positions[k]].content == Some(texts[k]))
  {
    hide Contents, Named, Lookup;
    positions := [];
    if names == [] {
      positions := TextsExactly(above.children, node.name.value);
    } else {
      var parent := Lookup(node, names[..|names| - 1]);
      if parent.Some? { positions := TextsExactly(parent.value.children, names[|names| - 1]); }
    }
  }

  // ----- the lookups as loops -----

  /** The node a path of names leads to, and its parent: `above` is the parent of the starting node. */
  method GetChildNode(node: Node, above: Node, names: seq<string>) returns (found: Option<Node>, parent: Node)
    ensures found == Lookup(node, names)
    ensures names == [] ==> parent == above
    ensures names != [] && found.Some? ==>
              Lookup(node, names[..|names| - 1]) == Some(parent) && Has(found.value, names[|names| - 1])
  {
    found, parent := Some(node), above;
    var next := 0;
    while next < |names| && found.Some?
      invariant 0 <= next <= |names|
      invariant found.Some? ==> Lookup(node, names) == Lookup(found.value, names[next..])
      invariant found.Some? ==> Lookup(node, names[..next]) == found
      invariant found.Some? && next > 0 ==>
                  Lookup(node, names[..next - 1]) == Some(parent) && Has(found.value, names[next - 1])
      invariant found.None? ==> Lookup(node, names).None?
      invariant next == 0 ==> parent == above
    {
      parent := found.value;
      var i := 0;
      while i < |parent.children| && !Has(parent.children[i], names[next])
        invariant 0 <= i <= |parent.children|
        invariant forall j :: 0 <= j < i ==> !Has(parent.children[j], names[next])
      {
        i := i + 1;
      }
      assert i == FirstNamed(parent.children, names[next]);
      assert names[next..][1..] == names[next + 1..];
      LookupLast(node, names[..next + 1]);
      assert names[..next + 1][..next] == names[..next];
      assert [names[next]][1..] == [];
      found := if i < |parent.children| then Some(parent.children[i]) else None;
      next := next + 1;
    }
    assert names[..|names|] == names;
  }

  /** Prepending leaves the last child first. */
  method GetChildrenList(node: Node, name: string) returns (nodes: seq<Node>)
    ensures nodes == Reverse(Named(node.children, name))
  {
    nodes := [];
    var i := 0;
    while i < |node.children|
      invariant 0 <= i <= |node.children|
      invariant nodes == Reverse(Named(node.children[..i], name))
    {
      var child := node.children[i];
      assert node.children[..i + 1] == node.children[..i] + [child];
      NamedConcat(node.children[..i], [child], name);
      if Has(child, name) { nodes := [child] + nodes; }
      i := i + 1;
    }
    assert node.children[..i] == node.children;
  }

  lemma ContentsFirst(node: Node, nodes: seq<Node>)
    ensures Contents([node] + nodes) == (if node.content.Some? then [node.content.value] else []) + Contents(nodes)
  {
    assert ([node] + nodes)[1..] == nodes;
  }

  /** Prepending leaves the last text first. */
  method CollectTexts(nodes: seq<Node>) returns (texts: seq<string>)
    ensures texts == Contents(Reverse(nodes))
  {
    hide Contents, Reverse;
    texts := [];
    assert Reverse<Node>([]) == [];
    NoContents();
    var i := 0;
    while i < |nodes|
      invariant 0 <= i <= |nodes| && texts == Contents(Reverse(nodes[..i]))
    {
      assert nodes[..i + 1] == nodes[..i] + [nodes[i]];
      ReversePush(nodes[..i], nodes[i]);
      ContentsFirst(nodes[i], Reverse(nodes[..i]));
      if nodes[i].content.Some? { texts := [nodes[i].content.value] + texts; }
      i := i + 1;
    }
    assert nodes[..i] == nodes;
  }

  lemma NoContents()
    ensures Contents([]) == []
  {}

  lemma ReverseTwice<T>(xs: seq<T>)
    ensures Reverse(Reverse(xs)) == xs
  {
    hide Reverse;
  }

  /** The texts of all children with the last name of the path: the second prepend undoes the
      reversal of the first. */
  method GetChildStringList(node: Node, above: Node, names: seq<string>) returns (texts: seq<string>)
    requires names == [] ==> node.name.Some?
    ensures texts == StringList(node, above, names)
  {
    hide Contents, Reverse, Named, Lookup;
    texts := [];
    NoContents();
    var found, parent := GetChildNode(node, above, names);
    if found.Some? {
      LookupNothing(node);
      var nodes := GetChildrenList(parent, found.value.name.value);
      texts := CollectTexts(nodes);
      ReverseTwice(Named(parent.children, found.value.name.value));
    } else {
      LookupNothing(node);
      LookupMisses(node, names);
    }
  }

  lemma LookupNothing(node: Node)
    ensures Lookup(node, []) == Some(node)
  {}

  /** When the last name is missing there is nothing to list. */
  lemma LookupMisses(node: Node, names: seq<string>)
    requires names != [] && Lookup(node, names).None?
    ensures var n := |names| - 1;
            Lookup(node, names[..n]).Some? ==> Named(Lookup(node, names[..n]).value.children, names[n]) == []
  {
    var n := |names| - 1;
    LookupLast(node, names);
    if Lookup(node, names[..n]).Some? {
      var parent := Lookup(node, names[..n]).value;
      assert [names[n]][1..] == [];
      NamedNone(parent.children, names[n]);
    }
  }

  method GetChildString(node: Node, names: seq<string>) returns (text: Option<string>)
    ensures text == match Lookup(node, names) case None => None case Some(child) => child.content
  {
    var found, _ := GetChildNode(node, node, names);
    text := if found.Some? then found.value.content else None;
  }
}
