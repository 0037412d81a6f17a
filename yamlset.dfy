/** The YAML path-set engine (yaml-set.go `YamlSet.Apply`): walk a
    slash-delimited path from the document's root mapping, turning every
    non-mapping met on the way into an empty mapping, appending missing keys,
    and make the last node a string scalar holding the value.

    The node tree follows yaml.v3's `Node`: a mapping's `content` holds keys at
    even and values at odd positions; comments are opaque data carried by the
    node they are attached to. Parsing and serialising YAML text are library
    behaviour and arrive as the functions `parse` and `marshal`. */
module YamlSet {
  import opened Wrappers
  import opened Text
  import opened Apps

  datatype Kind = ZeroKind | DocumentNode | SequenceNode | MappingNode | ScalarNode | AliasNode

  datatype Comments = Comments(head: string, line: string, foot: string)

  const NoComments := Comments("", "", "")

  /** A node: its kind, style flags, tag, scalar text, anchor, comments and
      children. Source positions are not modelled. */
  datatype Node = Node(
    kind: Kind,
    style: nat,
    tag: string,
    value: string,
    anchor: string,
    comments: Comments,
    content: seq<Node>)

  /** yaml.v3's `LiteralStyle` flag and the tag of string scalars. */
  const LiteralStyle: nat := 8
  const StrTag := "!!str"

  /** `&yaml.Node{Kind: yaml.MappingNode}`: every other field is zero. */
  const EmptyMapping := Node(MappingNode, 0, "", "", "", NoComments, [])

  /** `Node.SetString(s)`: the node becomes a string scalar holding `s`; its
      content, anchor and comments stay; a multi-line text switches to the
      literal style. */
  function SetString(n: Node, s: string): (r: Node)
    ensures r.kind == ScalarNode && r.value == s && r.tag == StrTag
    ensures r.content == n.content && r.comments == n.comments && r.anchor == n.anchor
    ensures r.style == (if '\n' in s then LiteralStyle else n.style)
  {
    n.(kind := ScalarNode, value := s, tag := StrTag, style := if '\n' in s then LiteralStyle else n.style)
  }

  /** The key node created for a missing key. */
  function KeyNode(name: string): Node {
    SetString(Node(ZeroKind, 0, "", "", "", NoComments, []), name)
  }

  /** Every mapping has as many keys as values, at every depth; yaml.v3's
      parser produces no other mappings. */
  predicate WellFormed(n: Node)
    decreases n
  {
    && (n.kind == MappingNode ==> |n.content| % 2 == 0)
    && forall k :: 0 <= k < |n.content| ==> WellFormed(n.content[k])
  }

  /** The key lookup from position `i` on: pairs at even positions with a
      value after them, the first key whose text is `p`. */
  function FindFrom(c: seq<Node>, p: string, i: nat): (r: Option<nat>)
    requires i % 2 == 0
    ensures r.Some? ==>
      var k := r.value;
      i <= k && k % 2 == 0 && k + 1 < |c| && c[k].value == p &&
      forall j :: i <= j < k && j % 2 == 0 ==> c[j].value != p
    ensures r.None? ==> forall j :: i <= j && j + 1 < |c| && j % 2 == 0 ==> c[j].value != p
    decreases |c| - i
  {
    if i + 1 >= |c| then None
    else if c[i].value == p then Some(i)
    else FindFrom(c, p, i + 2)
  }

  function FindKey(c: seq<Node>, p: string): Option<nat> {
    FindFrom(c, p, 0)
  }

  /** The characterisation pins the lookup down. */
  lemma FindKeyIs(c: seq<Node>, p: string, k: nat)
    requires k % 2 == 0 && k + 1 < |c| && c[k].value == p
    requires forall j :: 0 <= j < k && j % 2 == 0 ==> c[j].value != p
    ensures FindKey(c, p) == Some(k)
  {
  }

  /** Two contents with the same key texts have the same lookups. */
  lemma FindKeySameKeys(c: seq<Node>, d: seq<Node>, p: string)
    requires |c| == |d|
    requires forall j :: 0 <= j < |c| && j % 2 == 0 ==> c[j].value == d[j].value
    ensures FindKey(c, p) == FindKey(d, p)
  {
    if FindKey(c, p).Some? {
      FindKeyIs(d, p, FindKey(c, p).value);
    } else if FindKey(d, p).Some? {
      FindKeyIs(c, p, FindKey(d, p).value);
    }
  }

  /** One step of the walk: the cursor node, made a mapping if it is not one,
      possibly extended by a new pair, and the position of the value to
      descend into. */
  function Descend(e: Node, p: string): (r: (Node, nat))
    ensures r.0.kind == MappingNode && 0 < r.1 < |r.0.content|
  {
    var m := if e.kind != MappingNode then EmptyMapping else e;
    match FindKey(m.content, p)
    case Some(i) => (m, i + 1)
    case None => (m.(content := m.content + [KeyNode(p), EmptyMapping]), |m.content| + 1)
  }

  /** Reference definition of the walk: the tree after setting `segs` below `n`. */
  function SetPath(n: Node, segs: seq<string>, v: string): Node
    decreases |segs|
  {
    if segs == [] then SetString(n, v)
    else
      var (m, idx) := Descend(n, segs[0]);
      m.(content := m.content[idx := SetPath(m.content[idx], segs[1..], v)])
  }

  /** The node reached by following `segs` through mapping lookups. */
  function Get(n: Node, segs: seq<string>): Option<Node>
    decreases |segs|
  {
    if segs == [] then Some(n)
    else if n.kind != MappingNode then None
    else
      match FindKey(n.content, segs[0])
      case None => None
      case Some(i) => Get(n.content[i + 1], segs[1..])
  }

  /** On a well-formed node the step finds the key it descends under. */
  lemma DescendFinds(e: Node, p: string)
    requires WellFormed(e)
    ensures var (m, idx) := Descend(e, p);
      FindKey(m.content, p) == Some(idx - 1) && |m.content| % 2 == 0
  {
    var m := if e.kind != MappingNode then EmptyMapping else e;
    if FindKey(m.content, p).None? {
      FindKeyIs(m.content + [KeyNode(p), EmptyMapping], p, |m.content|);
    }
  }

  /** The step keeps every child well-formed. */
  lemma DescendWellFormed(e: Node, p: string)
    requires WellFormed(e)
    ensures var (m, idx) := Descend(e, p);
      forall k :: 0 <= k < |m.content| ==> WellFormed(m.content[k])
  {
    var m := if e.kind != MappingNode then EmptyMapping else e;
    if FindKey(m.content, p).None? {
      var c := m.content + [KeyNode(p), EmptyMapping];
      assert WellFormed(KeyNode(p)) && WellFormed(EmptyMapping);
      forall k | 0 <= k < |c| ensures WellFormed(c[k]) {
        if k < |m.content| { assert c[k] == m.content[k]; }
      }
    }
  }

  /** What one level of the walk does to a node: a non-mapping is replaced by a
      mapping holding only the new pair (its content and comments are lost); in
      a mapping, only the value under the first matching key changes, or a new
      pair is appended after all existing ones. */
  lemma SetPathOneLevel(n: Node, segs: seq<string>, v: string)
    requires segs != []
    ensures var r := SetPath(n, segs, v);
      n.kind != MappingNode ==>
        r == EmptyMapping.(content := [KeyNode(segs[0]), SetPath(EmptyMapping, segs[1..], v)])
    ensures var r := SetPath(n, segs, v);
      n.kind == MappingNode && FindKey(n.content, segs[0]).Some? ==>
        var i := FindKey(n.content, segs[0]).value;
        r.(content := n.content) == n && |r.content| == |n.content| &&
        (forall j :: 0 <= j < |n.content| && j != i + 1 ==> r.content[j] == n.content[j]) &&
        r.content[i + 1] == SetPath(n.content[i + 1], segs[1..], v)
    ensures var r := SetPath(n, segs, v);
      n.kind == MappingNode && FindKey(n.content, segs[0]).None? ==>
        r.(content := n.content) == n &&
        r.content == n.content + [KeyNode(segs[0]), SetPath(EmptyMapping, segs[1..], v)]
  {
    if n.kind != MappingNode {
      assert FindKey(EmptyMapping.content, segs[0]).None?;
      assert ([] + [KeyNode(segs[0]), EmptyMapping])[1 := SetPath(EmptyMapping, segs[1..], v)] ==
        [KeyNode(segs[0]), SetPath(EmptyMapping, segs[1..], v)];
    } else if FindKey(n.content, segs[0]).None? {
      var c := n.content + [KeyNode(segs[0]), EmptyMapping];
      assert c[|n.content| + 1 := SetPath(EmptyMapping, segs[1..], v)] ==
        n.content + [KeyNode(segs[0]), SetPath(EmptyMapping, segs[1..], v)];
    }
  }

  /** Setting keeps every mapping well-formed. */
  lemma {:induction false} SetPathWellFormed(n: Node, segs: seq<string>, v: string)
    requires WellFormed(n)
    ensures WellFormed(SetPath(n, segs, v))
    decreases |segs|
  {
    if segs != [] {
      var (m, idx) := Descend(n, segs[0]);
      DescendWellFormed(n, segs[0]);
      SetPathWellFormed(m.content[idx], segs[1..], v);
      var r := SetPath(n, segs, v);
      assert r.content == m.content[idx := SetPath(m.content[idx], segs[1..], v)];
      forall k | 0 <= k < |r.content| ensures WellFormed(r.content[k]) {
        if k != idx { assert r.content[k] == m.content[k]; }
      }
    }
  }

  /** Round trip: after setting, following the same path reaches a string
      scalar holding exactly the value. */
  lemma {:induction false} SetThenGet(n: Node, segs: seq<string>, v: string)
    requires WellFormed(n)
    ensures var g := Get(SetPath(n, segs, v), segs);
      g.Some? && g.value.kind == ScalarNode && g.value.value == v && g.value.tag == StrTag
    decreases |segs|
  {
    if segs != [] {
      var (m, idx) := Descend(n, segs[0]);
      DescendFinds(n, segs[0]);
      DescendWellFormed(n, segs[0]);
      var r := SetPath(n, segs, v);
      FindKeySameKeys(m.content, r.content, segs[0]);
      SetThenGet(m.content[idx], segs[1..], v);
    }
  }

  /** Nothing off the path changes: a node reached by a path that leaves the
      set path at position `j` is the same node, comments included, afterwards. */
  lemma {:induction false} OffPathUnchanged(n: Node, segs: seq<string>, v: string, q: seq<string>, j: nat)
    requires WellFormed(n)
    requires j < |segs| && j < |q| && q[..j] == segs[..j] && q[j] != segs[j]
    requires Get(n, q).Some?
    ensures Get(SetPath(n, segs, v), q) == Get(n, q)
    decreases j
  {
    if j == 0 {
      SiblingUnchanged(n, segs, v, q);
    } else {
      CommonPrefixTail(q, segs, j);
      var child := SameStep(n, segs, v, q);
      OffPathUnchanged(child, segs[1..], v, q[1..], j - 1);
    }
  }

  /** Two sequences that agree on their first `j` elements agree on the
      first, and their tails on the next `j - 1`. */
  lemma CommonPrefixTail<T>(a: seq<T>, b: seq<T>, j: nat)
    requires 0 < j <= |a| && j <= |b| && a[..j] == b[..j]
    ensures a[0] == b[0] && a[1..][..j - 1] == b[1..][..j - 1]
  {
    assert a[0] == a[..j][0];
    assert a[1..][..j - 1] == a[..j][1..];
    assert b[1..][..j - 1] == b[..j][1..];
  }

  /** The first step of the path follows the set path: both lookups go on
      from the same child. */
  lemma SameStep(n: Node, segs: seq<string>, v: string, q: seq<string>) returns (child: Node)
    requires WellFormed(n)
    requires segs != [] && q != [] && q[0] == segs[0]
    requires Get(n, q).Some?
    ensures WellFormed(child)
    ensures Get(n, q) == Get(child, q[1..])
    ensures Get(SetPath(n, segs, v), q) == Get(SetPath(child, segs[1..], v), q[1..])
  {
    var iq := FindKey(n.content, q[0]).value;
    child := n.content[iq + 1];
    var r := SetPath(n, segs, v);
    SetPathOneLevel(n, segs, v);
    FindKeySameKeys(n.content, r.content, q[0]);
  }

  /** The first step of the path leaves the set path at once: the value
      under another key is untouched. */
  lemma SiblingUnchanged(n: Node, segs: seq<string>, v: string, q: seq<string>)
    requires segs != [] && q != [] && q[0] != segs[0]
    requires Get(n, q).Some?
    ensures Get(SetPath(n, segs, v), q) == Get(n, q)
  {
    var iq := FindKey(n.content, q[0]).value;
    var r := SetPath(n, segs, v);
    SetPathOneLevel(n, segs, v);
    if FindKey(n.content, segs[0]).Some? {
      FindKeySameKeys(n.content, r.content, q[0]);
    } else {
      assert r.content[..|n.content|] == n.content;
      FindKeyIs(r.content, q[0], iq);
    }
  }

  /** Setting twice is setting once. */
  lemma {:induction false} SetPathIdempotent(n: Node, segs: seq<string>, v: string)
    requires WellFormed(n)
    ensures SetPath(SetPath(n, segs, v), segs, v) == SetPath(n, segs, v)
    decreases |segs|
  {
    if segs != [] {
      var child := SetAgainStep(n, segs, v);
      SetPathIdempotent(child, segs[1..], v);
    }
  }

  /** One level of the second setting: it descends into the child the first
      one rewrote, so it changes nothing if it changes nothing there. */
  lemma SetAgainStep(n: Node, segs: seq<string>, v: string) returns (child: Node)
    requires WellFormed(n) && segs != []
    ensures WellFormed(child)
    ensures var once := SetPath(child, segs[1..], v);
      SetPath(once, segs[1..], v) == once ==> SetPath(SetPath(n, segs, v), segs, v) == SetPath(n, segs, v)
  {
    var (m, idx) := Descend(n, segs[0]);
    DescendFinds(n, segs[0]);
    DescendWellFormed(n, segs[0]);
    child := m.content[idx];
    var r := SetPath(n, segs, v);
    FindKeySameKeys(m.content, r.content, segs[0]);
    assert Descend(r, segs[0]) == (r, idx);
    if SetPath(r.content[idx], segs[1..], v) == r.content[idx] {
      assert r.content[idx := SetPath(r.content[idx], segs[1..], v)] == r.content;
    }
  }

  /** The tree after `Apply`: the walk starts at the document's first child; a
      document without content is replaced by a new document around an empty
      mapping; any other root is walked from itself. */
  function ApplyTree(v: Node, path: string, value: string): Node {
    var segs := Split(path, '/');
    if v.kind == DocumentNode then
      if v.content == [] then Node(DocumentNode, 0, "", "", "", NoComments, [SetPath(EmptyMapping, segs, value)])
      else v.(content := v.content[0 := SetPath(v.content[0], segs, value)])
    else SetPath(v, segs, value)
  }

  /** The node the walk starts from. */
  function Body(v: Node): Node {
    if v.kind == DocumentNode && v.content != [] then v.content[0] else v
  }

  /** The path is split on every `/`, empty pieces included, so the value ends
      up `Count(path, '/') + 1` levels below the start node, at the place the
      same path leads to. The rest of a document is untouched. */
  lemma ApplyTreeSets(v: Node, path: string, value: string)
    requires WellFormed(v)
    ensures var segs, r := Split(path, '/'), ApplyTree(v, path, value);
      |segs| == Count(path, '/') + 1 &&
      Get(Body(r), segs).Some? && Get(Body(r), segs).value.kind == ScalarNode &&
      Get(Body(r), segs).value.value == value
    ensures var r := ApplyTree(v, path, value);
      v.kind == DocumentNode && v.content == [] ==> r.kind == DocumentNode && |r.content| == 1
    ensures var r := ApplyTree(v, path, value);
      v.kind == DocumentNode && v.content != [] ==>
        (r.(content := v.content) == v && |r.content| == |v.content| && r.content[1..] == v.content[1..])
  {
    var segs := Split(path, '/');
    SplitJoin(path, '/');
    if v.kind == DocumentNode && v.content != [] {
      SetThenGet(v.content[0], segs, value);
    } else if v.kind == DocumentNode {
      SetThenGet(EmptyMapping, segs, value);
    } else {
      SetThenGet(v, segs, value);
    }
  }

  /** Applying the same set to its own result gives the same tree. */
  lemma ApplyTreeIdempotent(v: Node, path: string, value: string)
    requires WellFormed(v)
    ensures ApplyTree(ApplyTree(v, path, value), path, value) == ApplyTree(v, path, value)
  {
    var segs := Split(path, '/');
    if v.kind == DocumentNode && v.content != [] {
      SetPathIdempotent(v.content[0], segs, value);
      var r := ApplyTree(v, path, value);
      assert r.content[0 := SetPath(r.content[0], segs, value)] == r.content;
    } else if v.kind == DocumentNode {
      SetPathIdempotent(EmptyMapping, segs, value);
      var r := ApplyTree(v, path, value);
      assert r.content[0 := SetPath(r.content[0], segs, value)] == r.content;
    } else {
      SetPathIdempotent(v, segs, value);
    }
  }

  /** `Apply` on text: a parse error is returned as is; otherwise the tree is
      updated and serialised. */
  function ApplyText(op: YamlSetOp, input: string, parse: string -> Result<Node>,
                     marshal: Node -> Result<string>): (r: Result<string>)
    ensures parse(input).Err? ==> r == Err(parse(input).msg)
  {
    match parse(input)
    case Err(e) => Err(e)
    case Ok(v) => marshal(ApplyTree(v, op.path, op.value))
  }

  /** When the library reads back what it wrote, applying the same set to the
      output again produces the same output. */
  lemma ApplyTextTwice(op: YamlSetOp, input: string, parse: string -> Result<Node>,
                       marshal: Node -> Result<string>)
    requires parse(input).Ok? && WellFormed(parse(input).value)
    requires var t := ApplyTree(parse(input).value, op.path, op.value);
      marshal(t).Ok? && parse(marshal(t).value) == Ok(t)
    ensures ApplyText(op, ApplyText(op, input, parse, marshal).value, parse, marshal) ==
            ApplyText(op, input, parse, marshal)
  {
    ApplyTreeIdempotent(parse(input).value, op.path, op.value);
  }

  /** yaml.v3's `DoubleQuotedStyle` flag. */
  const DoubleQuotedStyle: nat := 2

  function Scalar(text: string, tag: string, style: nat): Node {
    Node(ScalarNode, style, tag, text, "", NoComments, [])
  }

  /** A key node carrying the comment written above it. */
  function CommentedKey(name: string, comment: string): Node {
    Scalar(name, StrTag, 0).(comments := Comments(comment, "", ""))
  }

  function Mapping(content: seq<Node>): Node {
    Node(MappingNode, 0, "!!map", "", "", NoComments, content)
  }

  /** The document of the package example, each comment attached to the key
      below it: the mapping under `a`, the root mapping and the document. */
  const ExampleA := Mapping([
    CommentedKey("x", "# comment a/x"), Scalar("1", "!!int", 0),
    CommentedKey("b", "# comment a/b"), Scalar("old-value", StrTag, DoubleQuotedStyle)])
  const ExampleRoot := Mapping([
    CommentedKey("x", "# comment x"), Scalar("1", "!!int", 0),
    CommentedKey("a", "# comment a"), ExampleA])
  const ExampleInput := Node(DocumentNode, 0, "", "", "", NoComments, [ExampleRoot])

  /** What the example expects under `a/b`: a mapping holding `c: new value`. */
  const ExampleB' := EmptyMapping.(content := [KeyNode("c"), SetString(EmptyMapping, "new value")])
  const ExampleA' := Mapping([
    CommentedKey("x", "# comment a/x"), Scalar("1", "!!int", 0),
    CommentedKey("b", "# comment a/b"), ExampleB'])
  const ExampleRoot' := Mapping([
    CommentedKey("x", "# comment x"), Scalar("1", "!!int", 0),
    CommentedKey("a", "# comment a"), ExampleA'])

  lemma ExampleLevelB()
    ensures SetPath(ExampleA.content[3], ["c"], "new value") == ExampleB'
  {
    SetPathOneLevel(ExampleA.content[3], ["c"], "new value");
    assert ["c"][1..] == [];
  }

  lemma ExampleLevelA()
    ensures SetPath(ExampleA, ["b", "c"], "new value") == ExampleA'
  {
    assert ExampleA.content[0].value == "x" && ExampleA.content[2].value == "b";
    FindKeyIs(ExampleA.content, "b", 2);
    assert ["b", "c"][1..] == ["c"];
    ExampleLevelB();
    assert ExampleA.content[3 := ExampleB'] == ExampleA'.content;
  }

  lemma ExampleLevelRoot()
    ensures SetPath(ExampleRoot, ["a", "b", "c"], "new value") == ExampleRoot'
  {
    assert ExampleRoot.content[0].value == "x" && ExampleRoot.content[2].value == "a";
    FindKeyIs(ExampleRoot.content, "a", 2);
    assert ["a", "b", "c"][1..] == ["b", "c"];
    ExampleLevelA();
    assert ExampleRoot.content[3 := ExampleA'] == ExampleRoot'.content;
  }

  /** The package example: setting `a/b/c` to `new value` turns the scalar
      under `a/b` into a mapping holding `c: new value`; the comments, `x` and
      `a/x` are untouched. */
  lemma ExampleSet()
    ensures ApplyTree(ExampleInput, "a/b/c", "new value") ==
      Node(DocumentNode, 0, "", "", "", NoComments, [ExampleRoot'])
  {
    ExamplePath();
    ExampleLevelRoot();
    assert ExampleInput.content[0 := ExampleRoot'] == [ExampleRoot'];
  }

  /** The example's path has three segments. */
  lemma ExamplePath()
    ensures Split("a/b/c", '/') == ["a", "b", "c"]
  {
    var c := Split("", '/');
    assert c == [""];
    var s1 := Split("c", '/');
    assert "c" == ['c'] + "" && s1 == [['c'] + c[0]] + c[1..] == ["c"];
    var s2 := Split("/c", '/');
    assert "/c" == ['/'] + "c" && s2 == [""] + s1 == ["", "c"];
    assert ['b'] + s2[0] == "b" && s2[1..] == ["c"];
    var s3 := Split("b/c", '/');
    assert "b/c" == ['b'] + "/c" && s3 == [['b'] + s2[0]] + s2[1..] == ["b", "c"];
    var s4 := Split("/b/c", '/');
    assert "/b/c" == ['/'] + "b/c" && s4 == [""] + s3 == ["", "b", "c"];
    assert ['a'] + s4[0] == "a" && s4[1..] == ["b", "c"];
    var s5 := Split("a/b/c", '/');
    assert "a/b/c" == ['a'] + "/b/c" && s5 == [['a'] + s4[0]] + s4[1..] == ["a", "b", "c"];
  }

  /** A suspended step of the walk: the node the cursor left and the position
      of the child it moved into. */
  datatype Frame = Frame(parent: Node, index: nat)

  /** Writing `x` back through the stack of suspended steps, innermost last:
      the tree the in-place updates through the cursor pointer amount to. */
  function Plug(stack: seq<Frame>, x: Node): Node
    decreases |stack|
  {
    if stack == [] then x
    else
      var f := stack[|stack| - 1];
      var filled := if f.index < |f.parent.content| then f.parent.(content := f.parent.content[f.index := x]) else f.parent;
      Plug(stack[..|stack| - 1], filled)
  }

  /** One step of the walk seen from the top: descending moves one frame onto
      the stack without changing the tree the stack describes. */
  lemma PlugDescend(stack: seq<Frame>, e: Node, segs: seq<string>, k: nat, v: string)
    requires k < |segs|
    ensures var (m, idx) := Descend(e, segs[k]);
      Plug(stack + [Frame(m, idx)], SetPath(m.content[idx], segs[k + 1..], v)) ==
      Plug(stack, SetPath(e, segs[k..], v))
  {
    assert segs[k..][1..] == segs[k + 1..];
    var (m, idx) := Descend(e, segs[k]);
    assert (stack + [Frame(m, idx)])[..|stack|] == stack;
  }

  /** The body of the loop of `Apply` for one path segment: make the cursor a
      mapping, scan its pairs for the key, append a pair when it is missing,
      and return the position of the value to move to. */
  method Step(e: Node, property: string) returns (m: Node, next: nat)
    ensures (m, next) == Descend(e, property)
  {
    m := e;
    if m.kind != MappingNode {
      m := EmptyMapping;
    }
    var i := 0;
    while i + 1 < |m.content|
      invariant i % 2 == 0 && FindFrom(m.content, property, i) == FindKey(m.content, property)
    {
      if m.content[i].value == property {
        return m, i + 1;
      }
      i := i + 2;
    }
    m := m.(content := m.content + [KeyNode(property), EmptyMapping]);
    next := |m.content| - 1;
  }

  /** `YamlSet.Apply`. The cursor `e` moves down one level per path segment;
      the nodes it leaves are kept on `stack` and the updated cursor is
      written back through them at the end. */
  method Apply(op: YamlSetOp, input: string, parse: string -> Result<Node>,
               marshal: Node -> Result<string>) returns (out: Result<string>)
    ensures out == ApplyText(op, input, parse, marshal)
  {
    var parsed := parse(input);
    if parsed.Err? {
      return Err(parsed.msg);
    }
    var v := parsed.value;
    var e := v;
    var inDocument := false;
    if e.kind == DocumentNode {
      inDocument := true;
      if |e.content| == 0 {
        e := EmptyMapping;
        v := Node(DocumentNode, 0, "", "", "", NoComments, [e]);
      } else {
        e := e.content[0];
      }
    }
    ghost var start := e;

    var segs := Split(op.path, '/');
    var stack: seq<Frame> := [];
    for k := 0 to |segs|
      invariant Plug(stack, SetPath(e, segs[k..], op.value)) == SetPath(start, segs, op.value)
    {
      ghost var before := e;
      var next;
      e, next := Step(e, segs[k]);
      PlugDescend(stack, before, segs, k, op.value);
      stack := stack + [Frame(e, next)];
      e := e.content[next];
    }
    e := SetString(e, op.value);
    var tree := Plug(stack, e);
    assert tree == SetPath(start, segs, op.value);
    if inDocument {
      assert |parsed.value.content| == 0 ==> v.content[0 := tree] == [tree];
      v := v.(content := v.content[0 := tree]);
    } else {
      v := tree;
    }
    out := marshal(v);
  }
}
