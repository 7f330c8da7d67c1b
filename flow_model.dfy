// The stored graph of a project as the flow compiler and the runtime see it:
// nodes, ports and links, and the id-keyed lookup tables built from them.

module FlowModel {
  import opened Wrappers
  import opened Enums

  /** A port's `properties` column as it reaches the flow compiler: missing,
      still the JSON text read from the store, or an already parsed object
      (only the two keys the compiler reads are kept). */
  datatype PortProps =
    | PropsNull
    | PropsText(text: string)
    | PropsObject(script: Option<string>, additionDefine: Option<string>)

  /** A node row; `name` is the `name` key of its properties and `classBytes`
      the compiled artifact stored with it. */
  datatype Node = Node(
    id: string,
    name: string,
    taskType: TaskType,
    viewType: ViewType,
    upLevelNodeId: string,
    classBytes: seq<int>)

  datatype Port = Port(id: string, nodeId: string, portType: PortType, props: PortProps)

  datatype Link = Link(id: string, sourceId: string, sourcePort: string, targetId: string, targetPort: string)

  function NodeKey(n: Node): string { n.id }
  function PortKey(p: Port): string { p.id }
  function SourcePortKey(l: Link): string { l.sourcePort }

  /** `xs.forEach(x => m.set(key(x), x))`: a later element replaces an earlier
      one with the same key. */
  function IndexBy<T>(xs: seq<T>, key: T -> string): (m: map<string, T>)
    decreases |xs|
  {
    if |xs| == 0 then map[] else IndexBy(xs[..|xs| - 1], key)[key(xs[|xs| - 1]) := xs[|xs| - 1]]
  }

  /** The table has a key exactly for the keys of the elements. */
  lemma {:induction false} IndexByDomain<T>(xs: seq<T>, key: T -> string, k: string)
    ensures k in IndexBy(xs, key) <==> exists i :: 0 <= i < |xs| && key(xs[i]) == k
    decreases |xs|
  {
    if |xs| > 0 {
      var init := xs[..|xs| - 1];
      IndexByDomain(init, key, k);
      if exists i :: 0 <= i < |init| && key(init[i]) == k {
        var i :| 0 <= i < |init| && key(init[i]) == k;
        assert xs[i] == init[i];
      }
      if exists i :: 0 <= i < |xs| && key(xs[i]) == k {
        var i :| 0 <= i < |xs| && key(xs[i]) == k;
        if i < |init| { assert init[i] == xs[i]; }
      }
    }
  }

  /** The last element with a given key is the one the table keeps. */
  lemma {:induction false} IndexByLastWins<T>(xs: seq<T>, key: T -> string, i: nat)
    requires i < |xs|
    requires forall j :: i < j < |xs| ==> key(xs[j]) != key(xs[i])
    ensures key(xs[i]) in IndexBy(xs, key) && IndexBy(xs, key)[key(xs[i])] == xs[i]
    decreases |xs|
  {
    if i < |xs| - 1 {
      var init := xs[..|xs| - 1];
      assert init[i] == xs[i];
      forall j | i < j < |init| ensures key(init[j]) != key(init[i]) {
        assert init[j] == xs[j];
      }
      IndexByLastWins(init, key, i);
    }
  }

  /** Every entry of the table is an element stored under its own key. */
  lemma {:induction false} IndexByEntries<T>(xs: seq<T>, key: T -> string, k: string)
    requires k in IndexBy(xs, key)
    ensures key(IndexBy(xs, key)[k]) == k
    ensures exists i :: 0 <= i < |xs| && xs[i] == IndexBy(xs, key)[k]
    decreases |xs|
  {
    var init := xs[..|xs| - 1];
    if key(xs[|xs| - 1]) != k {
      IndexByEntries(init, key, k);
      var i :| 0 <= i < |init| && init[i] == IndexBy(init, key)[k];
      assert xs[i] == init[i];
    }
  }

  /** The elements of `xs` with key `k`, in order. */
  function Select<T(!new)>(xs: seq<T>, key: T -> string, k: string): seq<T>
    decreases |xs|
  {
    if |xs| == 0 then []
    else Select(xs[..|xs| - 1], key, k) + (if key(xs[|xs| - 1]) == k then [xs[|xs| - 1]] else [])
  }

  /** The selection is no longer than the list and holds exactly its elements
      with key `k`. */
  lemma {:induction false} SelectMembers<T(!new)>(xs: seq<T>, key: T -> string, k: string)
    ensures |Select(xs, key, k)| <= |xs|
    ensures forall x :: x in Select(xs, key, k) <==> x in xs && key(x) == k
    decreases |xs|
  {
    if |xs| > 0 {
      var init := xs[..|xs| - 1];
      SelectMembers(init, key, k);
      assert xs == init + [xs[|xs| - 1]];
    }
  }

  /** `m.get(k) || []` on a table of lists. */
  function Lookup<T>(m: map<string, seq<T>>, k: string): seq<T>
  {
    if k in m then m[k] else []
  }

  /** The `forEach` that fills a table: `m.set(key(x), x)` for each element. */
  method BuildIndex<T>(xs: seq<T>, key: T -> string) returns (m: map<string, T>)
    ensures m == IndexBy(xs, key)
  {
    m := map[];
    var i := 0;
    while i < |xs|
      invariant 0 <= i <= |xs|
      invariant m == IndexBy(xs[..i], key)
    {
      assert xs[..i + 1][..i] == xs[..i];
      m := m[key(xs[i]) := xs[i]];
      i := i + 1;
    }
    assert xs[..|xs|] == xs;
  }

  /** Pushing one more element onto its key's list extends the grouping by
      that element. */
  lemma GroupsStep<T(!new)>(m: map<string, seq<T>>, xs: seq<T>, key: T -> string, i: nat, m': map<string, seq<T>>)
    requires i < |xs| && forall k :: Lookup(m, k) == Select(xs[..i], key, k)
    requires m' == m[key(xs[i]) := Lookup(m, key(xs[i])) + [xs[i]]]
    ensures forall k :: Lookup(m', k) == Select(xs[..i + 1], key, k)
  {
    assert xs[..i + 1][..i] == xs[..i];
    var x := xs[i];
    forall k ensures Lookup(m', k) == Select(xs[..i + 1], key, k) {
      if k == key(x) {
        assert Lookup(m', k) == Lookup(m, k) + [x];
      } else {
        assert Lookup(m', k) == Lookup(m, k);
      }
    }
  }

  /** The `forEach` that groups elements by key: a list is created for a key on
      its first element and each element is pushed onto its key's list. */
  method BuildGroups<T(!new)>(xs: seq<T>, key: T -> string) returns (m: map<string, seq<T>>)
    ensures forall k :: Lookup(m, k) == Select(xs, key, k)
    ensures forall k :: k in m ==> m[k] != []
  {
    m := map[];
    var i := 0;
    while i < |xs|
      invariant 0 <= i <= |xs|
      invariant forall k :: Lookup(m, k) == Select(xs[..i], key, k)
      invariant forall k :: k in m ==> m[k] != []
    {
      var k := key(xs[i]);
      ghost var m0 := m;
      if k !in m {
        m := m[k := []];
      }
      m := m[k := m[k] + [xs[i]]];
      GroupsStep(m0, xs, key, i, m);
      i := i + 1;
    }
    assert xs[..|xs|] == xs;
  }

  /** The name in a message: `nodeId2NodeName.get(id) || ''`. */
  function NameOf(names: map<string, string>, id: string): string
  {
    if id in names then names[id] else ""
  }

  function SourceIdKey(l: Link): string { l.sourceId }
  function PortNodeKey(p: Port): string { p.nodeId }

  function NodeIndex(nodes: seq<Node>): map<string, Node> { IndexBy(nodes, NodeKey) }
  function PortIndex(ports: seq<Port>): map<string, Port> { IndexBy(ports, PortKey) }
  /** sourcePort2Link: the link leaving each port (the last one wins). */
  function LinkBySourcePort(links: seq<Link>): map<string, Link> { IndexBy(links, SourcePortKey) }
}
