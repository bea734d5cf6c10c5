/**
 * HierarchicalNavigationSystem of hierarchical_navigation_system.py: the
 * node registry built at start-up, the inverted search indices over it,
 * the navigation structure (tree, breadcrumbs, quick access), filtering
 * by audience, priority, tags and free text, and the node/content search.
 *
 * The registry is a dict in insertion order (Registry); the object's
 * fields are updated in place by the constructor and by
 * BuildSearchIndices, and every other operation reads them.
 */
module Navigation {
  import opened Common
  import opened NavigationLayout

  // ------------------------------------------------------------ registry

  /** node_registry: a dict keyed by node id, with its insertion order. */
  datatype Registry = Registry(order: seq<NodeId>, nodes: map<NodeId, Node>)

  predicate Distinct(s: seq<NodeId>)
  {
    forall i, j :: 0 <= i < j < |s| ==> s[i] != s[j]
  }

  /** The order lists each key once, and every node is stored under its own id. */
  predicate WellKeyed(reg: Registry)
  {
    && Distinct(reg.order)
    && (forall id :: id in reg.nodes ==> id in reg.order)
    && (forall id :: id in reg.order ==> id in reg.nodes)
    && (forall id :: id in reg.nodes ==> reg.nodes[id].id == id)
  }

  const EmptyRegistry := Registry([], map[])

  /** `node_registry[node.id] = node`: a new key goes to the end, a known key keeps its place. */
  function Put(reg: Registry, n: Node): Registry
  {
    Registry(if n.id in reg.nodes then reg.order else reg.order + [n.id], reg.nodes[n.id := n])
  }

  /**
   * Registering one child: store it, then append its id to the children
   * of its parent when the parent is registered (the child itself
   * included, since the lookup happens after the store).
   */
  function Attach(reg: Registry, child: Node): Registry
  {
    var r := Put(reg, child);
    if child.parentId.Some? && child.parentId.value in r.nodes then
      var p := child.parentId.value;
      r.(nodes := r.nodes[p := r.nodes[p].(children := r.nodes[p].children + [child.id])])
    else r
  }

  /** The loop over root_nodes. */
  function RegisterRoots(roots: seq<Node>): Registry
  {
    if roots == [] then EmptyRegistry
    else Put(RegisterRoots(roots[..|roots| - 1]), roots[|roots| - 1])
  }

  /** The loop over all_children. */
  function RegisterChildren(reg: Registry, children: seq<Node>): Registry
  {
    if children == [] then reg
    else Attach(RegisterChildren(reg, children[..|children| - 1]), children[|children| - 1])
  }

  /** The registry after _initialize_navigation_structure. */
  function Initial(roots: seq<Node>, children: seq<Node>): Registry
  {
    RegisterChildren(RegisterRoots(roots), children)
  }

  function Ids(nodes: seq<Node>): (r: seq<NodeId>)
    ensures |r| == |nodes| && forall i :: 0 <= i < |nodes| ==> r[i] == nodes[i].id
  {
    seq(|nodes|, i requires 0 <= i < |nodes| => nodes[i].id)
  }

  /** The ids of the children registered under `p`, in registration order. */
  function ChildIdsOf(children: seq<Node>, p: NodeId): (r: seq<NodeId>)
    ensures forall x :: x in r <==> exists j :: 0 <= j < |children| && children[j].id == x && children[j].parentId == Some(p)
  {
    if children == [] then []
    else
      var last := children[|children| - 1];
      var init := ChildIdsOf(children[..|children| - 1], p);
      assert forall j :: 0 <= j < |children| - 1 ==> children[..|children| - 1][j] == children[j];
      init + (if last.parentId == Some(p) then [last.id] else [])
  }

  /** Ids increasing along a list: in particular no id repeats. */
  predicate Ascending(s: seq<NodeId>)
  {
    forall i, j :: 0 <= i < j < |s| ==> s[i] < s[j]
  }

  lemma AscendingDistinct(s: seq<NodeId>)
    requires Ascending(s)
    ensures Distinct(s)
  {
  }

  /** Children listed in id order keep that order under every parent. */
  lemma {:induction false} ChildIdsAscending(children: seq<Node>, p: NodeId, first: nat)
    requires forall i :: 0 <= i < |children| ==> children[i].id == first + i
    ensures Ascending(ChildIdsOf(children, p))
    ensures forall x :: x in ChildIdsOf(children, p) ==> first <= x < first + |children|
  {
    if children != [] {
      var init := children[..|children| - 1];
      var last := children[|children| - 1];
      assert forall i :: 0 <= i < |init| ==> init[i] == children[i];
      ChildIdsAscending(init, p, first);
      var r0 := ChildIdsOf(init, p);
      assert last.id == first + |init|;
      if last.parentId == Some(p) {
        assert ChildIdsOf(children, p) == r0 + [last.id];
        assert forall k :: 0 <= k < |r0| ==> r0[k] in r0;
      } else {
        assert ChildIdsOf(children, p) == r0;
      }
    }
  }

  /** After the roots are registered: exactly the roots, in order, as declared. */
  lemma {:induction false} RootsRegistered(roots: seq<Node>)
    requires forall i :: 0 <= i < |roots| ==> roots[i].id == i
    ensures var reg := RegisterRoots(roots);
      && reg.order == Ids(roots)
      && KeysListed(reg)
      && (forall i :: 0 <= i < |roots| ==> roots[i].id in reg.nodes && reg.nodes[roots[i].id] == roots[i])
  {
    if roots != [] {
      var init := roots[..|roots| - 1];
      var last := roots[|roots| - 1];
      assert forall i :: 0 <= i < |init| ==> init[i] == roots[i];
      RootsRegistered(init);
      var reg := RegisterRoots(init);
      assert RegisterRoots(roots) == Put(reg, last);
      assert last.id !in reg.nodes by {
        forall k | 0 <= k < |reg.order|
          ensures reg.order[k] != last.id
        {
          assert reg.order[k] == init[k].id == k;
        }
      }
      assert Ids(roots) == Ids(init) + [last.id];
      var r := Put(reg, last);
      forall i | 0 <= i < |roots|
        ensures roots[i].id in r.nodes && r.nodes[roots[i].id] == roots[i]
      {
        if i < |init| {
          assert roots[i] == init[i] && roots[i].id == i != last.id;
        }
      }
    }
  }

  /**
   * The shape the registry has after every child of a layered layout is
   * registered: the roots carry the ids of their children, the children
   * are stored as declared.
   */
  predicate Registered(reg: Registry, roots: seq<Node>, children: seq<Node>)
  {
    && reg.order == Ids(roots) + Ids(children)
    && KeysListed(reg)
    && RootsCarry(reg, roots, children)
    && ChildrenStored(reg, children)
  }

  predicate KeysListed(reg: Registry)
  {
    forall id :: id in reg.nodes ==> id in reg.order
  }

  predicate RootsCarry(reg: Registry, roots: seq<Node>, children: seq<Node>)
  {
    forall i :: 0 <= i < |roots| ==>
      && roots[i].id in reg.nodes
      && reg.nodes[roots[i].id] == roots[i].(children := ChildIdsOf(children, roots[i].id))
  }

  predicate ChildrenStored(reg: Registry, children: seq<Node>)
  {
    forall i :: 0 <= i < |children| ==> children[i].id in reg.nodes && reg.nodes[children[i].id] == children[i]
  }

  lemma {:induction false} ChildrenRegistered(roots: seq<Node>, children: seq<Node>)
    requires Layered(roots, children)
    ensures Registered(RegisterChildren(RegisterRoots(roots), children), roots, children)
  {
    if children == [] {
      RootsRegistered(roots);
      forall i | 0 <= i < |roots|
        ensures roots[i].(children := ChildIdsOf(children, roots[i].id)) == roots[i]
      {
      }
      assert Ids(roots) + Ids(children) == Ids(roots);
    } else {
      var init := children[..|children| - 1];
      var last := children[|children| - 1];
      assert forall i :: 0 <= i < |init| ==> init[i] == children[i];
      assert Layered(roots, init);
      ChildrenRegistered(roots, init);
      var reg := RegisterChildren(RegisterRoots(roots), init);
      AttachLast(reg, roots, init, last);
      assert children == init + [last];
    }
  }

  /** One more child of a layered layout: new key at the end, id appended to its root. */
  lemma AttachLast(reg: Registry, roots: seq<Node>, init: seq<Node>, last: Node)
    requires Layered(roots, init + [last]) && Registered(reg, roots, init)
    ensures Registered(Attach(reg, last), roots, init + [last])
  {
    var children := init + [last];
    LastIsFresh(reg, roots, init, last);
    assert Ids(children) == Ids(init) + [last.id];
    AttachRoots(reg, roots, init, last);
    AttachChildren(reg, roots, init, last);
  }

  /** Attaching a child adds it to its parent root's children and changes no other root. */
  lemma AttachRoots(reg: Registry, roots: seq<Node>, init: seq<Node>, last: Node)
    requires Layered(roots, init + [last]) && Registered(reg, roots, init)
    requires last.id !in reg.nodes
    requires last.parentId.Some? && last.parentId.value < |roots| && last.parentId.value == roots[last.parentId.value].id
    requires forall i :: 0 <= i < |roots| ==> roots[i].id != last.id
    ensures RootsCarry(Attach(reg, last), roots, init + [last])
  {
    var children := init + [last];
    var p := last.parentId.value;
    var r := Attach(reg, last);
    forall i | 0 <= i < |roots|
      ensures roots[i].id in r.nodes
      ensures r.nodes[roots[i].id] == roots[i].(children := ChildIdsOf(children, roots[i].id))
    {
      assert children[..|children| - 1] == init;
      assert ChildIdsOf(children, roots[i].id)
          == ChildIdsOf(init, roots[i].id) + (if roots[i].id == p then [last.id] else []);
    }
  }

  /** Attaching a child stores it as declared and leaves the earlier children as they were. */
  lemma AttachChildren(reg: Registry, roots: seq<Node>, init: seq<Node>, last: Node)
    requires Layered(roots, init + [last]) && Registered(reg, roots, init)
    requires last.id !in reg.nodes
    requires last.parentId.Some? && last.parentId.value < |roots| && last.parentId.value == roots[last.parentId.value].id
    requires forall i :: 0 <= i < |roots| ==> roots[i].id != last.id
    ensures ChildrenStored(Attach(reg, last), init + [last]) && KeysListed(Attach(reg, last))
  {
    var children := init + [last];
    var p := last.parentId.value;
    var r := Attach(reg, last);
    assert p in reg.nodes && p != last.id;
    forall i | 0 <= i < |children|
      ensures children[i].id in r.nodes && r.nodes[children[i].id] == children[i]
    {
      if i < |init| {
        assert children[i] == init[i];
        assert init[i].id != p;
      }
    }
  }

  /**
   * The next child's id is not registered yet and is none of the earlier
   * ids; its parent is the root at the parent's position.
   */
  lemma LastIsFresh(reg: Registry, roots: seq<Node>, init: seq<Node>, last: Node)
    requires Layered(roots, init + [last]) && Registered(reg, roots, init)
    ensures last.id !in reg.nodes
    ensures last.parentId.Some? && last.parentId.value < |roots| && last.parentId.value == roots[last.parentId.value].id
    ensures forall i :: 0 <= i < |roots| ==> roots[i].id != last.id
    ensures forall i :: 0 <= i < |init| ==> init[i].id != last.id && init[i].id != last.parentId.value
  {
    var children := init + [last];
    assert children[|init|] == last;
    assert forall i :: 0 <= i < |init| ==> children[i] == init[i];
    assert last.id == |roots| + |init|;
    var p := last.parentId.value;
    assert roots[p].id == p;
    forall i | 0 <= i < |roots|
      ensures roots[i].id != last.id
    {
      assert roots[i].id == i;
    }
    forall i | 0 <= i < |init|
      ensures init[i].id != last.id && init[i].id != p
    {
      assert init[i].id == |roots| + i;
    }
    forall x | x in reg.order
      ensures x != last.id
    {
      var k :| 0 <= k < |reg.order| && reg.order[k] == x;
      if k < |roots| {
        assert x == roots[k].id;
      } else {
        assert x == init[k - |roots|].id;
      }
    }
  }

  /** The registry a layered layout produces has the registered shape. */
  lemma InitialRegistered(roots: seq<Node>, children: seq<Node>)
    requires Layered(roots, children)
    ensures WellKeyed(Initial(roots, children))
    ensures Registered(Initial(roots, children), roots, children)
  {
    ChildrenRegistered(roots, children);
    var reg := Initial(roots, children);
    forall k | 0 <= k < |reg.order|
      ensures reg.order[k] == k && reg.order[k] in reg.nodes && reg.nodes[reg.order[k]].id == k
    {
      if k < |roots| {
        assert reg.order[k] == roots[k].id;
      } else {
        assert reg.order[k] == children[k - |roots|].id;
      }
    }
  }

  /**
   * After init every child id appears exactly once in its parent's
   * children list, which holds exactly the children declared under it.
   */
  lemma ChildListedOnce(roots: seq<Node>, children: seq<Node>, i: nat)
    requires Layered(roots, children) && i < |children|
    ensures var reg := Initial(roots, children);
      var p := children[i].parentId.value;
      && p in reg.nodes
      && children[i].id in reg.nodes[p].children
      && Distinct(reg.nodes[p].children)
  {
    InitialRegistered(roots, children);
    var reg := Initial(roots, children);
    var p := children[i].parentId.value;
    assert roots[p].id == p;
    assert reg.nodes[p].children == ChildIdsOf(children, p);
    ChildIdsAscending(children, p, |roots|);
    AscendingDistinct(ChildIdsOf(children, p));
  }

  // ------------------------------------------------------ ranked registry

  /** Parents sit at lower levels than their children: parent walks and child walks end. */
  predicate Ranked(reg: Registry)
  {
    RankedUp(reg) && RankedDown(reg)
  }

  predicate RankedUp(reg: Registry)
  {
    forall id :: id in reg.nodes && reg.nodes[id].parentId.Some? && reg.nodes[id].parentId.value in reg.nodes ==>
      reg.nodes[reg.nodes[id].parentId.value].level < reg.nodes[id].level
  }

  predicate RankedDown(reg: Registry)
  {
    forall id, k :: id in reg.nodes && 0 <= k < |reg.nodes[id].children| ==>
      reg.nodes[id].children[k] in reg.nodes && reg.nodes[reg.nodes[id].children[k]].level > reg.nodes[id].level
  }

  /** The registry invariant every navigation operation relies on. */
  predicate Sound(reg: Registry)
  {
    WellKeyed(reg) && Ranked(reg)
  }

  /** Levels count the steps to a root: level 0 exactly when there is no parent. */
  predicate Exact(reg: Registry)
  {
    forall id :: id in reg.nodes ==>
      && (reg.nodes[id].level == 0 <==> reg.nodes[id].parentId.None?)
      && (reg.nodes[id].parentId.Some? ==>
            reg.nodes[id].parentId.value in reg.nodes
            && reg.nodes[reg.nodes[id].parentId.value].level + 1 == reg.nodes[id].level)
  }

  /** The registry of a layered layout is sound and exact. */
  lemma InitialSound(roots: seq<Node>, children: seq<Node>)
    requires Layered(roots, children)
    ensures Sound(Initial(roots, children)) && Exact(Initial(roots, children))
  {
    InitialRegistered(roots, children);
    var reg := Initial(roots, children);
    InitialChildLinks(reg, roots, children);
    InitialParentLinks(reg, roots, children);
  }

  /** A registered node of a layered layout is a root carrying its children, or a declared child. */
  lemma RegisteredNode(reg: Registry, roots: seq<Node>, children: seq<Node>, id: NodeId)
    requires Layered(roots, children) && WellKeyed(reg) && Registered(reg, roots, children) && id in reg.nodes
    ensures id < |roots| ==> reg.nodes[id] == roots[id].(children := ChildIdsOf(children, id))
    ensures id >= |roots| ==> id - |roots| < |children| && reg.nodes[id] == children[id - |roots|]
  {
    var k :| 0 <= k < |reg.order| && reg.order[k] == id;
    if k < |roots| {
      assert reg.order[k] == roots[k].id == k;
    } else {
      assert reg.order[k] == children[k - |roots|].id == k;
    }
  }

  lemma InitialChildLinks(reg: Registry, roots: seq<Node>, children: seq<Node>)
    requires Layered(roots, children) && WellKeyed(reg) && Registered(reg, roots, children)
    ensures RankedDown(reg)
  {
    forall id, k | id in reg.nodes && 0 <= k < |reg.nodes[id].children|
      ensures reg.nodes[id].children[k] in reg.nodes
      ensures reg.nodes[reg.nodes[id].children[k]].level > reg.nodes[id].level
    {
      RegisteredNode(reg, roots, children, id);
      var x := reg.nodes[id].children[k];
      assert x in ChildIdsOf(children, id);
      var j :| 0 <= j < |children| && children[j].id == x && children[j].parentId == Some(id);
      assert reg.nodes[x] == children[j];
    }
  }

  lemma InitialParentLinks(reg: Registry, roots: seq<Node>, children: seq<Node>)
    requires Layered(roots, children) && WellKeyed(reg) && Registered(reg, roots, children)
    ensures Exact(reg) && RankedUp(reg)
  {
    forall id | id in reg.nodes
      ensures reg.nodes[id].level == 0 <==> reg.nodes[id].parentId.None?
      ensures reg.nodes[id].parentId.Some? ==>
        reg.nodes[id].parentId.value in reg.nodes
        && reg.nodes[reg.nodes[id].parentId.value].level + 1 == reg.nodes[id].level
    {
      RegisteredNode(reg, roots, children, id);
      if reg.nodes[id].parentId.Some? {
        var p := reg.nodes[id].parentId.value;
        assert roots[p].id == p;
        RegisteredNode(reg, roots, children, p);
      }
    }
  }

  // --------------------------------------------------------- breadcrumbs

  /** One breadcrumb: {"id", "title", "level"}; the title is Title(id). */
  datatype Crumb = Crumb(id: NodeId, level: nat)

  /**
   * The breadcrumb trail of a node: its registered ancestors root first,
   * then the node itself.  Each crumb's node is the parent of the next
   * one, and the first has no registered parent.
   */
  function Trail(reg: Registry, id: NodeId): (r: seq<Crumb>)
    requires Sound(reg) && id in reg.nodes
    ensures 1 <= |r| <= reg.nodes[id].level + 1
    ensures r[|r| - 1] == Crumb(id, reg.nodes[id].level)
    ensures forall k :: 0 <= k < |r| ==> r[k].id in reg.nodes && r[k].level == reg.nodes[r[k].id].level
    ensures forall k :: 0 <= k < |r| - 1 ==> reg.nodes[r[k + 1].id].parentId == Some(r[k].id)
    ensures var first := reg.nodes[r[0].id];
      first.parentId.None? || first.parentId.value !in reg.nodes
    decreases reg.nodes[id].level
  {
    var n := reg.nodes[id];
    if n.parentId.Some? && n.parentId.value in reg.nodes then
      var up := Trail(reg, n.parentId.value);
      up + [Crumb(n.id, n.level)]
    else
      [Crumb(n.id, n.level)]
  }

  /** When levels are exact the trail starts at a root and has level + 1 crumbs. */
  lemma {:induction false} TrailLength(reg: Registry, id: NodeId)
    requires Sound(reg) && Exact(reg) && id in reg.nodes
    ensures |Trail(reg, id)| == reg.nodes[id].level + 1
    ensures Trail(reg, id)[0].level == 0
    decreases reg.nodes[id].level
  {
    var n := reg.nodes[id];
    if n.parentId.Some? {
      TrailLength(reg, n.parentId.value);
    }
  }

  // ---------------------------------------------------------------- tree

  /** One branch of navigation["tree"]: {"id", "title", "level", "children"}. */
  datatype Branch = Branch(id: NodeId, level: nat, children: seq<Branch>)

  /** The registered nodes at or below a level: shrinks along every child link. */
  function Above(reg: Registry, level: nat): set<NodeId>
  {
    set x | x in reg.nodes && reg.nodes[x].level >= level
  }

  lemma AboveShrinks(reg: Registry, a: NodeId, b: NodeId)
    requires a in reg.nodes && b in reg.nodes && reg.nodes[a].level < reg.nodes[b].level
    ensures |Above(reg, reg.nodes[b].level)| < |Above(reg, reg.nodes[a].level)|
  {
    var big, small := Above(reg, reg.nodes[a].level), Above(reg, reg.nodes[b].level);
    assert small <= big && a in big - small;
    assert big == small + (big - small);
    assert |big - small| >= 1;
  }

  /** _build_tree_branch: the node and, recursively, its children in order. */
  function TreeBranch(reg: Registry, id: NodeId): (b: Branch)
    requires Sound(reg) && id in reg.nodes
    ensures b.id == id && b.level == reg.nodes[id].level
    ensures |b.children| == |reg.nodes[id].children|
    ensures forall k :: 0 <= k < |b.children| ==> b.children[k].id == reg.nodes[id].children[k]
    decreases |Above(reg, reg.nodes[id].level)|
  {
    var n := reg.nodes[id];
    Branch(n.id, n.level, seq(|n.children|, k requires 0 <= k < |n.children| =>
      AboveShrinks(reg, id, n.children[k]);
      TreeBranch(reg, n.children[k])))
  }

  /** navigation["quick_access"]: the high-priority nodes of the first two levels, in registry order. */
  function QuickAccess(order: seq<NodeId>, nodes: map<NodeId, Node>): (r: seq<NodeId>)
    requires forall id :: id in order ==> id in nodes
    ensures forall x :: x in r <==> x in order && nodes[x].priority == 1 && nodes[x].level <= 1
  {
    if order == [] then []
    else
      var init := QuickAccess(order[..|order| - 1], nodes);
      var id := order[|order| - 1];
      assert forall x :: x in order <==> x in order[..|order| - 1] || x == id;
      init + (if nodes[id].priority == 1 && nodes[id].level <= 1 then [id] else [])
  }

  /** The dict _generate_navigation_structure returns; the node entries are the registry's nodes. */
  datatype NavigationView = NavigationView(
    tree: map<NodeId, Branch>,
    nodes: map<NodeId, Node>,
    breadcrumbs: map<NodeId, seq<Crumb>>,
    quickAccess: seq<NodeId>)

  function NavigationOf(reg: Registry): NavigationView
    requires Sound(reg)
  {
    NavigationView(TreeOf(reg), reg.nodes, CrumbsOf(reg), QuickAccess(reg.order, reg.nodes))
  }

  /** navigation["tree"]: a branch for every root. */
  function TreeOf(reg: Registry): map<NodeId, Branch>
    requires Sound(reg)
  {
    map id | id in reg.nodes && reg.nodes[id].level == 0 :: TreeBranch(reg, id)
  }

  /** navigation["breadcrumbs"]: a trail for every node. */
  function CrumbsOf(reg: Registry): map<NodeId, seq<Crumb>>
    requires Sound(reg)
  {
    map id | id in reg.nodes :: Trail(reg, id)
  }

  /** In the navigation of a layered layout the tree's keys are exactly the roots. */
  lemma LayeredTreeRoots(roots: seq<Node>, children: seq<Node>, id: NodeId)
    requires Layered(roots, children)
    ensures Sound(Initial(roots, children))
    ensures id in NavigationOf(Initial(roots, children)).tree <==> id in Initial(roots, children).nodes && id < |roots|
  {
    InitialSound(roots, children);
    InitialRegistered(roots, children);
    var reg := Initial(roots, children);
    if id in reg.nodes {
      RegisteredNode(reg, roots, children, id);
    }
  }

  /** Each root's branch lists the children declared under it, in declaration order. */
  lemma LayeredRootBranch(roots: seq<Node>, children: seq<Node>, i: nat)
    requires Layered(roots, children) && i < |roots|
    ensures Sound(Initial(roots, children))
    ensures var tree := NavigationOf(Initial(roots, children)).tree;
      && i in tree
      && |tree[i].children| == |ChildIdsOf(children, i)|
      && forall k :: 0 <= k < |tree[i].children| ==> tree[i].children[k].id == ChildIdsOf(children, i)[k]
  {
    InitialSound(roots, children);
    InitialRegistered(roots, children);
    var reg := Initial(roots, children);
    assert roots[i].id == i && i in reg.nodes;
    RegisteredNode(reg, roots, children, i);
  }

  /** Every breadcrumb trail of a layered layout starts at a root and has level + 1 crumbs. */
  lemma LayeredTrail(roots: seq<Node>, children: seq<Node>, id: NodeId)
    requires Layered(roots, children) && id in Initial(roots, children).nodes
    ensures Sound(Initial(roots, children))
    ensures var reg := Initial(roots, children);
      var trail := NavigationOf(reg).breadcrumbs[id];
      |trail| == reg.nodes[id].level + 1 && trail[0].level == 0
  {
    InitialSound(roots, children);
    TrailLength(Initial(roots, children), id);
  }

  /** In a layered layout every node is in the first two levels, so quick access is the priority-1 nodes. */
  lemma LayeredQuickAccess(roots: seq<Node>, children: seq<Node>, x: NodeId)
    requires Layered(roots, children)
    ensures Sound(Initial(roots, children))
    ensures var reg := Initial(roots, children);
      x in NavigationOf(reg).quickAccess <==> x in reg.nodes && reg.nodes[x].priority == 1
  {
    InitialSound(roots, children);
    InitialRegistered(roots, children);
    var reg := Initial(roots, children);
    if x in reg.nodes {
      RegisteredNode(reg, roots, children, x);
    }
  }

  // ---------------------------------------------------------- tokenisers

  /** The two tokenisers: re.findall(r'\w+', ...) and str.split(). */
  datatype RunKind = WordChars | NonSpace

  predicate InRun(kind: RunKind, c: char)
  {
    match kind
    case WordChars => 'a' <= c <= 'z' || 'A' <= c <= 'Z' || '0' <= c <= '9' || c == '_'
    case NonSpace => !IsSpace(c)
  }

  /** str.isspace() on one character: the whitespace str.split() separates on. */
  predicate IsSpace(c: char)
  {
    || c == ' ' || '\t' <= c <= '\r' || '\U{1C}' <= c <= '\U{1F}'
    || c == '\U{85}' || c == '\U{A0}' || c == '\U{1680}' || '\U{2000}' <= c <= '\U{200A}'
    || c == '\U{2028}' || c == '\U{2029}' || c == '\U{202F}' || c == '\U{205F}' || c == '\U{3000}'
  }

  /** The length of the run at the start of s. */
  function RunLength(s: string, kind: RunKind): (n: nat)
    ensures n <= |s|
    ensures forall i :: 0 <= i < n ==> InRun(kind, s[i])
    ensures n < |s| ==> !InRun(kind, s[n])
  {
    if s == [] || !InRun(kind, s[0]) then 0 else 1 + RunLength(s[1..], kind)
  }

  /** The maximal runs of s, in order. */
  function Runs(s: string, kind: RunKind): (r: seq<string>)
    ensures forall i :: 0 <= i < |r| ==> |r[i]| > 0 && forall j :: 0 <= j < |r[i]| ==> InRun(kind, r[i][j])
    decreases |s|
  {
    if s == [] then []
    else if !InRun(kind, s[0]) then Runs(s[1..], kind)
    else
      var n := RunLength(s, kind);
      [s[..n]] + Runs(s[n..], kind)
  }

  function Concat(ws: seq<string>): string
  {
    if ws == [] then [] else ws[0] + Concat(ws[1..])
  }

  /** The characters of a run kind, in order. */
  function KeepIn(s: string, kind: RunKind): string
  {
    if s == [] then [] else (if InRun(kind, s[0]) then [s[0]] else []) + KeepIn(s[1..], kind)
  }

  /** The runs together hold exactly the run characters, in order: nothing is lost or invented. */
  lemma {:induction false} RunsKeepChars(s: string, kind: RunKind)
    ensures Concat(Runs(s, kind)) == KeepIn(s, kind)
    decreases |s|
  {
    if s != [] {
      if !InRun(kind, s[0]) {
        RunsKeepChars(s[1..], kind);
      } else {
        var n := RunLength(s, kind);
        RunsKeepChars(s[n..], kind);
        assert Runs(s, kind)[1..] == Runs(s[n..], kind);
        RunKept(s, kind, n);
      }
    }
  }

  /** A leading run is kept whole. */
  lemma {:induction false} RunKept(s: string, kind: RunKind, n: nat)
    requires n <= |s| && forall i :: 0 <= i < n ==> InRun(kind, s[i])
    ensures KeepIn(s, kind) == s[..n] + KeepIn(s[n..], kind)
  {
    if n > 0 {
      RunKept(s[1..], kind, n - 1);
      assert s[1..][n - 1..] == s[n..];
      assert s[..n] == [s[0]] + s[1..][..n - 1];
    }
  }

  // ------------------------------------------------------------- indices

  /** Which index: text_index, tag_index or audience_index. */
  datatype IndexKind = TextKeys | TagKeys | AudienceKeys

  /** f"{title} {description} {help_text or ''}".lower(); every node has a help text. */
  function NodeText(n: Node): string
  {
    Lower(n.title + " " + n.description + " " + n.helpText)
  }

  /** The keys a node is listed under in each index (duplicates list it twice). */
  function KeysOf(kind: IndexKind, n: Node): seq<string>
  {
    match kind
    case TextKeys => Runs(NodeText(n), WordChars)
    case TagKeys => n.tags
    case AudienceKeys => n.audience
  }

  type Index = map<string, seq<NodeId>>

  function Lookup(index: Index, key: string): seq<NodeId>
  {
    if key in index then index[key] else []
  }

  /** The inner loop for one node: its id appended to the list of each of its keys. */
  function AddPostings(index: Index, keys: seq<string>, id: NodeId): Index
  {
    if keys == [] then index
    else
      var before := AddPostings(index, keys[..|keys| - 1], id);
      var key := keys[|keys| - 1];
      before[key := Lookup(before, key) + [id]]
  }

  /** One index after the loop over the registry. */
  function IndexOf(ids: seq<NodeId>, nodes: map<NodeId, Node>, kind: IndexKind): Index
    requires forall id :: id in ids ==> id in nodes
  {
    if ids == [] then map[]
    else
      var last := ids[|ids| - 1];
      AddPostings(IndexOf(ids[..|ids| - 1], nodes, kind), KeysOf(kind, nodes[last]), last)
  }

  lemma {:induction false} PostingsMembership(index: Index, keys: seq<string>, id: NodeId, key: string, x: NodeId)
    ensures x in Lookup(AddPostings(index, keys, id), key) <==> x in Lookup(index, key) || (x == id && key in keys)
  {
    if keys != [] {
      PostingsMembership(index, keys[..|keys| - 1], id, key, x);
      assert key in keys <==> key in keys[..|keys| - 1] || key == keys[|keys| - 1];
    }
  }

  /** A node is listed under a key exactly when the key is one of its words, tags or audiences. */
  lemma {:induction false} IndexMembership(ids: seq<NodeId>, nodes: map<NodeId, Node>, kind: IndexKind, key: string, x: NodeId)
    requires forall id :: id in ids ==> id in nodes
    ensures x in Lookup(IndexOf(ids, nodes, kind), key) <==> x in ids && key in KeysOf(kind, nodes[x])
  {
    if ids != [] {
      var init, last := ids[..|ids| - 1], ids[|ids| - 1];
      IndexMembership(init, nodes, kind, key, x);
      PostingsMembership(IndexOf(init, nodes, kind), KeysOf(kind, nodes[last]), last, key, x);
      assert x in ids <==> x in init || x == last;
    }
  }

  // ------------------------------------------------------------ filtering

  /** FilterCriteria, without date_range and performance_threshold, which the filter never reads. */
  datatype FilterCriteria = FilterCriteria(
    audience: Option<string>,
    priorityLevels: seq<int>,
    tags: seq<string>,
    textSearch: Option<string>)

  /** A truthy optional string: present and non-empty. */
  predicate Given(o: Option<string>)
  {
    o.Some? && o.value != ""
  }

  /** text_search.lower().split() */
  function SearchTerms(text: string): seq<string>
  {
    Runs(Lower(text), NonSpace)
  }

  function SetOf(s: seq<NodeId>): set<NodeId>
  {
    set x | x in s
  }

  /** The union of the index lists of the keys present in the index. */
  function UnionOf(index: Index, keys: seq<string>): (r: set<NodeId>)
    ensures forall x :: x in r <==> exists k :: k in keys && x in Lookup(index, k)
  {
    if keys == [] then {}
    else
      var key := keys[|keys| - 1];
      var r := UnionOf(index, keys[..|keys| - 1]) + (if key in index then SetOf(index[key]) else {});
      assert forall k :: k in keys <==> k in keys[..|keys| - 1] || k == key;
      assert forall x :: x in r <==> x in UnionOf(index, keys[..|keys| - 1]) || x in Lookup(index, key);
      r
  }

  /** The three search indices. */
  datatype Indices = Indices(text: Index, tags: Index, audience: Index)

  function IndicesOf(reg: Registry): Indices
    requires WellKeyed(reg)
  {
    Indices(IndexOf(reg.order, reg.nodes, TextKeys), IndexOf(reg.order, reg.nodes, TagKeys),
            IndexOf(reg.order, reg.nodes, AudienceKeys))
  }

  /** Audience (or every node), then priority, then tags. */
  function BeforeText(reg: Registry, ix: Indices, c: FilterCriteria): set<NodeId>
  {
    var byPriority := ByPriority(reg, AudienceBase(reg, ix, c), c.priorityLevels);
    if c.tags != [] then byPriority * UnionOf(ix.tags, c.tags) else byPriority
  }

  /** The audience step: the audience's index list, or every registered node when no audience is given. */
  function AudienceBase(reg: Registry, ix: Indices, c: FilterCriteria): set<NodeId>
  {
    if Given(c.audience) then SetOf(Lookup(ix.audience, c.audience.value)) else reg.nodes.Keys
  }

  /** The priority step: the nodes of a wanted priority. */
  function ByPriority(reg: Registry, base: set<NodeId>, levels: seq<int>): set<NodeId>
  {
    set x | x in base && x in reg.nodes && reg.nodes[x].priority in levels
  }

  /** _find_relevant_nodes: free text narrows the set only when some term is indexed. */
  function Relevant(reg: Registry, ix: Indices, c: FilterCriteria): set<NodeId>
  {
    var before := BeforeText(reg, ix, c);
    if Given(c.textSearch) then
      var hits := UnionOf(ix.text, SearchTerms(c.textSearch.value));
      if hits != {} then before * hits else before
    else before
  }

  /** Some registered node has one of the search terms among its words. */
  predicate TextNarrows(reg: Registry, c: FilterCriteria)
  {
    Given(c.textSearch) &&
    exists x, t :: x in reg.nodes && t in SearchTerms(c.textSearch.value) && t in KeysOf(TextKeys, reg.nodes[x])
  }

  /** The filter stated on the nodes themselves rather than on the indices. */
  predicate Wanted(reg: Registry, c: FilterCriteria, narrow: bool, x: NodeId)
  {
    && x in reg.nodes
    && reg.nodes[x].priority in c.priorityLevels
    && (Given(c.audience) ==> c.audience.value in reg.nodes[x].audience)
    && (c.tags != [] ==> exists t :: t in c.tags && t in reg.nodes[x].tags)
    && (narrow ==> c.textSearch.Some? && exists t :: t in SearchTerms(c.textSearch.value) && t in KeysOf(TextKeys, reg.nodes[x]))
  }

  /** The audience, priority and tag steps, stated on the nodes. */
  lemma BeforeTextByFields(reg: Registry, c: FilterCriteria, x: NodeId)
    requires WellKeyed(reg)
    ensures x in BeforeText(reg, IndicesOf(reg), c) <==> Wanted(reg, c, false, x)
  {
    var ix := IndicesOf(reg);
    if Given(c.audience) {
      IndexMembership(reg.order, reg.nodes, AudienceKeys, c.audience.value, x);
    }
    if c.tags != [] {
      forall t
        ensures x in Lookup(ix.tags, t) <==> x in reg.order && t in reg.nodes[x].tags
      {
        IndexMembership(reg.order, reg.nodes, TagKeys, t, x);
      }
    }
  }

  /** Some search term is indexed exactly when some registered node has it among its words. */
  lemma TextHitsByFields(reg: Registry, c: FilterCriteria)
    requires WellKeyed(reg) && Given(c.textSearch)
    ensures UnionOf(IndicesOf(reg).text, SearchTerms(c.textSearch.value)) != {} <==> TextNarrows(reg, c)
  {
    var terms := SearchTerms(c.textSearch.value);
    var hits := UnionOf(IndicesOf(reg).text, terms);
    if TextNarrows(reg, c) {
      var y, t :| y in reg.nodes && t in terms && t in KeysOf(TextKeys, reg.nodes[y]);
      IndexMembership(reg.order, reg.nodes, TextKeys, t, y);
      assert y in hits;
    } else if hits != {} {
      var y :| y in hits;
      var t :| t in terms && y in Lookup(IndicesOf(reg).text, t);
      IndexMembership(reg.order, reg.nodes, TextKeys, t, y);
      assert false;
    }
  }

  /** A node is a text hit exactly when it has a search term among its words. */
  lemma TextHitByFields(reg: Registry, c: FilterCriteria, x: NodeId)
    requires WellKeyed(reg) && Given(c.textSearch)
    ensures x in UnionOf(IndicesOf(reg).text, SearchTerms(c.textSearch.value)) <==>
      x in reg.nodes && exists t :: t in SearchTerms(c.textSearch.value) && t in KeysOf(TextKeys, reg.nodes[x])
  {
    forall t
      ensures x in Lookup(IndicesOf(reg).text, t) <==> x in reg.order && t in KeysOf(TextKeys, reg.nodes[x])
    {
      IndexMembership(reg.order, reg.nodes, TextKeys, t, x);
    }
  }

  /**
   * Over the indices built from the registry, the relevant nodes are the
   * registered nodes of a wanted priority, relevant to the audience when
   * one is given, carrying a requested tag when tags are given, and having
   * a search term among their words when some term is indexed at all.
   */
  lemma RelevantByFields(reg: Registry, c: FilterCriteria, x: NodeId)
    requires WellKeyed(reg)
    ensures x in Relevant(reg, IndicesOf(reg), c) <==> Wanted(reg, c, TextNarrows(reg, c), x)
  {
    BeforeTextByFields(reg, c, x);
    if Given(c.textSearch) {
      TextHitsByFields(reg, c);
      TextHitByFields(reg, c, x);
    }
  }

  /** An audience that is not in the index selects nothing. */
  lemma UnknownAudience(reg: Registry, c: FilterCriteria)
    requires WellKeyed(reg) && Given(c.audience) && c.audience.value !in IndicesOf(reg).audience
    ensures Relevant(reg, IndicesOf(reg), c) == {}
  {
  }

  /** ids restricted to a set, in their order (a list comprehension with an `in` test). */
  function Kept(ids: seq<NodeId>, relevant: set<NodeId>): (r: seq<NodeId>)
    ensures forall x :: x in r <==> x in ids && x in relevant
  {
    if ids == [] then []
    else
      var last := ids[|ids| - 1];
      assert forall x :: x in ids <==> x in ids[..|ids| - 1] || x == last;
      Kept(ids[..|ids| - 1], relevant) + (if last in relevant then [last] else [])
  }

  /** Every node of a branch is relevant. */
  predicate AllIn(b: Branch, relevant: set<NodeId>)
  {
    b.id in relevant && forall k :: 0 <= k < |b.children| ==> AllIn(b.children[k], relevant)
  }

  /** A child is registered one level further down. */
  lemma ChildRanked(reg: Registry, id: NodeId, x: NodeId)
    requires Sound(reg) && id in reg.nodes && x in reg.nodes[id].children
    ensures x in reg.nodes && reg.nodes[x].level > reg.nodes[id].level
    ensures |Above(reg, reg.nodes[x].level)| < |Above(reg, reg.nodes[id].level)|
  {
    var k :| 0 <= k < |reg.nodes[id].children| && reg.nodes[id].children[k] == x;
    AboveShrinks(reg, id, x);
  }

  /**
   * _build_filtered_tree_branch on a relevant node: the node with the
   * branches of its relevant children, in order; every node in it is
   * relevant.
   */
  function RelevantBranch(reg: Registry, id: NodeId, relevant: set<NodeId>): (b: Branch)
    requires Sound(reg) && id in reg.nodes && id in relevant
    ensures b.id == id && b.level == reg.nodes[id].level
    ensures var kept := Kept(reg.nodes[id].children, relevant);
      |b.children| == |kept| && forall k :: 0 <= k < |kept| ==> b.children[k].id == kept[k]
    ensures AllIn(b, relevant)
    decreases |Above(reg, reg.nodes[id].level)|
  {
    var n := reg.nodes[id];
    var kept := Kept(n.children, relevant);
    Branch(n.id, n.level, seq(|kept|, k requires 0 <= k < |kept| =>
      ChildRanked(reg, id, kept[k]);
      RelevantBranch(reg, kept[k], relevant)))
  }

  /** _build_filtered_tree_branch: None for a node that is not relevant. */
  function FilteredBranch(reg: Registry, id: NodeId, relevant: set<NodeId>): (b: Option<Branch>)
    requires Sound(reg) && id in reg.nodes
    ensures b.Some? <==> id in relevant
  {
    if id in relevant then Some(RelevantBranch(reg, id, relevant)) else None
  }

  /** _filter_navigation. */
  function FilterNavigation(reg: Registry, nav: NavigationView, relevant: set<NodeId>): NavigationView
    requires Sound(reg) && forall x :: x in relevant ==> x in reg.nodes
  {
    var nodes := Restrict(nav.nodes, relevant);
    NavigationView(FilteredTree(reg, nodes, relevant), nodes, Restrict(nav.breadcrumbs, relevant),
                   Kept(nav.quickAccess, relevant))
  }

  /** A dict cut down to the relevant keys. */
  function Restrict<V>(m: map<NodeId, V>, relevant: set<NodeId>): map<NodeId, V>
  {
    map id | id in relevant && id in m :: m[id]
  }

  /** The filtered tree: a relevant branch for every kept node entry at level 0. */
  function FilteredTree(reg: Registry, nodes: map<NodeId, Node>, relevant: set<NodeId>): map<NodeId, Branch>
    requires Sound(reg) && forall x :: x in relevant ==> x in reg.nodes
  {
    map id | id in nodes && id in relevant && nodes[id].level == 0 :: RelevantBranch(reg, id, relevant)
  }

  /**
   * Filtered navigation holds relevant nodes only: its node entries,
   * breadcrumbs and quick-access items are relevant and unchanged, and
   * every tree in it consists of relevant nodes reached through relevant
   * parents.
   */
  lemma FilteredWithin(reg: Registry, nav: NavigationView, relevant: set<NodeId>)
    requires Sound(reg) && forall x :: x in relevant ==> x in reg.nodes
    ensures var f := FilterNavigation(reg, nav, relevant);
      && (forall id :: id in f.nodes <==> id in relevant && id in nav.nodes)
      && (forall id :: id in f.nodes ==> f.nodes[id] == nav.nodes[id])
      && (forall id :: id in f.breadcrumbs <==> id in relevant && id in nav.breadcrumbs)
      && (forall x :: x in f.quickAccess <==> x in nav.quickAccess && x in relevant)
      && (forall id :: id in f.tree ==> id in relevant && nav.nodes[id].level == 0 && AllIn(f.tree[id], relevant))
  {
  }

  // -------------------------------------------------------------- content

  /** The JSON-like values the organised content holds; numbers, booleans and null are JOther. */
  datatype Json = JString(text: string) | JList(items: seq<Json>) | JObject(entries: seq<Entry>) | JOther
  datatype Entry = Entry(key: string, value: Json)

  /** One item of organized_data["content"]: a node id and its content. */
  datatype Section = Section(id: NodeId, value: Json)

  /** The parts of organized_data that filtering and search read. */
  datatype Organized = Organized(navigation: NavigationView, content: seq<Section>)

  /** The content dict: a later entry for an id replaces an earlier one. */
  function ContentOf(content: seq<Section>): (m: map<NodeId, Json>)
    ensures forall id :: id in m <==> exists k :: 0 <= k < |content| && content[k].id == id
  {
    if content == [] then map[]
    else
      var last := content[|content| - 1];
      var init := content[..|content| - 1];
      assert forall k :: 0 <= k < |init| ==> init[k] == content[k];
      ContentOf(init)[last.id := last.value]
  }

  /** The dict filter_content returns, without metadata. */
  datatype Filtered = Filtered(navigation: NavigationView, content: map<NodeId, Json>, filterApplied: FilterCriteria)

  function FilteredOf(reg: Registry, data: Organized, relevant: set<NodeId>, c: FilterCriteria): Filtered
    requires Sound(reg) && forall x :: x in relevant ==> x in reg.nodes
  {
    Filtered(FilterNavigation(reg, data.navigation, relevant), Restrict(ContentOf(data.content), relevant), c)
  }

  /** Filtered content is the content of the relevant nodes, unchanged. */
  lemma FilteredContent(reg: Registry, data: Organized, relevant: set<NodeId>, c: FilterCriteria)
    requires Sound(reg) && forall x :: x in relevant ==> x in reg.nodes
    ensures var f := FilteredOf(reg, data, relevant, c);
      && (forall id :: id in f.content <==> id in relevant && exists k :: 0 <= k < |data.content| && data.content[k].id == id)
      && (forall id :: id in f.content ==> f.content[id] == ContentOf(data.content)[id])
      && f.filterApplied == c
  {
  }

  // --------------------------------------------------------------- search

  /** str.count: non-overlapping occurrences, scanning from the left. */
  function CountIn(s: string, sub: string): nat
    requires |sub| > 0
    decreases |s|
  {
    if |s| < |sub| then 0
    else if s[..|sub|] == sub then 1 + CountIn(s[|sub|..], sub)
    else CountIn(s[1..], sub)
  }

  /** A term is counted at least once exactly when it occurs. */
  lemma {:induction false} CountPositive(s: string, sub: string)
    requires |sub| > 0
    ensures CountIn(s, sub) > 0 <==> Contains(s, sub)
    decreases |s|
  {
    if |s| >= |sub| {
      if s[..|sub|] == sub {
        assert OccursAt(s, sub, 0);
      } else {
        CountPositive(s[1..], sub);
        if Contains(s, sub) {
          var i :| 0 <= i <= |s| - |sub| && OccursAt(s, sub, i);
          assert s[1..][i - 1..i - 1 + |sub|] == s[i..i + |sub|];
          assert OccursAt(s[1..], sub, i - 1);
        }
        if Contains(s[1..], sub) {
          var i :| 0 <= i <= |s[1..]| - |sub| && OccursAt(s[1..], sub, i);
          assert s[1..][i..i + |sub|] == s[i + 1..i + 1 + |sub|];
          assert OccursAt(s, sub, i + 1);
        }
      }
    }
  }

  predicate NonEmptyTerms(terms: seq<string>)
  {
    forall k :: 0 <= k < |terms| ==> |terms[k]| > 0
  }

  /** match_score: for each term that occurs, the number of its occurrences. */
  function Score(text: string, terms: seq<string>): nat
    requires NonEmptyTerms(terms)
  {
    if terms == [] then 0
    else
      var t := terms[|terms| - 1];
      Score(text, terms[..|terms| - 1]) + (if Contains(text, t) then CountIn(text, t) else 0)
  }

  /** A node scores exactly when one of the terms occurs in its text. */
  lemma {:induction false} ScorePositive(text: string, terms: seq<string>)
    requires NonEmptyTerms(terms)
    ensures Score(text, terms) > 0 <==> exists t :: t in terms && Contains(text, t)
  {
    if terms != [] {
      var t := terms[|terms| - 1];
      ScorePositive(text, terms[..|terms| - 1]);
      CountPositive(text, t);
      assert forall u :: u in terms <==> u in terms[..|terms| - 1] || u == t;
    }
  }

  /** An entry of relevant_nodes; title and description are functions of the id. */
  datatype NodeHit = NodeHit(id: NodeId, score: nat, audience: seq<string>)

  /** The nodes with a positive match score, in registry order. */
  function Hits(ids: seq<NodeId>, nodes: map<NodeId, Node>, terms: seq<string>): (r: seq<NodeHit>)
    requires forall id :: id in ids ==> id in nodes
    requires NonEmptyTerms(terms)
    ensures forall k :: 0 <= k < |r| ==>
      r[k].id in ids && r[k].score == Score(NodeText(nodes[r[k].id]), terms) > 0 && r[k].audience == nodes[r[k].id].audience
  {
    if ids == [] then []
    else
      var id := ids[|ids| - 1];
      var init := Hits(ids[..|ids| - 1], nodes, terms);
      var score := Score(NodeText(nodes[id]), terms);
      var r := init + (if score > 0 then [NodeHit(id, score, nodes[id].audience)] else []);
      assert forall k :: 0 <= k < |init| ==> r[k] == init[k];
      r
  }

  /** Every registered node that scores is among the hits. */
  lemma {:induction false} HitsComplete(ids: seq<NodeId>, nodes: map<NodeId, Node>, terms: seq<string>, x: NodeId)
    requires forall id :: id in ids ==> id in nodes
    requires NonEmptyTerms(terms)
    requires x in ids && Score(NodeText(nodes[x]), terms) > 0
    ensures exists k :: 0 <= k < |Hits(ids, nodes, terms)| && Hits(ids, nodes, terms)[k].id == x
  {
    var id := ids[|ids| - 1];
    var init := Hits(ids[..|ids| - 1], nodes, terms);
    var r := Hits(ids, nodes, terms);
    assert forall k :: 0 <= k < |init| ==> r[k] == init[k];
    if x == id {
      assert r[|r| - 1].id == x;
    } else {
      assert x in ids[..|ids| - 1];
      HitsComplete(ids[..|ids| - 1], nodes, terms, x);
      var k :| 0 <= k < |init| && init[k].id == x;
      assert r[k].id == x;
    }
  }

  /** Scores in non-increasing order. */
  predicate Descending(s: seq<NodeHit>)
  {
    forall i, j :: 0 <= i < j < |s| ==> s[i].score >= s[j].score
  }

  /** The hits with one score, in order. */
  function WithScore(s: seq<NodeHit>, v: nat): seq<NodeHit>
  {
    if s == [] then [] else (if s[0].score == v then [s[0]] else []) + WithScore(s[1..], v)
  }

  /** Insertion ahead of the first hit that does not score higher. */
  function InsertByScore(h: NodeHit, sorted: seq<NodeHit>): (r: seq<NodeHit>)
    ensures |r| == |sorted| + 1
    ensures forall k :: 0 <= k < |r| ==> r[k] == h || r[k] in sorted
  {
    if sorted == [] || sorted[0].score <= h.score then [h] + sorted
    else [sorted[0]] + InsertByScore(h, sorted[1..])
  }

  lemma {:induction false} InsertPermutes(h: NodeHit, sorted: seq<NodeHit>)
    ensures multiset(InsertByScore(h, sorted)) == multiset(sorted) + multiset{h}
  {
    if sorted != [] && sorted[0].score > h.score {
      InsertPermutes(h, sorted[1..]);
      assert sorted == [sorted[0]] + sorted[1..];
    }
  }

  /** Insertion keeps a descending sequence descending. */
  lemma {:induction false} InsertDescending(h: NodeHit, sorted: seq<NodeHit>)
    requires Descending(sorted)
    ensures Descending(InsertByScore(h, sorted))
  {
    if sorted != [] && sorted[0].score > h.score {
      var rest := InsertByScore(h, sorted[1..]);
      InsertDescending(h, sorted[1..]);
      var r := [sorted[0]] + rest;
      forall i, j | 0 <= i < j < |r|
        ensures r[i].score >= r[j].score
      {
        if i == 0 {
          assert r[j] == rest[j - 1];
          if rest[j - 1] != h {
            var k :| 0 <= k < |sorted[1..]| && sorted[1..][k] == rest[j - 1];
            assert sorted[k + 1] == rest[j - 1];
          }
        } else {
          assert r[i] == rest[i - 1] && r[j] == rest[j - 1];
        }
      }
    }
  }

  /** list.sort(key=match_score, reverse=True): stable, highest score first. */
  function SortByScore(s: seq<NodeHit>): (r: seq<NodeHit>)
    ensures |r| == |s|
  {
    if s == [] then [] else InsertByScore(s[0], SortByScore(s[1..]))
  }

  /** The sorted hits are a permutation of the hits. */
  lemma {:induction false} SortPermutes(s: seq<NodeHit>)
    ensures multiset(SortByScore(s)) == multiset(s)
  {
    if s != [] {
      SortPermutes(s[1..]);
      InsertPermutes(s[0], SortByScore(s[1..]));
      assert s == [s[0]] + s[1..];
    }
  }

  /** The sorted hits run from the highest score down. */
  lemma {:induction false} SortDescending(s: seq<NodeHit>)
    ensures Descending(SortByScore(s))
  {
    if s != [] {
      SortDescending(s[1..]);
      InsertDescending(s[0], SortByScore(s[1..]));
    }
  }

  lemma {:induction false} InsertKeepsOrder(h: NodeHit, sorted: seq<NodeHit>, v: nat)
    ensures WithScore(InsertByScore(h, sorted), v) == (if h.score == v then [h] else []) + WithScore(sorted, v)
  {
    if sorted == [] || sorted[0].score <= h.score {
      assert ([h] + sorted)[1..] == sorted;
    } else {
      InsertKeepsOrder(h, sorted[1..], v);
      assert ([sorted[0]] + InsertByScore(h, sorted[1..]))[1..] == InsertByScore(h, sorted[1..]);
    }
  }

  /** The sort is stable: hits with equal scores keep their registry order. */
  lemma {:induction false} SortIsStable(s: seq<NodeHit>, v: nat)
    ensures WithScore(SortByScore(s), v) == WithScore(s, v)
  {
    if s != [] {
      SortIsStable(s[1..], v);
      InsertKeepsOrder(s[0], SortByScore(s[1..]), v);
    }
  }

  /** One entry of content_matches. */
  datatype ContentMatch = ContentMatch(id: NodeId, path: string, content: string, term: string, context: string)

  /** obj[:100] + "..." for a string longer than 100 characters. */
  function Context(s: string): (c: string)
    ensures |c| <= 103
    ensures |s| <= 100 ==> c == s
    ensures |s| > 100 ==> c == s[..100] + "..."
  {
    if |s| > 100 then s[..100] + "..." else s
  }

  function KeyPath(path: string, key: string): string
  {
    if path != "" then path + "." + key else key
  }

  function ItemPath(path: string, i: nat): string
  {
    path + "[" + NatToString(i) + "]"
  }

  /** What a match promises: a search term occurring in the lower-cased string, with its context. */
  predicate Genuine(m: ContentMatch, id: NodeId, terms: seq<string>)
  {
    m.id == id && m.term in terms && Contains(Lower(m.content), m.term) && m.context == Context(m.content)
  }

  /** The matches of one string: one per term that occurs in it, in term order. */
  function LeafMatches(text: string, path: string, terms: seq<string>, id: NodeId): (r: seq<ContentMatch>)
    ensures forall k :: 0 <= k < |r| ==> Genuine(r[k], id, terms) && r[k].path == path && r[k].content == text
    ensures forall t :: t in terms && Contains(Lower(text), t) ==> ContentMatch(id, path, text, t, Context(text)) in r
  {
    if terms == [] then []
    else
      var t := terms[|terms| - 1];
      var init := LeafMatches(text, path, terms[..|terms| - 1], id);
      var r := init + (if Contains(Lower(text), t) then [ContentMatch(id, path, text, t, Context(text))] else []);
      assert forall k :: 0 <= k < |init| ==> r[k] == init[k];
      assert forall u :: u in terms <==> u in terms[..|terms| - 1] || u == t;
      r
  }

  /** search_recursive: dict values under "path.key", list items under "path[i]", strings matched. */
  function MatchesIn(obj: Json, path: string, terms: seq<string>, id: NodeId): (r: seq<ContentMatch>)
    ensures forall k :: 0 <= k < |r| ==> Genuine(r[k], id, terms)
    decreases obj, 1
  {
    match obj
    case JString(text) => LeafMatches(text, path, terms, id)
    case JList(_) => ItemMatches(obj, 0, path, terms, id)
    case JObject(_) => EntryMatches(obj, 0, path, terms, id)
    case JOther => []
  }

  function ItemMatches(obj: Json, i: nat, path: string, terms: seq<string>, id: NodeId): (r: seq<ContentMatch>)
    requires obj.JList? && i <= |obj.items|
    ensures forall k :: 0 <= k < |r| ==> Genuine(r[k], id, terms)
    decreases obj, 0, |obj.items| - i
  {
    if i == |obj.items| then []
    else
      var first := MatchesIn(obj.items[i], ItemPath(path, i), terms, id);
      var rest := ItemMatches(obj, i + 1, path, terms, id);
      assert forall k :: |first| <= k < |first| + |rest| ==> (first + rest)[k] == rest[k - |first|];
      first + rest
  }

  function EntryMatches(obj: Json, i: nat, path: string, terms: seq<string>, id: NodeId): (r: seq<ContentMatch>)
    requires obj.JObject? && i <= |obj.entries|
    ensures forall k :: 0 <= k < |r| ==> Genuine(r[k], id, terms)
    decreases obj, 0, |obj.entries| - i
  {
    if i == |obj.entries| then []
    else
      var e := obj.entries[i];
      var first := MatchesIn(e.value, KeyPath(path, e.key), terms, id);
      var rest := EntryMatches(obj, i + 1, path, terms, id);
      assert forall k :: |first| <= k < |first| + |rest| ==> (first + rest)[k] == rest[k - |first|];
      first + rest
  }

  /** The matches of a list item are matches of the list. */
  lemma {:induction false} ItemFound(obj: Json, i: nat, j: nat, path: string, terms: seq<string>, id: NodeId, m: ContentMatch)
    requires obj.JList? && i <= j < |obj.items|
    requires m in MatchesIn(obj.items[j], ItemPath(path, j), terms, id)
    ensures m in ItemMatches(obj, i, path, terms, id)
    decreases j - i
  {
    var first := MatchesIn(obj.items[i], ItemPath(path, i), terms, id);
    var rest := ItemMatches(obj, i + 1, path, terms, id);
    assert ItemMatches(obj, i, path, terms, id) == first + rest;
    if i < j {
      ItemFound(obj, i + 1, j, path, terms, id, m);
    }
  }

  /** The matches of a dict value are matches of the dict. */
  lemma {:induction false} EntryFound(obj: Json, i: nat, j: nat, path: string, terms: seq<string>, id: NodeId, m: ContentMatch)
    requires obj.JObject? && i <= j < |obj.entries|
    requires m in MatchesIn(obj.entries[j].value, KeyPath(path, obj.entries[j].key), terms, id)
    ensures m in EntryMatches(obj, i, path, terms, id)
    decreases j - i
  {
    var e := obj.entries[i];
    var first := MatchesIn(e.value, KeyPath(path, e.key), terms, id);
    var rest := EntryMatches(obj, i + 1, path, terms, id);
    assert EntryMatches(obj, i, path, terms, id) == first + rest;
    if i < j {
      EntryFound(obj, i + 1, j, path, terms, id, m);
    }
  }

  /** Every section's matches, in content order. */
  function ContentMatches(content: seq<Section>, terms: seq<string>): seq<ContentMatch>
  {
    if content == [] then []
    else
      var last := content[|content| - 1];
      ContentMatches(content[..|content| - 1], terms) + MatchesIn(last.value, "", terms, last.id)
  }

  /** Every content match is a genuine match within one of the sections. */
  lemma {:induction false} ContentMatchesGenuine(content: seq<Section>, terms: seq<string>)
    ensures forall k :: 0 <= k < |ContentMatches(content, terms)| ==>
      exists j :: 0 <= j < |content| && Genuine(ContentMatches(content, terms)[k], content[j].id, terms)
  {
    if content != [] {
      var init := content[..|content| - 1];
      ContentMatchesGenuine(init, terms);
      var before := ContentMatches(init, terms);
      var more := MatchesIn(content[|content| - 1].value, "", terms, content[|content| - 1].id);
      var r := ContentMatches(content, terms);
      assert r == before + more;
      forall k | 0 <= k < |r|
        ensures exists j :: 0 <= j < |content| && Genuine(r[k], content[j].id, terms)
      {
        if k < |before| {
          var j :| 0 <= j < |init| && Genuine(before[k], init[j].id, terms);
          assert r[k] == before[k] && init[j] == content[j];
        } else {
          assert r[k] == more[k - |before|];
          assert Genuine(r[k], content[|content| - 1].id, terms);
        }
      }
    } else {
      assert ContentMatches(content, terms) == [];
    }
  }

  /** The dict search_content returns; results_by_category is always empty and left out. */
  datatype SearchResults = SearchResults(
    query: string,
    totalResults: nat,
    relevantNodes: seq<NodeHit>,
    contentMatches: seq<ContentMatch>)

  lemma SearchTermsNonEmpty(query: string)
    ensures NonEmptyTerms(SearchTerms(query))
  {
  }

  function SearchOf(reg: Registry, data: Organized, query: string): SearchResults
    requires WellKeyed(reg)
  {
    var terms := SearchTerms(query);
    SearchTermsNonEmpty(query);
    var hits := SortByScore(Hits(reg.order, reg.nodes, terms));
    var matches := ContentMatches(data.content, terms);
    SearchResults(query, |hits| + |matches|, hits, matches)
  }

  /** Sorting neither adds nor drops a hit. */
  lemma SortKeepsHits(s: seq<NodeHit>)
    ensures forall g :: g in SortByScore(s) <==> g in s
  {
    SortPermutes(s);
    var r := SortByScore(s);
    forall g
      ensures g in r <==> g in s
    {
      assert g in r <==> g in multiset(r);
    }
  }

  /** Two sequences with the same members hold the same node ids. */
  lemma SameIds(a: seq<NodeHit>, b: seq<NodeHit>, x: NodeId)
    requires forall g :: g in a <==> g in b
    ensures (exists i :: 0 <= i < |a| && a[i].id == x) <==> (exists k :: 0 <= k < |b| && b[k].id == x)
  {
    if exists i :: 0 <= i < |a| && a[i].id == x {
      var i :| 0 <= i < |a| && a[i].id == x;
      assert a[i] in b;
    }
    if exists k :: 0 <= k < |b| && b[k].id == x {
      var k :| 0 <= k < |b| && b[k].id == x;
      assert b[k] in a;
    }
  }

  /** The ranked hits are exactly the nodes whose text holds a term, highest score first. */
  lemma RankedHits(ids: seq<NodeId>, nodes: map<NodeId, Node>, terms: seq<string>, x: NodeId)
    requires forall id :: id in ids ==> id in nodes
    requires NonEmptyTerms(terms)
    ensures var r := SortByScore(Hits(ids, nodes, terms));
      && Descending(r)
      && ((exists i :: 0 <= i < |r| && r[i].id == x) <==> x in ids && exists t :: t in terms && Contains(NodeText(nodes[x]), t))
  {
    var hits := Hits(ids, nodes, terms);
    if x in ids && Score(NodeText(nodes[x]), terms) > 0 {
      HitsComplete(ids, nodes, terms, x);
    }
    SortDescending(hits);
    SortKeepsHits(hits);
    SameIds(SortByScore(hits), hits, x);
    if x in nodes {
      ScorePositive(NodeText(nodes[x]), terms);
    }
  }

  /**
   * A search ranks exactly the registered nodes whose text holds a term,
   * highest score first, and counts them together with the content
   * matches; SortIsStable gives the order among equal scores.
   */
  lemma SearchRanks(reg: Registry, data: Organized, query: string, x: NodeId)
    requires WellKeyed(reg)
    ensures var r := SearchOf(reg, data, query);
      && Descending(r.relevantNodes)
      && r.totalResults == |r.relevantNodes| + |r.contentMatches|
      && ((exists k :: 0 <= k < |r.relevantNodes| && r.relevantNodes[k].id == x) <==>
          x in reg.nodes && exists t :: t in SearchTerms(query) && Contains(NodeText(reg.nodes[x]), t))
  {
    SearchTermsNonEmpty(query);
    RankedHits(reg.order, reg.nodes, SearchTerms(query), x);
  }
}
