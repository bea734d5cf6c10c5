/**
 * The HierarchicalNavigationSystem object of
 * hierarchical_navigation_system.py.  The constructor fills the registry
 * and the tree in place and then builds the search indices; the other
 * methods read that state.  Each method is proved against the
 * specification functions of module Navigation.
 *
 * navigation_tree maps each root id to the same node object the registry
 * holds; the model keeps the root ids and reads the node from the
 * registry, which is what that aliasing amounts to.
 */
module NavigationSystem {
  import opened Common
  import opened NavigationLayout
  import opened Navigation

  /** The inner loop of _build_search_indices for one node and one index. */
  method AppendPostings(index: Index, keys: seq<string>, id: NodeId) returns (r: Index)
    ensures r == AddPostings(index, keys, id)
  {
    r := index;
    var j := 0;
    while j < |keys|
      invariant 0 <= j <= |keys|
      invariant r == AddPostings(index, keys[..j], id)
    {
      var key := keys[j];
      if key !in r {
        r := r[key := []];
      }
      r := r[key := r[key] + [id]];
      assert keys[..j + 1][..j] == keys[..j];
      j := j + 1;
    }
    assert keys[..j] == keys;
  }

  class HierarchicalNavigationSystem {
    /** node_registry */
    var registry: Registry
    /** The keys of navigation_tree: the root ids, in registration order. */
    var tree: seq<NodeId>
    /** text_index, tag_index and audience_index */
    var indices: Indices

    /** The state after construction, which no method changes. */
    ghost predicate Valid()
      reads this
    {
      && registry == Initial(StandardRoots, StandardChildren)
      && tree == Ids(StandardRoots)
      && Sound(registry) && Exact(registry)
      && indices == IndicesOf(registry)
    }

    /** __init__ and _initialize_navigation_structure: register the roots, then the children, then index. */
    constructor ()
      ensures Valid()
    {
      registry := EmptyRegistry;
      tree := [];
      indices := Indices(map[], map[], map[]);
      new;
      RegisterRootNodes(StandardRoots);
      RegisterChildNodes(StandardChildren);
      StandardLayered();
      InitialSound(StandardRoots, StandardChildren);
      BuildSearchIndices();
    }

    /** The loop over root_nodes: each root stored in the registry and in the tree. */
    method RegisterRootNodes(roots: seq<Node>)
      requires registry == EmptyRegistry && tree == []
      modifies this
      ensures registry == RegisterRoots(roots) && tree == Ids(roots)
    {
      var i := 0;
      while i < |roots|
        invariant 0 <= i <= |roots|
        invariant registry == RegisterRoots(roots[..i])
        invariant tree == Ids(roots[..i])
      {
        var n := roots[i];
        registry := Put(registry, n);
        tree := tree + [n.id];
        assert roots[..i + 1][..i] == roots[..i];
        i := i + 1;
      }
      assert roots[..i] == roots;
    }

    /** The loop over all_children: store each child, then list it under its registered parent. */
    method RegisterChildNodes(children: seq<Node>)
      modifies this
      ensures registry == RegisterChildren(old(registry), children) && tree == old(tree)
    {
      var i := 0;
      while i < |children|
        invariant 0 <= i <= |children|
        invariant registry == RegisterChildren(old(registry), children[..i]) && tree == old(tree)
      {
        var child := children[i];
        registry := Put(registry, child);
        if child.parentId.Some? && child.parentId.value in registry.nodes {
          var p := child.parentId.value;
          var parent := registry.nodes[p];
          registry := registry.(nodes := registry.nodes[p := parent.(children := parent.children + [child.id])]);
        }
        assert children[..i + 1][..i] == children[..i];
        i := i + 1;
      }
      assert children[..i] == children;
    }

    /** _generate_navigation_structure */
    method GenerateNavigationStructure() returns (nav: NavigationView)
      requires Valid()
      ensures nav == NavigationOf(registry)
    {
      nav := NavigationFor(registry);
    }

    /** _find_relevant_nodes, over the indices built at construction. */
    method FindRelevantNodes(c: FilterCriteria) returns (r: set<NodeId>)
      requires Valid()
      ensures r == Relevant(registry, indices, c)
    {
      IndexedRegistered(registry);
      r := RelevantFor(registry, indices, c);
    }

    /** filter_content: the relevant nodes, then the navigation and content cut down to them. */
    method FilterContent(data: Organized, c: FilterCriteria) returns (f: Filtered)
      requires Valid()
      ensures Sound(registry) && forall x :: x in Relevant(registry, indices, c) ==> x in registry.nodes
      ensures f == FilteredOf(registry, data, Relevant(registry, indices, c), c)
    {
      var relevant := FindRelevantNodes(c);
      f := FilteredFor(registry, data, relevant, c);
    }

    /** search_content */
    method SearchContent(data: Organized, query: string) returns (res: SearchResults)
      requires Valid()
      ensures res == SearchOf(registry, data, query)
    {
      res := SearchFor(registry, data, query);
    }

    /** _build_search_indices: the three indices rebuilt from the registry, nothing else changed. */
    method BuildSearchIndices()
      requires WellKeyed(registry)
      modifies this
      ensures registry == old(registry) && tree == old(tree)
      ensures indices == IndicesOf(registry)
    {
      indices := IndicesFor(registry);
    }
  }

  /** _build_breadcrumbs: walk up through registered parents, putting each crumb in front. */
  method BreadcrumbsFor(reg: Registry, id: NodeId) returns (r: seq<Crumb>)
    requires Sound(reg) && id in reg.nodes
    ensures r == Trail(reg, id)
  {
    var cur := id;
    r := [];
    while true
      invariant cur in reg.nodes && Trail(reg, cur) + r == Trail(reg, id)
      decreases reg.nodes[cur].level
    {
      var n := reg.nodes[cur];
      var crumb := Crumb(n.id, n.level);
      if n.parentId.Some? && n.parentId.value in reg.nodes {
        var up := Trail(reg, n.parentId.value);
        assert Trail(reg, cur) == up + [crumb];
        assert up + ([crumb] + r) == up + [crumb] + r;
        r := [crumb] + r;
        cur := n.parentId.value;
      } else {
        assert Trail(reg, cur) == [crumb];
        r := [crumb] + r;
        return;
      }
    }
  }

  /** _build_tree_branch: the node, then the branch of each child in turn. */
  method BranchFor(reg: Registry, id: NodeId) returns (b: Branch)
    requires Sound(reg) && id in reg.nodes
    ensures b == TreeBranch(reg, id)
    decreases |Above(reg, reg.nodes[id].level)|
  {
    var n := reg.nodes[id];
    var children: seq<Branch> := [];
    var k := 0;
    while k < |n.children|
      invariant 0 <= k <= |n.children|
      invariant |children| == k
      invariant forall j :: 0 <= j < k ==> n.children[j] in reg.nodes && children[j] == TreeBranch(reg, n.children[j])
    {
      ChildRanked(reg, id, n.children[k]);
      var child := BranchFor(reg, n.children[k]);
      children := children + [child];
      k := k + 1;
    }
    b := Branch(n.id, n.level, children);
  }

  /** The first loop of _generate_navigation_structure: every node's entry and, for a root, its branch. */
  method NodesFor(reg: Registry) returns (nodes: map<NodeId, Node>, tree: map<NodeId, Branch>)
    requires Sound(reg)
    ensures nodes == reg.nodes
    ensures tree == TreeOf(reg)
  {
    nodes := map[];
    tree := map[];
    var i := 0;
    while i < |reg.order|
      invariant 0 <= i <= |reg.order|
      invariant forall x :: x in nodes <==> x in reg.order[..i]
      invariant forall x :: x in nodes ==> x in reg.nodes && nodes[x] == reg.nodes[x]
      invariant forall x :: x in tree <==> x in nodes && reg.nodes[x].level == 0
      invariant forall x :: x in tree ==> x in TreeOf(reg) && tree[x] == TreeOf(reg)[x]
    {
      var id := reg.order[i];
      assert reg.order[..i + 1] == reg.order[..i] + [id];
      nodes := nodes[id := reg.nodes[id]];
      if reg.nodes[id].level == 0 {
        var branch := BranchFor(reg, id);
        tree := tree[id := branch];
      }
      i := i + 1;
    }
    assert reg.order[..i] == reg.order;
  }

  /** The second loop of _generate_navigation_structure: every node's breadcrumbs. */
  method CrumbsFor(reg: Registry) returns (breadcrumbs: map<NodeId, seq<Crumb>>)
    requires Sound(reg)
    ensures breadcrumbs == CrumbsOf(reg)
  {
    breadcrumbs := map[];
    var i := 0;
    while i < |reg.order|
      invariant 0 <= i <= |reg.order|
      invariant forall x :: x in breadcrumbs <==> x in reg.order[..i]
      invariant forall x :: x in breadcrumbs ==> x in CrumbsOf(reg) && breadcrumbs[x] == CrumbsOf(reg)[x]
    {
      var id := reg.order[i];
      assert reg.order[..i + 1] == reg.order[..i] + [id];
      var trail := BreadcrumbsFor(reg, id);
      breadcrumbs := breadcrumbs[id := trail];
      i := i + 1;
    }
    assert reg.order[..i] == reg.order;
  }

  /** _generate_navigation_structure; quick_access is a comprehension over the registry. */
  method NavigationFor(reg: Registry) returns (nav: NavigationView)
    requires Sound(reg)
    ensures nav == NavigationOf(reg)
  {
    var nodes, tree := NodesFor(reg);
    var breadcrumbs := CrumbsFor(reg);
    nav := NavigationView(tree, nodes, breadcrumbs, QuickAccess(reg.order, reg.nodes));
  }

  /** The audience index holds registered nodes only. */
  ghost predicate AudienceRegistered(reg: Registry, ix: Indices)
  {
    forall key, x :: x in Lookup(ix.audience, key) ==> x in reg.nodes
  }

  /** The priority loop of _find_relevant_nodes, over a set in no particular order. */
  method PriorityFilter(reg: Registry, base: set<NodeId>, levels: seq<int>) returns (kept: set<NodeId>)
    requires forall x :: x in base ==> x in reg.nodes
    ensures kept == ByPriority(reg, base, levels)
  {
    kept := {};
    var rest := base;
    while rest != {}
      invariant rest <= base
      invariant forall x :: x in kept <==> x in base && x !in rest && reg.nodes[x].priority in levels
      decreases |rest|
    {
      var x :| x in rest;
      if reg.nodes[x].priority in levels {
        kept := kept + {x};
      }
      rest := rest - {x};
    }
  }

  /** The tag and text loops of _find_relevant_nodes: the union of the index lists of the known keys. */
  method UnionFor(index: Index, keys: seq<string>) returns (r: set<NodeId>)
    ensures r == UnionOf(index, keys)
  {
    r := {};
    var j := 0;
    while j < |keys|
      invariant 0 <= j <= |keys|
      invariant r == UnionOf(index, keys[..j])
    {
      if keys[j] in index {
        r := r + SetOf(index[keys[j]]);
      }
      assert keys[..j + 1][..j] == keys[..j];
      j := j + 1;
    }
    assert keys[..j] == keys;
  }

  /** _find_relevant_nodes: audience, then priority, then tags, then free text. */
  method RelevantFor(reg: Registry, ix: Indices, c: FilterCriteria) returns (r: set<NodeId>)
    requires AudienceRegistered(reg, ix)
    ensures r == Relevant(reg, ix, c)
  {
    if Given(c.audience) {
      r := if c.audience.value in ix.audience then SetOf(ix.audience[c.audience.value]) else {};
    } else {
      r := reg.nodes.Keys;
    }
    assert r == AudienceBase(reg, ix, c);
    r := PriorityFilter(reg, r, c.priorityLevels);
    if c.tags != [] {
      var tagged := UnionFor(ix.tags, c.tags);
      r := r * tagged;
    }
    assert r == BeforeText(reg, ix, c);
    if Given(c.textSearch) {
      var terms := SearchTerms(c.textSearch.value);
      var hits := UnionFor(ix.text, terms);
      if hits != {} {
        r := r * hits;
      }
    }
  }

  /** _build_filtered_tree_branch: None off the relevant set, else the node and its relevant children's branches. */
  method FilteredBranchFor(reg: Registry, id: NodeId, relevant: set<NodeId>) returns (b: Option<Branch>)
    requires Sound(reg) && id in reg.nodes
    ensures b == FilteredBranch(reg, id, relevant)
    decreases |Above(reg, reg.nodes[id].level)|
  {
    if id !in relevant {
      return None;
    }
    var n := reg.nodes[id];
    var children: seq<Branch> := [];
    var k := 0;
    while k < |n.children|
      invariant 0 <= k <= |n.children|
      invariant var kept := Kept(n.children[..k], relevant);
        |children| == |kept| && forall j :: 0 <= j < |kept| ==> kept[j] in reg.nodes && children[j] == RelevantBranch(reg, kept[j], relevant)
    {
      var child := n.children[k];
      assert n.children[..k + 1][..k] == n.children[..k];
      if child in relevant {
        ChildRanked(reg, id, child);
        var branch := FilteredBranchFor(reg, child, relevant);
        children := children + [branch.value];
      }
      k := k + 1;
    }
    assert n.children[..k] == n.children;
    assert RelevantBranch(reg, id, relevant).children == children;
    b := Some(Branch(n.id, n.level, children));
  }

  /** The first three loops of _filter_navigation: node entries, tree and breadcrumbs of the relevant nodes. */
  method FilterNavigationFor(reg: Registry, nav: NavigationView, relevant: set<NodeId>) returns (f: NavigationView)
    requires Sound(reg) && forall x :: x in relevant ==> x in reg.nodes
    ensures f == FilterNavigation(reg, nav, relevant)
  {
    var nodes := RestrictFor(nav.nodes, relevant);
    var tree := FilteredTreeFor(reg, nodes, relevant);
    var breadcrumbs := RestrictFor(nav.breadcrumbs, relevant);
    f := NavigationView(tree, nodes, breadcrumbs, Kept(nav.quickAccess, relevant));
  }

  /** `for node_id in relevant_node_ids: if node_id in d: out[node_id] = d[node_id]` */
  method RestrictFor<V>(m: map<NodeId, V>, relevant: set<NodeId>) returns (r: map<NodeId, V>)
    ensures r == Restrict(m, relevant)
  {
    r := map[];
    var rest := relevant;
    while rest != {}
      invariant rest <= relevant
      invariant forall x :: x in r <==> x in relevant && x !in rest && x in m
      invariant forall x :: x in r ==> r[x] == m[x]
      decreases |rest|
    {
      var x :| x in rest;
      if x in m {
        r := r[x := m[x]];
      }
      rest := rest - {x};
    }
  }

  /** The tree loop of _filter_navigation, over the kept node entries. */
  method FilteredTreeFor(reg: Registry, nodes: map<NodeId, Node>, relevant: set<NodeId>) returns (tree: map<NodeId, Branch>)
    requires Sound(reg) && forall x :: x in relevant ==> x in reg.nodes
    requires forall x :: x in nodes ==> x in relevant
    ensures tree == FilteredTree(reg, nodes, relevant)
  {
    tree := map[];
    var rest := nodes.Keys;
    while rest != {}
      invariant rest <= nodes.Keys
      invariant forall x :: x in tree <==> x in nodes && x !in rest && nodes[x].level == 0
      invariant forall x :: x in tree ==> tree[x] == RelevantBranch(reg, x, relevant)
      decreases |rest|
    {
      var x :| x in rest;
      if nodes[x].level == 0 {
        var branch := FilteredBranchFor(reg, x, relevant);
        tree := tree[x := branch.value];
      }
      rest := rest - {x};
    }
  }

  /** filter_content: the filtered navigation and the content of the relevant nodes. */
  method FilteredFor(reg: Registry, data: Organized, relevant: set<NodeId>, c: FilterCriteria) returns (f: Filtered)
    requires Sound(reg) && forall x :: x in relevant ==> x in reg.nodes
    ensures f == FilteredOf(reg, data, relevant, c)
  {
    var navigation := FilterNavigationFor(reg, data.navigation, relevant);
    var content := RestrictFor(ContentOf(data.content), relevant);
    f := Filtered(navigation, content, c);
  }

  /** The match_score loop of search_content for one node's text. */
  method ScoreFor(text: string, terms: seq<string>) returns (score: nat)
    requires NonEmptyTerms(terms)
    ensures score == Score(text, terms)
  {
    score := 0;
    var j := 0;
    while j < |terms|
      invariant 0 <= j <= |terms|
      invariant NonEmptyTerms(terms[..j]) && score == Score(text, terms[..j])
    {
      var term := terms[j];
      if Contains(text, term) {
        score := score + CountIn(text, term);
      }
      assert terms[..j + 1][..j] == terms[..j];
      j := j + 1;
    }
    assert terms[..j] == terms;
  }

  /** The node loop of search_content: the nodes that score, in registry order. */
  method HitsFor(reg: Registry, terms: seq<string>) returns (hits: seq<NodeHit>)
    requires forall id :: id in reg.order ==> id in reg.nodes
    requires NonEmptyTerms(terms)
    ensures hits == Hits(reg.order, reg.nodes, terms)
  {
    hits := [];
    var i := 0;
    PrefixRegistered(reg, 0);
    while i < |reg.order|
      invariant 0 <= i <= |reg.order|
      invariant forall x :: x in reg.order[..i] ==> x in reg.nodes
      invariant hits == Hits(reg.order[..i], reg.nodes, terms)
    {
      var id := reg.order[i];
      var node := reg.nodes[id];
      PrefixRegistered(reg, i + 1);
      assert reg.order[..i + 1][..i] == reg.order[..i];
      var score := ScoreFor(NodeText(node), terms);
      if score > 0 {
        hits := hits + [NodeHit(id, score, node.audience)];
      }
      i := i + 1;
    }
    assert reg.order[..i] == reg.order;
  }

  /** The string case of search_recursive: one match per term found in the lower-cased string. */
  method LeafFor(text: string, path: string, terms: seq<string>, id: NodeId) returns (r: seq<ContentMatch>)
    ensures r == LeafMatches(text, path, terms, id)
  {
    r := [];
    var lower := Lower(text);
    var j := 0;
    while j < |terms|
      invariant 0 <= j <= |terms|
      invariant r == LeafMatches(text, path, terms[..j], id)
    {
      if Contains(lower, terms[j]) {
        r := r + [ContentMatch(id, path, text, terms[j], Context(text))];
      }
      assert terms[..j + 1][..j] == terms[..j];
      j := j + 1;
    }
    assert terms[..j] == terms;
  }

  /** search_recursive: dict values and list items in order, strings matched, anything else skipped. */
  method MatchesFor(obj: Json, path: string, terms: seq<string>, id: NodeId) returns (r: seq<ContentMatch>)
    ensures r == MatchesIn(obj, path, terms, id)
    decreases obj, 1
  {
    match obj
    case JString(text) => r := LeafFor(text, path, terms, id);
    case JList(_) => r := ItemsFor(obj, path, terms, id);
    case JObject(_) => r := EntriesFor(obj, path, terms, id);
    case JOther => r := [];
  }

  /** The list case of search_recursive: each item under "path[i]". */
  method ItemsFor(obj: Json, path: string, terms: seq<string>, id: NodeId) returns (r: seq<ContentMatch>)
    requires obj.JList?
    ensures r == ItemMatches(obj, 0, path, terms, id)
    decreases obj, 0
  {
    r := [];
    var i := 0;
    while i < |obj.items|
      invariant 0 <= i <= |obj.items|
      invariant r + ItemMatches(obj, i, path, terms, id) == ItemMatches(obj, 0, path, terms, id)
    {
      var found := MatchesFor(obj.items[i], ItemPath(path, i), terms, id);
      var rest := ItemMatches(obj, i + 1, path, terms, id);
      assert ItemMatches(obj, i, path, terms, id) == found + rest;
      assert r + (found + rest) == (r + found) + rest;
      r := r + found;
      i := i + 1;
    }
  }

  /** The dict case of search_recursive: each value under "path.key", or "key" at the top. */
  method EntriesFor(obj: Json, path: string, terms: seq<string>, id: NodeId) returns (r: seq<ContentMatch>)
    requires obj.JObject?
    ensures r == EntryMatches(obj, 0, path, terms, id)
    decreases obj, 0
  {
    r := [];
    var i := 0;
    while i < |obj.entries|
      invariant 0 <= i <= |obj.entries|
      invariant r + EntryMatches(obj, i, path, terms, id) == EntryMatches(obj, 0, path, terms, id)
    {
      var e := obj.entries[i];
      var found := MatchesFor(e.value, KeyPath(path, e.key), terms, id);
      var rest := EntryMatches(obj, i + 1, path, terms, id);
      assert EntryMatches(obj, i, path, terms, id) == found + rest;
      assert r + (found + rest) == (r + found) + rest;
      r := r + found;
      i := i + 1;
    }
  }

  /** The content loop of search_content: every section's matches, in content order. */
  method ContentMatchesFor(content: seq<Section>, terms: seq<string>) returns (r: seq<ContentMatch>)
    ensures r == ContentMatches(content, terms)
  {
    r := [];
    var i := 0;
    while i < |content|
      invariant 0 <= i <= |content|
      invariant r == ContentMatches(content[..i], terms)
    {
      var found := MatchesFor(content[i].value, "", terms, content[i].id);
      assert content[..i + 1][..i] == content[..i];
      r := r + found;
      i := i + 1;
    }
    assert content[..i] == content;
  }

  /** search_content: score the nodes, collect the content matches, rank the nodes by score. */
  method SearchFor(reg: Registry, data: Organized, query: string) returns (res: SearchResults)
    requires WellKeyed(reg)
    ensures res == SearchOf(reg, data, query)
  {
    var terms := SearchTerms(query);
    SearchTermsNonEmpty(query);
    var hits := HitsFor(reg, terms);
    var matches := ContentMatchesFor(data.content, terms);
    hits := SortByScore(hits);
    res := SearchResults(query, |hits| + |matches|, hits, matches);
  }

  /** The search indices hold registered nodes only. */
  lemma IndexedRegistered(reg: Registry)
    requires WellKeyed(reg)
    ensures AudienceRegistered(reg, IndicesOf(reg))
  {
    forall key, x | x in Lookup(IndicesOf(reg).audience, key)
      ensures x in reg.nodes
    {
      IndexMembership(reg.order, reg.nodes, AudienceKeys, key, x);
    }
  }

  /** The loop of _build_search_indices over the registry, in registration order. */
  method IndicesFor(reg: Registry) returns (ix: Indices)
    requires forall id :: id in reg.order ==> id in reg.nodes
    ensures ix == Indices(IndexOf(reg.order, reg.nodes, TextKeys), IndexOf(reg.order, reg.nodes, TagKeys),
                          IndexOf(reg.order, reg.nodes, AudienceKeys))
  {
    var text: Index := map[];
    var tags: Index := map[];
    var audience: Index := map[];
    var i := 0;
    PrefixRegistered(reg, 0);
    while i < |reg.order|
      invariant 0 <= i <= |reg.order|
      invariant forall x :: x in reg.order[..i] ==> x in reg.nodes
      invariant text == IndexOf(reg.order[..i], reg.nodes, TextKeys)
      invariant tags == IndexOf(reg.order[..i], reg.nodes, TagKeys)
      invariant audience == IndexOf(reg.order[..i], reg.nodes, AudienceKeys)
    {
      var id := reg.order[i];
      PrefixStep(reg, i);
      text, tags, audience := IndexNode(text, tags, audience, id, reg.nodes[id]);
      i := i + 1;
    }
    assert reg.order[..i] == reg.order;
    ix := Indices(text, tags, audience);
  }

  /** Indexing the prefix of i + 1 nodes adds the postings of node i to each index of the first i. */
  lemma PrefixStep(reg: Registry, i: nat)
    requires i < |reg.order| && forall id :: id in reg.order ==> id in reg.nodes
    ensures forall x :: x in reg.order[..i + 1] ==> x in reg.nodes
    ensures forall kind ::
      IndexOf(reg.order[..i + 1], reg.nodes, kind) ==
        AddPostings(IndexOf(reg.order[..i], reg.nodes, kind), KeysOf(kind, reg.nodes[reg.order[i]]), reg.order[i])
  {
    var ids := reg.order[..i + 1];
    assert ids[..i] == reg.order[..i] && ids[i] == reg.order[i];
    PrefixRegistered(reg, i + 1);
    forall kind
      ensures IndexOf(ids, reg.nodes, kind) ==
        AddPostings(IndexOf(reg.order[..i], reg.nodes, kind), KeysOf(kind, reg.nodes[reg.order[i]]), reg.order[i])
    {
      IndexStep(ids, reg.nodes, kind);
    }
  }

  lemma PrefixRegistered(reg: Registry, n: nat)
    requires n <= |reg.order| && forall id :: id in reg.order ==> id in reg.nodes
    ensures forall x :: x in reg.order[..n] ==> x in reg.nodes
  {
    forall x | x in reg.order[..n]
      ensures x in reg.nodes
    {
      var k :| 0 <= k < n && reg.order[..n][k] == x;
      assert reg.order[k] == x;
    }
  }

  /** One more registered node extends an index by its postings. */
  lemma IndexStep(ids: seq<NodeId>, nodes: map<NodeId, Node>, kind: IndexKind)
    requires ids != [] && forall id :: id in ids ==> id in nodes
    ensures IndexOf(ids, nodes, kind) ==
      AddPostings(IndexOf(ids[..|ids| - 1], nodes, kind), KeysOf(kind, nodes[ids[|ids| - 1]]), ids[|ids| - 1])
  {
  }

  /** The body of the loop of _build_search_indices: one node's words, tags and audiences. */
  method IndexNode(text: Index, tags: Index, audience: Index, id: NodeId, node: Node) returns (text': Index, tags': Index, audience': Index)
    ensures text' == AddPostings(text, KeysOf(TextKeys, node), id)
    ensures tags' == AddPostings(tags, KeysOf(TagKeys, node), id)
    ensures audience' == AddPostings(audience, KeysOf(AudienceKeys, node), id)
  {
    var words := Runs(NodeText(node), WordChars);
    text' := AppendPostings(text, words, id);
    tags' := AppendPostings(tags, node.tags, id);
    audience' := AppendPostings(audience, node.audience, id);
  }
}
