/**
  The shipped dependency graph (`gen-third-party.py`): a worklist walk from the shipped crate
  through every edge that is not only a dev dependency, and the check that the license file lists
  what every release target links.
 */
module Dependencies {

  type Id = string

  datatype Kind = Normal | Build | Dev

  datatype Dep = Dep(pkg: Id, kinds: set<Kind>)

  /** `resolve.nodes` by id; an id may have no node. */
  type Graph = map<Id, seq<Dep>>

  predicate DevOnly(d: Dep) {
    d.kinds != {} && d.kinds <= {Dev}
  }

  function DepsOf(g: Graph, id: Id): seq<Dep> {
    if id in g then g[id] else []
  }

  // ---------------------------------------------------------------- what ships

  /** The edge ships: it names no kind, or a normal or build one, whatever else it is. */
  ghost predicate Ships(d: Dep) {
    d.kinds == {} || Normal in d.kinds || Build in d.kinds
  }

  /** The target of an edge that ships. */
  ghost predicate Edge(g: Graph, a: Id, b: Id) {
    exists d :: d in DepsOf(g, a) && d.pkg == b && Ships(d)
  }

  /** Each id is joined to the next by a shipping edge. */
  ghost predicate Path(g: Graph, p: seq<Id>) {
    p != [] && forall i :: 0 <= i < |p| - 1 ==> Edge(g, p[i], p[i + 1])
  }

  ghost predicate Reaches(g: Graph, root: Id, id: Id) {
    exists p :: Path(g, p) && p[0] == root && p[|p| - 1] == id
  }

  lemma {:induction false} ReachesItself(g: Graph, root: Id)
    ensures Reaches(g, root, root)
  {
    assert Path(g, [root]) && [root][0] == root;
  }

  lemma {:induction false} ReachesNext(g: Graph, root: Id, a: Id, b: Id)
    requires Reaches(g, root, a) && Edge(g, a, b)
    ensures Reaches(g, root, b)
  {
    var p :| Path(g, p) && p[0] == root && p[|p| - 1] == a;
    assert Path(g, p + [b]) && (p + [b])[0] == root;
  }

  /** What the walk skips is what does not ship. */
  lemma {:induction false} DevOnlyExactly(d: Dep)
    ensures DevOnly(d) <==> !Ships(d)
  {
    if !Ships(d) {
      forall k | k in d.kinds
        ensures k == Dev
      {
        match k
        case Normal =>
        case Build =>
        case Dev =>
      }
    }
  }

  // ---------------------------------------------------------------- the walk

  /** The targets of the shipping edges among `deps`, in order. */
  function Shipping(deps: seq<Dep>): seq<Id> {
    if deps == [] then []
    else
      var rest := Shipping(deps[..|deps| - 1]);
      if DevOnly(deps[|deps| - 1]) then rest else rest + [deps[|deps| - 1].pkg]
  }

  lemma {:induction false} ShippingExactly(deps: seq<Dep>, b: Id)
    ensures b in Shipping(deps) <==> exists d :: d in deps && d.pkg == b && Ships(d)
    decreases |deps|
  {
    if deps != [] {
      var last, init := deps[|deps| - 1], deps[..|deps| - 1];
      ShippingExactly(init, b);
      DevOnlyExactly(last);
      assert deps == init + [last];
    }
  }

  /** Every id the walk can come upon. */
  ghost function Known(g: Graph, root: Id): set<Id> {
    {root} + set id, d | id in g && d in g[id] :: d.pkg
  }

  lemma {:induction false} EdgesLeadToKnown(g: Graph, root: Id)
    ensures root in Known(g, root) && EndsIn(g, Known(g, root))
  {
  }

  ghost predicate EndsIn(g: Graph, known: set<Id>) {
    forall a, b :: Edge(g, a, b) ==> b in known
  }

  ghost predicate All(ids: seq<Id>, g: Graph, root: Id, known: set<Id>) {
    forall i :: 0 <= i < |ids| ==> ids[i] in known && Reaches(g, root, ids[i])
  }

  /** Whatever ships from what was seen was seen or is still to be. */
  ghost predicate Pending(g: Graph, seen: set<Id>, stack: seq<Id>) {
    forall a, b :: a in seen && Edge(g, a, b) ==> b in seen || b in stack
  }

  /** The dependencies of `current` join the stack. */
  lemma {:induction false} Expanded(g: Graph, root: Id, known: set<Id>, seen: set<Id>, stack: seq<Id>, current: Id)
    requires EndsIn(g, known) && All(stack + [current], g, root, known) && Pending(g, seen, stack + [current])
    ensures var more := Shipping(DepsOf(g, current));
            All(stack + more, g, root, known) && Pending(g, seen + {current}, stack + more)
  {
    var more := Shipping(DepsOf(g, current));
    assert (stack + [current])[|stack|] == current;
    forall b
      ensures b in more <==> Edge(g, current, b)
    {
      ShippingExactly(DepsOf(g, current), b);
    }
    forall i | 0 <= i < |stack + more|
      ensures (stack + more)[i] in known && Reaches(g, root, (stack + more)[i])
    {
      var id := (stack + more)[i];
      if i < |stack| {
        assert (stack + [current])[i] == id;
      } else {
        assert id in more;
        ReachesNext(g, root, current, id);
      }
    }
  }

  /** What the walk keeps. */
  ghost predicate Walked(g: Graph, root: Id, known: set<Id>, seen: set<Id>, stack: seq<Id>) {
    && (root in seen || root in stack)
    && (forall id :: id in seen ==> Reaches(g, root, id))
    && All(stack, g, root, known) && Pending(g, seen, stack)
  }

  lemma {:induction false} WalksOn(g: Graph, root: Id, known: set<Id>, seen: set<Id>, stack: seq<Id>, current: Id)
    requires EndsIn(g, known) && Walked(g, root, known, seen, stack + [current])
    ensures current in known && Walked(g, root, known, seen + {current}, stack + Shipping(DepsOf(g, current)))
  {
    assert (stack + [current])[|stack|] == current;
    Expanded(g, root, known, seen, stack, current);
  }

  lemma {:induction false} SeenOnce(g: Graph, root: Id, known: set<Id>, seen: set<Id>, stack: seq<Id>, current: Id)
    requires current in seen && Walked(g, root, known, seen, stack + [current])
    ensures Walked(g, root, known, seen, stack)
  {
    forall i | 0 <= i < |stack|
      ensures stack[i] in known && Reaches(g, root, stack[i])
    {
      assert (stack + [current])[i] == stack[i];
    }
  }

  lemma {:induction false} ClosedReachesAll(g: Graph, seen: set<Id>, p: seq<Id>)
    requires Pending(g, seen, []) && Path(g, p) && p[0] in seen
    ensures p[|p| - 1] in seen
    decreases |p|
  {
    if |p| > 1 {
      var init := p[..|p| - 1];
      assert Path(g, init);
      ClosedReachesAll(g, seen, init);
      assert Edge(g, p[|p| - 2], p[|p| - 1]);
    }
  }

  lemma {:induction false} AllReached(g: Graph, root: Id, seen: set<Id>)
    requires Pending(g, seen, []) && root in seen
    ensures forall id :: Reaches(g, root, id) ==> id in seen
  {
    forall id | Reaches(g, root, id)
      ensures id in seen
    {
      var p :| Path(g, p) && p[0] == root && p[|p| - 1] == id;
      ClosedReachesAll(g, seen, p);
    }
  }

  lemma {:induction false} Grows(seen: set<Id>, known: set<Id>, current: Id)
    requires current in known && current !in seen
    ensures |known - (seen + {current})| < |known - seen|
  {
    assert known - seen == (known - (seen + {current})) + {current};
  }

  /** Ends on every graph, with exactly the ids that have a path of shipping edges from the root. */
  method ReachableIds(g: Graph, root: Id) returns (seen: set<Id>)
    ensures forall id :: id in seen <==> Reaches(g, root, id)
  {
    seen := {};
    var stack := [root];
    ghost var known := Known(g, root);
    EdgesLeadToKnown(g, root);
    ReachesItself(g, root);
    while stack != []
      invariant Walked(g, root, known, seen, stack)
      decreases |known - seen|, |stack|
    {
      var current := stack[|stack| - 1];
      ghost var was := stack;
      stack := stack[..|stack| - 1];
      assert was == stack + [current];
      if current in seen {
        SeenOnce(g, root, known, seen, stack, current);
        continue;
      }
      WalksOn(g, root, known, seen, stack, current);
      Grows(seen, known, current);
      seen := seen + {current};
      stack := PushShipping(stack, DepsOf(g, current));
    }
    AllReached(g, root, seen);
  }

  method PushShipping(stack: seq<Id>, deps: seq<Dep>) returns (out: seq<Id>)
    ensures out == stack + Shipping(deps)
  {
    out := stack;
    for i := 0 to |deps|
      invariant out == stack + Shipping(deps[..i])
    {
      assert deps[..i + 1][..i] == deps[..i];
      if DevOnly(deps[i]) {
        continue;
      }
      out := out + [deps[i].pkg];
    }
    assert deps[..|deps|] == deps;
  }

  // ---------------------------------------------------------------- dev dependencies

  /** The two have the same shipping edges. */
  ghost predicate SameShipping(g: Graph, h: Graph) {
    forall a, b :: Edge(g, a, b) <==> Edge(h, a, b)
  }

  /** Adding or removing dev-only edges, or nodes with no others, changes nothing. */
  lemma {:induction false} DevEdgesNeverShip(g: Graph, h: Graph, root: Id, id: Id)
    requires SameShipping(g, h)
    ensures Reaches(g, root, id) <==> Reaches(h, root, id)
  {
    if p :| Path(g, p) && p[0] == root && p[|p| - 1] == id {
      assert Path(h, p);
    }
    if p :| Path(h, p) && p[0] == root && p[|p| - 1] == id {
      assert Path(g, p);
    }
  }

  /** One more dev-only dependency of `a`, wherever it stands in the list. */
  lemma {:induction false} DevEdgeAdded(g: Graph, a: Id, before: seq<Dep>, d: Dep, after: seq<Dep>)
    requires d.kinds == {Dev} && DepsOf(g, a) == before + after
    ensures SameShipping(g, g[a := before + [d] + after])
  {
    var h := g[a := before + [d] + after];
    forall x, y
      ensures Edge(g, x, y) <==> Edge(h, x, y)
    {
      if x == a {
        if e :| e in DepsOf(g, a) && e.pkg == y && Ships(e) {
          assert e in DepsOf(h, a);
        }
        if e :| e in DepsOf(h, a) && e.pkg == y && Ships(e) {
          assert e in DepsOf(g, a);
        }
      }
    }
  }

  // ---------------------------------------------------------------- what the file must list

  datatype Package = Package(id: Id, name: string, version: string)

  /** `cargo metadata` for one target. */
  datatype Meta = Meta(packages: seq<Package>, members: set<Id>, graph: Graph)

  datatype Crate = Crate(name: string, version: string)

  datatype Failure = NoRoot | UnknownId

  datatype Result<T> = Ok(value: T) | Err(error: Failure)

  ghost predicate Named(meta: Meta, name: string, k: nat)
    requires k < |meta.packages|
  {
    meta.packages[k].id in meta.members && meta.packages[k].name == name
  }

  ghost predicate FirstNamed(meta: Meta, name: string, i: nat, k: nat)
    requires i <= k < |meta.packages|
  {
    Named(meta, name, k) && forall m :: i <= m < k ==> !Named(meta, name, m)
  }

  /** The first member package of that name, if any. */
  function RootFrom(meta: Meta, name: string, i: nat): (r: Result<Id>)
    requires i <= |meta.packages|
    ensures r.Ok? ==> exists k :: i <= k < |meta.packages| && meta.packages[k].id == r.value && FirstNamed(meta, name, i, k)
    ensures r.Err? ==> r.error == NoRoot && forall k :: i <= k < |meta.packages| ==> !Named(meta, name, k)
    decreases |meta.packages| - i
  {
    if i == |meta.packages| then Err(NoRoot)
    else if meta.packages[i].id in meta.members && meta.packages[i].name == name then Ok(meta.packages[i].id)
    else RootFrom(meta, name, i + 1)
  }

  function FindRootId(meta: Meta, name: string): Result<Id> {
    RootFrom(meta, name, 0)
  }

  ghost predicate LastOf(packages: seq<Package>, id: Id, p: Package) {
    exists k :: 0 <= k < |packages| && packages[k] == p && p.id == id && forall m :: k < m < |packages| ==> packages[m].id != id
  }

  /** `{p["id"]: p for p in packages}`: the last package of an id. */
  function ById(packages: seq<Package>): (m: map<Id, Package>)
    ensures forall id :: id in m <==> exists p :: p in packages && p.id == id
    ensures forall id :: id in m ==> LastOf(packages, id, m[id])
  {
    if packages == [] then map[]
    else
      var last, init := packages[|packages| - 1], packages[..|packages| - 1];
      assert packages == init + [last];
      ById(init)[last.id := last]
  }

  /** The crate is linked: some shipped package that is not the workspace's own bears it. */
  ghost predicate Links(meta: Meta, root: Id, c: Crate) {
    exists id :: Reaches(meta.graph, root, id) && id !in meta.members && id in ById(meta.packages)
                 && CrateOf(ById(meta.packages)[id]) == c
  }

  function CrateOf(p: Package): Crate {
    Crate(p.name, p.version)
  }

  /** Every shipped id is a package or the workspace's own. */
  ghost predicate Resolved(meta: Meta, root: Id) {
    forall id :: Reaches(meta.graph, root, id) && id !in meta.members ==> id in ById(meta.packages)
  }

  method ShippedPairs(meta: Meta, name: string) returns (r: Result<set<Crate>>)
    ensures r.Ok? <==> Usable(meta, name)
    ensures r.Ok? ==> Linked(meta, name, r.value)
    ensures r == Err(NoRoot) <==> FindRootId(meta, name).Err?
  {
    var root := FindRootId(meta, name);
    if root.Err? {
      return Err(root.error);
    }
    var reached := ReachableIds(meta.graph, root.value);
    var byId := ById(meta.packages);
    var ids := reached - meta.members;
    if !(ids <= byId.Keys) {
      ghost var id :| id in ids && id !in byId;
      return Err(UnknownId);
    }
    r := Ok(set id | id in ids :: CrateOf(byId[id]));
  }

  /** The target's crates are all in the file. */
  ghost predicate Covered(listed: Meta, other: Meta, name: string)
    requires FindRootId(listed, name).Ok? && FindRootId(other, name).Ok?
  {
    forall c :: Links(other, FindRootId(other, name).value, c) ==> Links(listed, FindRootId(listed, name).value, c)
  }

  ghost predicate Usable(meta: Meta, name: string) {
    FindRootId(meta, name).Ok? && Resolved(meta, FindRootId(meta, name).value)
  }

  ghost predicate Linked(meta: Meta, name: string, crates: set<Crate>) {
    Usable(meta, name) && forall c :: c in crates <==> Links(meta, FindRootId(meta, name).value, c)
  }

  lemma {:induction false} CoveredExactly(listed: Meta, other: Meta, name: string, mine: set<Crate>, theirs: set<Crate>)
    requires Linked(listed, name, mine) && Linked(other, name, theirs)
    ensures theirs <= mine <==> Covered(listed, other, name)
  {
  }

  method ShippedGraphs(targets: seq<Meta>, name: string) returns (r: Result<seq<set<Crate>>>)
    ensures r.Ok? <==> forall i :: 0 <= i < |targets| ==> Usable(targets[i], name)
    ensures r.Ok? ==> |r.value| == |targets| && forall i :: 0 <= i < |targets| ==> Linked(targets[i], name, r.value[i])
  {
    var graphs := [];
    for i := 0 to |targets|
      invariant |graphs| == i && forall k :: 0 <= k < i ==> Linked(targets[k], name, graphs[k])
    {
      var graph := ShippedPairs(targets[i], name);
      if graph.Err? {
        return Err(graph.error);
      }
      graphs := graphs + [graph.value];
    }
    return Ok(graphs);
  }

  method CountGaps(listed: set<Crate>, graphs: seq<set<Crate>>) returns (gaps: nat)
    ensures gaps == 0 <==> forall i :: 0 <= i < |graphs| ==> graphs[i] <= listed
  {
    gaps := 0;
    for i := 0 to |graphs|
      invariant gaps == 0 <==> forall k :: 0 <= k < i ==> graphs[k] <= listed
    {
      var missing := graphs[i] - listed;
      assert |missing| == 0 <==> graphs[i] <= listed by {
        if |missing| == 0 {
          assert forall c :: c in graphs[i] ==> c !in missing;
        } else {
          var c :| c in missing;
        }
      }
      gaps := gaps + |missing|;
    }
  }

  /** Exit code 0 only if every target links nothing but listed crates; 1 only if some crate is
      missing; a graph that cannot be read stops the script. */
  method CheckCovers(listed: Meta, targets: seq<Meta>, name: string) returns (r: Result<nat>)
    ensures r.Ok? <==> Usable(listed, name) && forall i :: 0 <= i < |targets| ==> Usable(targets[i], name)
    ensures r.Ok? ==> r.value <= 1
    ensures r.Ok? ==> (r.value == 0 <==> forall i :: 0 <= i < |targets| ==> Covered(listed, targets[i], name))
  {
    var mine := ShippedPairs(listed, name);
    if mine.Err? {
      return Err(mine.error);
    }
    var graphs := ShippedGraphs(targets, name);
    if graphs.Err? {
      return Err(graphs.error);
    }
    var gaps := CountGaps(mine.value, graphs.value);
    forall i | 0 <= i < |targets|
      ensures graphs.value[i] <= mine.value <==> Covered(listed, targets[i], name)
    {
      CoveredExactly(listed, targets[i], name, mine.value, graphs.value[i]);
    }
    r := Ok(if gaps > 0 then 1 else 0);
  }
}
