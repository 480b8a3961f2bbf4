/** The fork tree of a session, rebuilt from the picker index: parent links there may
    dangle or run in circles. */
module ForkTrees {
  import opened Outcome
  import opened Order

  type Id = string

  datatype Kind = UserSession | WorkerSession
  datatype ForkPoint = ForkPoint(sessionId: Id, headId: Id)
  datatype ItemSummary = ItemSummary(
    id: Id, kind: Kind, projectId: string, title: string, createdAt: int, forkedFrom: Option<ForkPoint>)

  datatype Node = Node(id: Id, title: string, forkPointId: Id, current: bool, missing: bool, children: seq<Node>)

  /** The sessions considered, by id, and the same sessions by the parent they name. */
  datatype Index = Index(byId: map<Id, ItemSummary>, children: map<Id, seq<ItemSummary>>)

  function ParentOf(item: ItemSummary): Option<Id> {
    if item.forkedFrom.Some? && item.forkedFrom.value.sessionId != "" then Some(item.forkedFrom.value.sessionId) else None
  }

  function Parent(byId: map<Id, ItemSummary>, id: Id): Option<Id> {
    if id in byId then ParentOf(byId[id]) else None
  }

  function Kids(children: map<Id, seq<ItemSummary>>, id: Id): seq<ItemSummary> {
    if id in children then children[id] else []
  }

  predicate Earlier(a: ItemSummary, b: ItemSummary) {
    a.createdAt < b.createdAt || (a.createdAt == b.createdAt && Less(a.id, b.id))
  }

  lemma EarlierIsOrder()
    ensures IsOrder(Earlier)
  {
    LessIsOrder();
  }

  // ---------- which sessions are considered ----------

  function Users(items: seq<ItemSummary>): map<Id, ItemSummary> {
    if items == [] then map[]
    else
      var before, last := Users(items[..|items| - 1]), items[|items| - 1];
      if last.kind.UserSession? then before[last.id := last] else before
  }

  function SameProject(all: map<Id, ItemSummary>, projectId: string): map<Id, ItemSummary> {
    map id | id in all && all[id].projectId == projectId :: all[id]
  }

  predicate Keyed(byId: map<Id, ItemSummary>) {
    forall id :: id in byId ==> byId[id].id == id
  }

  lemma {:induction false} UsersAreKeyed(items: seq<ItemSummary>)
    ensures Keyed(Users(items))
    ensures forall id :: id in Users(items) ==> Users(items)[id] in items && Users(items)[id].kind.UserSession?
    ensures forall x :: x in items && x.kind.UserSession? ==> x.id in Users(items)
  {
    if items != [] {
      UsersAreKeyed(items[..|items| - 1]);
      assert items == items[..|items| - 1] + [items[|items| - 1]];
    }
  }

  // ---------- the child index ----------

  /** children holds every session under the parent it names, oldest first. */
  ghost predicate Indexes(ix: Index) {
    && Keyed(ix.byId)
    && forall p :: IsFamily(ix.byId, p, Kids(ix.children, p)) && Sorted(Kids(ix.children, p), Earlier)
  }

  ghost predicate IsFamily(byId: map<Id, ItemSummary>, p: Id, kids: seq<ItemSummary>) {
    NoRepeats(kids) && forall x :: x in kids <==> (x.id in byId && byId[x.id] == x && ParentOf(x) == Some(p))
  }

  /** The siblings listed so far: those of the sessions already visited. */
  ghost predicate IsFamilySoFar(byId: map<Id, ItemSummary>, left: set<Id>, p: Id, kids: seq<ItemSummary>) {
    NoRepeats(kids) && forall x :: x in kids <==> (x.id in byId && x.id !in left && byId[x.id] == x && ParentOf(x) == Some(p))
  }

  lemma VisitOne(byId: map<Id, ItemSummary>, left: set<Id>, id: Id, p: Id, kids: seq<ItemSummary>)
    requires Keyed(byId) && id in byId && id in left && IsFamilySoFar(byId, left, p, kids)
    ensures ParentOf(byId[id]) == Some(p) ==> IsFamilySoFar(byId, left - {id}, p, kids + [byId[id]])
    ensures ParentOf(byId[id]) != Some(p) ==> IsFamilySoFar(byId, left - {id}, p, kids)
  {
    assert byId[id] !in kids;
    NoRepeatsAppend(kids, byId[id]);
  }

  lemma SortFamily(byId: map<Id, ItemSummary>, p: Id, kids: seq<ItemSummary>)
    requires IsFamilySoFar(byId, {}, p, kids)
    ensures IsFamily(byId, p, Sort(kids, Earlier)) && Sorted(Sort(kids, Earlier), Earlier)
  {
    EarlierIsOrder();
    SortSorts(kids, Earlier);
    Rearranged(kids, Sort(kids, Earlier));
    SameElements(kids, Sort(kids, Earlier));
  }

  /** Visits the sessions in whatever order the map yields them, then sorts. */
  method ChildIndex(byId: map<Id, ItemSummary>) returns (children: map<Id, seq<ItemSummary>>)
    requires Keyed(byId)
    ensures Indexes(Index(byId, children))
  {
    children := map[];
    var left := byId.Keys;
    while left != {}
      invariant left <= byId.Keys
      invariant forall p :: IsFamilySoFar(byId, left, p, Kids(children, p))
      decreases left
    {
      hide IsFamilySoFar;
      var id :| id in left;
      ghost var was := children;
      var parent := ParentOf(byId[id]);
      if parent.Some? {
        children := children[parent.value := Kids(children, parent.value) + [byId[id]]];
      }
      forall p ensures IsFamilySoFar(byId, left - {id}, p, Kids(children, p)) {
        VisitOne(byId, left, id, p, Kids(was, p));
      }
      left := left - {id};
    }
    ghost var raw := children;
    left := children.Keys;
    while left != {}
      invariant left <= children.Keys == raw.Keys
      invariant forall p :: p in left ==> children[p] == raw[p]
      invariant forall p :: p in raw && p !in left ==> children[p] == Sort(raw[p], Earlier)
      decreases left
    {
      var p :| p in left;
      children := children[p := Sort(children[p], Earlier)];
      left := left - {p};
    }
    forall p ensures IsFamily(byId, p, Kids(children, p)) && Sorted(Kids(children, p), Earlier) {
      SortFamily(byId, p, Kids(raw, p));
      assert Kids(children, p) == Sort(Kids(raw, p), Earlier);
    }
  }

  lemma FamilyIsOrdered(byId: map<Id, ItemSummary>, p: Id, kids: seq<ItemSummary>)
    requires Keyed(byId) && IsFamily(byId, p, kids)
    ensures Decides(Earlier, kids)
  {
    forall a, b | a in kids && b in kids && a != b ensures Earlier(a, b) || Earlier(b, a) {
      LessIsTotal(a.id, b.id);
    }
  }

  /** The index is a fact about the sessions: no order of visiting them changes it. */
  lemma IndexIsUnique(ix: Index, jx: Index, p: Id)
    requires Indexes(ix) && Indexes(jx) && ix.byId == jx.byId
    ensures Kids(ix.children, p) == Kids(jx.children, p)
  {
    var s, t := Kids(ix.children, p), Kids(jx.children, p);
    assert IsFamily(ix.byId, p, s) && IsFamily(jx.byId, p, t);
    SameSetSameMultiset(s, t);
    FamilyIsOrdered(ix.byId, p, s);
    SortedOnce(s, t, Earlier);
  }

  // ---------- the tree ----------

  lemma PathGrows(keys: set<Id>, path: set<Id>, id: Id)
    requires id in keys && id !in path
    ensures |keys - (path + {id})| < |keys - path|
  {
    assert keys - path == (keys - (path + {id})) + {id};
  }

  function Build(ix: Index, currentId: Id, id: Id, path: set<Id>): Node
    requires Indexes(ix)
    decreases |ix.byId.Keys - (path + {id})|, 1, 0
  {
    var found := id in ix.byId;
    Node(
      id,
      if found then ix.byId[id].title else "",
      if found && ix.byId[id].forkedFrom.Some? then ix.byId[id].forkedFrom.value.headId else "",
      id == currentId,
      !found,
      assert IsFamily(ix.byId, id, Kids(ix.children, id));
      BuildAll(ix, currentId, Kids(ix.children, id), path + {id}))
  }

  function BuildAll(ix: Index, currentId: Id, kids: seq<ItemSummary>, path: set<Id>): seq<Node>
    requires Indexes(ix) && forall k :: k in kids ==> k.id in ix.byId
    decreases |ix.byId.Keys - path|, 0, |kids|
  {
    if kids == [] then []
    else
      var kid := kids[0];
      assert kid in kids;
      (if kid.id in path then [] else PathGrows(ix.byId.Keys, path, kid.id); [Build(ix, currentId, kid.id, path)])
      + BuildAll(ix, currentId, kids[1..], path)
  }

  /** How often an id occurs in a tree. */
  function Times(node: Node, x: Id): nat {
    (if node.id == x then 1 else 0) + TimesIn(node.children, x)
  }

  function TimesIn(nodes: seq<Node>, x: Id): nat {
    if nodes == [] then 0 else Times(nodes[0], x) + TimesIn(nodes[1..], x)
  }

  /** Following parent links from x reaches id after n steps for the first time, over
      nothing in avoid. */
  predicate Climbs(byId: map<Id, ItemSummary>, x: Id, id: Id, avoid: set<Id>, n: nat)
    decreases n
  {
    if n == 0 then x == id
    else
      && x !in avoid && x != id && Parent(byId, x).Some?
      && Climbs(byId, Parent(byId, x).value, id, avoid, n - 1)
  }

  lemma {:induction false} ClimbsOnce(byId: map<Id, ItemSummary>, x: Id, id: Id, avoid: set<Id>, n: nat, m: nat)
    requires Climbs(byId, x, id, avoid, n) && Climbs(byId, x, id, avoid, m)
    ensures n == m
    decreases n
  {
    if n > 0 && m > 0 {
      ClimbsOnce(byId, Parent(byId, x).value, id, avoid, n - 1, m - 1);
    }
  }

  lemma {:induction false} ClimbsThrough(byId: map<Id, ItemSummary>, x: Id, child: Id, id: Id, avoid: set<Id>, n: nat)
    requires Climbs(byId, x, child, avoid + {id}, n)
    requires Parent(byId, child) == Some(id) && child !in avoid + {id}
    ensures Climbs(byId, x, id, avoid, n + 1)
    decreases n
  {
    if n > 0 {
      ClimbsThrough(byId, Parent(byId, x).value, child, id, avoid, n - 1);
    }
  }

  /** The last step of a climb to id is from one of its children. */
  lemma {:induction false} LastStep(byId: map<Id, ItemSummary>, x: Id, id: Id, avoid: set<Id>, n: nat) returns (child: Id)
    requires Climbs(byId, x, id, avoid, n) && n > 0
    ensures Parent(byId, child) == Some(id) && child !in avoid + {id}
    ensures Climbs(byId, x, child, avoid + {id}, n - 1)
    decreases n
  {
    if n == 1 {
      child := x;
    } else {
      child := LastStep(byId, Parent(byId, x).value, id, avoid, n - 1);
    }
  }

  lemma {:induction false} ClimbEndsOnce(byId: map<Id, ItemSummary>, x: Id, c: Id, d: Id, avoid: set<Id>, n: nat)
    requires Climbs(byId, x, c, avoid, n) && Climbs(byId, x, d, avoid, n)
    ensures c == d
    decreases n
  {
    if n > 0 {
      ClimbEndsOnce(byId, Parent(byId, x).value, c, d, avoid, n - 1);
    }
  }

  ghost predicate Under(byId: map<Id, ItemSummary>, x: Id, id: Id, avoid: set<Id>) {
    exists n: nat :: Climbs(byId, x, id, avoid, n)
  }

  /** One of the kids off the path lies on x's way up. */
  ghost predicate UnderSome(byId: map<Id, ItemSummary>, x: Id, kids: seq<ItemSummary>, path: set<Id>) {
    exists k :: k in kids && k.id !in path && Under(byId, x, k.id, path)
  }

  lemma UnderChildren(byId: map<Id, ItemSummary>, x: Id, id: Id, path: set<Id>, kids: seq<ItemSummary>)
    requires Keyed(byId) && IsFamily(byId, id, kids)
    ensures Under(byId, x, id, path) <==> x == id || UnderSome(byId, x, kids, path + {id})
    ensures !(x == id && UnderSome(byId, x, kids, path + {id}))
  {
    if Under(byId, x, id, path) && x != id {
      var n: nat :| Climbs(byId, x, id, path, n);
      var child := LastStep(byId, x, id, path, n);
      assert byId[child] in kids;
      assert Under(byId, x, child, path + {id});
    }
    if x == id {
      assert Climbs(byId, x, id, path, 0);
    }
    if UnderSome(byId, x, kids, path + {id}) {
      var k :| k in kids && k.id !in path + {id} && Under(byId, x, k.id, path + {id});
      var n: nat :| Climbs(byId, x, k.id, path + {id}, n);
      ClimbsThrough(byId, x, k.id, id, path, n);
    }
  }

  /** No session lies under two siblings. */
  lemma UnderOneChild(byId: map<Id, ItemSummary>, x: Id, id: Id, path: set<Id>, c: Id, d: Id)
    requires Parent(byId, c) == Some(id) && Parent(byId, d) == Some(id) && id in path && c !in path && d !in path
    requires Under(byId, x, c, path) && Under(byId, x, d, path)
    ensures c == d
  {
    var n: nat :| Climbs(byId, x, c, path, n);
    var m: nat :| Climbs(byId, x, d, path, m);
    assert path + {id} == path;
    ClimbsThrough(byId, x, c, id, path, n);
    ClimbsThrough(byId, x, d, id, path, m);
    ClimbsOnce(byId, x, id, path, n + 1, m + 1);
    ClimbEndsOnce(byId, x, c, d, path, n);
  }

  lemma SiblingAgain(byId: map<Id, ItemSummary>, x: Id, id: Id, path: set<Id>, kid: ItemSummary, rest: seq<ItemSummary>)
    requires id in path && kid.id !in path && Under(byId, x, kid.id, path) && UnderSome(byId, x, rest, path)
    requires forall k :: k == kid || k in rest ==> k.id in byId && byId[k.id] == k && ParentOf(k) == Some(id)
    ensures kid in rest
  {
    var k :| k in rest && k.id !in path && Under(byId, x, k.id, path);
    UnderOneChild(byId, x, id, path, kid.id, k.id);
  }

  /** Building from id puts x in the tree once if x climbs to id off the path, and
      otherwise not at all. */
  lemma {:induction false} TimesBuilt(ix: Index, currentId: Id, id: Id, path: set<Id>, x: Id)
    requires Indexes(ix)
    ensures Times(Build(ix, currentId, id, path), x) == if Under(ix.byId, x, id, path) then 1 else 0
    decreases |ix.byId.Keys - (path + {id})|, 1, 0
  {
    hide Under, UnderSome;
    var kids := Kids(ix.children, id);
    assert IsFamily(ix.byId, id, kids);
    UnderChildren(ix.byId, x, id, path, kids);
    TimesBuiltAll(ix, currentId, id, kids, path + {id}, x);
  }

  lemma {:induction false} TimesBuiltAll(ix: Index, currentId: Id, id: Id, kids: seq<ItemSummary>, path: set<Id>, x: Id)
    requires Indexes(ix) && id in path && NoRepeats(kids)
    requires forall k :: k in kids ==> k.id in ix.byId && ix.byId[k.id] == k && ParentOf(k) == Some(id)
    ensures TimesIn(BuildAll(ix, currentId, kids, path), x) == if UnderSome(ix.byId, x, kids, path) then 1 else 0
    decreases |ix.byId.Keys - path|, 0, |kids|
  {
    hide Under, Indexes, Build;
    if kids != [] {
      var kid, rest := kids[0], kids[1..];
      assert kid in kids;
      assert forall k :: k in kids <==> k == kid || k in rest;
      TimesBuiltAll(ix, currentId, id, rest, path, x);
      if kid.id in path {
        assert BuildAll(ix, currentId, kids, path) == BuildAll(ix, currentId, rest, path);
      } else {
        PathGrows(ix.byId.Keys, path, kid.id);
        TimesBuilt(ix, currentId, kid.id, path, x);
        assert BuildAll(ix, currentId, kids, path) == [Build(ix, currentId, kid.id, path)] + BuildAll(ix, currentId, rest, path);
        if Under(ix.byId, x, kid.id, path) && UnderSome(ix.byId, x, rest, path) {
          SiblingAgain(ix.byId, x, id, path, kid, rest);
        }
      }
    }
  }

  // ---------- the root ----------

  /** The n-th parent of x. */
  function Up(byId: map<Id, ItemSummary>, x: Id, n: nat): Option<Id> {
    if n == 0 then Some(x)
    else
      var y := Up(byId, x, n - 1);
      if y.None? then None else Parent(byId, y.value)
  }

  /** The parent chain of x leads to id. */
  ghost predicate Reaches(byId: map<Id, ItemSummary>, x: Id, id: Id) {
    exists n: nat :: Up(byId, x, n) == Some(id)
  }

  lemma {:induction false} UpFromParent(byId: map<Id, ItemSummary>, x: Id, n: nat)
    ensures Up(byId, x, n + 1) == if Parent(byId, x).None? then None else Up(byId, Parent(byId, x).value, n)
  {
    if n > 0 {
      UpFromParent(byId, x, n - 1);
    }
  }

  lemma {:induction false} ClimbingReaches(byId: map<Id, ItemSummary>, x: Id, id: Id, avoid: set<Id>, n: nat)
    requires Climbs(byId, x, id, avoid, n)
    ensures Up(byId, x, n) == Some(id)
    decreases n
  {
    if n > 0 {
      ClimbingReaches(byId, Parent(byId, x).value, id, avoid, n - 1);
      UpFromParent(byId, x, n - 1);
    }
  }

  lemma {:induction false} ReachingClimbs(byId: map<Id, ItemSummary>, x: Id, id: Id, n: nat)
    requires Up(byId, x, n) == Some(id)
    ensures Under(byId, x, id, {})
    decreases n
  {
    if x == id {
      assert Climbs(byId, x, id, {}, 0);
    } else {
      UpFromParent(byId, x, n - 1);
      var p := Parent(byId, x).value;
      ReachingClimbs(byId, p, id, n - 1);
      var m: nat :| Climbs(byId, p, id, {}, m);
      assert Climbs(byId, x, id, {}, m + 1);
    }
  }

  /** The parent chain of x has no end. */
  ghost predicate Endless(byId: map<Id, ItemSummary>, x: Id) {
    forall n: nat :: Up(byId, x, n).Some?
  }

  /** Nothing on the parent chain of x comes before r. */
  ghost predicate FirstOnChain(byId: map<Id, ItemSummary>, x: Id, r: Id) {
    forall n: nat :: Up(byId, x, n).Some? ==> !Less(Up(byId, x, n).value, r)
  }

  /** The root is the end of the current session's parent chain; of a chain with no end
      it is the first id, unless the current session itself has the empty id. */
  ghost predicate IsRoot(byId: map<Id, ItemSummary>, currentId: Id, r: Id) {
    && Reaches(byId, currentId, r)
    && (Parent(byId, r).None? || (Endless(byId, currentId) && (currentId == "" || FirstOnChain(byId, currentId, r))))
  }

  lemma {:induction false} ChainEnds(byId: map<Id, ItemSummary>, x: Id, n: nat, d: nat)
    requires Up(byId, x, n).Some? && Parent(byId, Up(byId, x, n).value).None? && d > 0
    ensures Up(byId, x, n + d).None?
  {
    if d > 1 {
      ChainEnds(byId, x, n, d - 1);
    }
  }

  /** The circle of parents the walk from currentId ends in is entered from the empty id. */
  ghost predicate Unsettled(byId: map<Id, ItemSummary>, currentId: Id) {
    currentId == "" && Endless(byId, currentId)
  }

  lemma RootIsDetermined(byId: map<Id, ItemSummary>, currentId: Id, r: Id, q: Id)
    requires !Unsettled(byId, currentId) && IsRoot(byId, currentId, r) && IsRoot(byId, currentId, q)
    ensures r == q
  {
    var n: nat :| Up(byId, currentId, n) == Some(r);
    var m: nat :| Up(byId, currentId, m) == Some(q);
    if Parent(byId, r).None? || Parent(byId, q).None? {
      if m > n && Parent(byId, r).None? {
        ChainEnds(byId, currentId, n, m - n);
      }
      if n > m && Parent(byId, q).None? {
        ChainEnds(byId, currentId, m, n - m);
      }
      if m > n {
        ChainEnds(byId, currentId, m, 1);
      }
      if n > m {
        ChainEnds(byId, currentId, n, 1);
      }
    } else {
      LessIsTotal(r, q);
    }
  }

  lemma {:induction false} ChainShifts(byId: map<Id, ItemSummary>, x: Id, k: nat, n: nat, d: nat)
    requires Up(byId, x, k) == Up(byId, x, n)
    ensures Up(byId, x, k + d) == Up(byId, x, n + d)
  {
    if d > 0 {
      ChainShifts(byId, x, k, n, d - 1);
    }
  }

  /** Once a chain returns to an id, it never leaves what it has visited. */
  lemma {:induction false} ChainLoops(byId: map<Id, ItemSummary>, x: Id, k: nat, n: nat, m: nat) returns (j: nat)
    requires k < n && Up(byId, x, k) == Up(byId, x, n) && Up(byId, x, n).Some?
    ensures j < n && Up(byId, x, j) == Up(byId, x, m)
    decreases m
  {
    if m < n {
      j := m;
    } else {
      ChainShifts(byId, x, k, n, m - n);
      j := ChainLoops(byId, x, k, n, k + (m - n));
    }
  }

  lemma {:induction false} EarlierSome(byId: map<Id, ItemSummary>, x: Id, j: nat, n: nat)
    requires j <= n && Up(byId, x, n).Some?
    ensures Up(byId, x, j).Some?
    decreases n
  {
    if j < n {
      EarlierSome(byId, x, j, n - 1);
    }
  }

  /** Only the first id of a chain can be empty: an empty parent reads as none. */
  lemma {:induction false} ParentsAreNamed(byId: map<Id, ItemSummary>, x: Id, n: nat)
    ensures Up(byId, x, n) == Some("") ==> n == 0 && x == ""
  {
  }

  // ---------- the smallest of the ids seen ----------

  ghost predicate Arranges(order: seq<Id>, ids: set<Id>) {
    NoRepeats(order) && forall x :: x in order <==> x in ids
  }

  /** The choice made visiting ids in the given order: the empty string reads as none yet. */
  function SmallestAlong(order: seq<Id>): Id {
    if order == [] then ""
    else
      var best, last := SmallestAlong(order[..|order| - 1]), order[|order| - 1];
      if best == "" || Less(last, best) then last else best
  }

  method SmallestID(ids: set<Id>) returns (smallest: Id)
    ensures exists order :: Arranges(order, ids) && smallest == SmallestAlong(order)
  {
    smallest := "";
    var left := ids;
    ghost var order := [];
    while left != {}
      invariant left <= ids && Arranges(order, ids - left) && smallest == SmallestAlong(order)
      decreases left
    {
      var id :| id in left;
      if smallest == "" || Less(id, smallest) {
        smallest := id;
      }
      NoRepeatsAppend(order, id);
      assert (order + [id])[..|order + [id]| - 1] == order;
      order := order + [id];
      left := left - {id};
    }
    assert ids - left == ids;
  }

  lemma {:induction false} SmallestIsFirst(order: seq<Id>)
    requires "" !in order && order != []
    ensures SmallestAlong(order) in order
    ensures forall x :: x in order ==> !Less(x, SmallestAlong(order))
  {
    var before, last := order[..|order| - 1], order[|order| - 1];
    assert order == before + [last];
    LessIsTotal(last, last);
    if before != [] {
      SmallestIsFirst(before);
      var best := SmallestAlong(before);
      forall x | x in before ensures !Less(x, SmallestAlong(order)) {
        if Less(last, best) && Less(x, last) {
          LessIsTransitive(x, last, best);
        }
      }
    }
  }

  lemma {:induction false} Arrangement(ids: set<Id>) returns (order: seq<Id>)
    ensures Arranges(order, ids)
  {
    order := [];
    if ids != {} {
      var x :| x in ids;
      order := Arrangement(ids - {x});
      NoRepeatsAppend(order, x);
      order := order + [x];
    }
  }

  lemma {:induction false} EmptyFirst(rest: seq<Id>)
    requires "" !in rest
    ensures SmallestAlong([""] + rest) == SmallestAlong(rest)
  {
    if rest != [] {
      EmptyFirst(rest[..|rest| - 1]);
      assert ([""] + rest)[..|rest|] == [""] + rest[..|rest| - 1];
    } else {
      assert [""] + rest == [""] && [""][..0] == [];
    }
  }

  /** Every order of visiting gives one choice, which is then the first of the ids,
      exactly if the empty string is not among others. */
  lemma SmallestIsSettled(ids: set<Id>)
    ensures (forall o, p :: Arranges(o, ids) && Arranges(p, ids) ==> SmallestAlong(o) == SmallestAlong(p))
       <==> ("" !in ids || ids == {""})
  {
    hide Less, SmallestAlong;
    if "" in ids && ids != {""} {
      var rest := Arrangement(ids - {""});
      var x :| x in ids && x != "";
      assert x in rest;
      SmallestIsFirst(rest);
      EmptyFirst(rest);
      NoRepeatsAppend(rest, "");
      EmptyLast(rest);
      assert ([""] + rest)[1..] == rest && (rest + [""])[..|rest|] == rest;
      assert Arranges([""] + rest, ids) && Arranges(rest + [""], ids);
      assert SmallestAlong([""] + rest) in rest;
    } else {
      forall o, p | Arranges(o, ids) && Arranges(p, ids) ensures SmallestAlong(o) == SmallestAlong(p) {
        SettledPair(ids, o, p);
      }
    }
  }

  lemma SettledPair(ids: set<Id>, o: seq<Id>, p: seq<Id>)
    requires Arranges(o, ids) && Arranges(p, ids) && ("" !in ids || ids == {""})
    ensures SmallestAlong(o) == SmallestAlong(p)
  {
    if "" !in ids {
      assert o != [] ==> o[0] in p;
      assert p != [] ==> p[0] in o;
      if o != [] {
        SmallestIsFirst(o);
        SmallestIsFirst(p);
        LessIsTotal(SmallestAlong(o), SmallestAlong(p));
      }
    } else {
      assert forall i :: 0 <= i < |o| ==> o[i] in o;
      assert forall i :: 0 <= i < |p| ==> p[i] in p;
      OnlyEmpty(o);
      OnlyEmpty(p);
    }
  }

  lemma {:induction false} OnlyEmpty(o: seq<Id>)
    requires forall i :: 0 <= i < |o| ==> o[i] == ""
    ensures SmallestAlong(o) == ""
  {
    if o != [] {
      OnlyEmpty(o[..|o| - 1]);
    }
  }

  /** Seen holds the first n ids of the chain, and id comes next. */
  ghost predicate Walked(byId: map<Id, ItemSummary>, currentId: Id, seen: set<Id>, n: nat, id: Id) {
    && Up(byId, currentId, n) == Some(id)
    && forall x :: x in seen <==> Among(byId, currentId, n, x)
  }

  /** x is one of the first n ids of the chain. */
  ghost predicate Among(byId: map<Id, ItemSummary>, currentId: Id, n: nat, x: Id) {
    exists k: nat :: k < n && Up(byId, currentId, k) == Some(x)
  }

  lemma WalkOn(byId: map<Id, ItemSummary>, currentId: Id, seen: set<Id>, n: nat, id: Id, parent: Id)
    requires Walked(byId, currentId, seen, n, id) && Parent(byId, id) == Some(parent)
    ensures Walked(byId, currentId, seen + {id}, n + 1, parent)
  {
    assert Up(byId, currentId, n) == Some(id);
    forall x ensures Among(byId, currentId, n + 1, x) <==> Among(byId, currentId, n, x) || x == id {
    }
  }

  method FindRoot(byId: map<Id, ItemSummary>, currentId: Id) returns (rootId: Id)
    ensures IsRoot(byId, currentId, rootId)
  {
    hide Walked;
    rootId := currentId;
    var seen: set<Id> := {};
    ghost var n: nat := 0;
    assert Walked(byId, currentId, seen, n, rootId) by { StartWalk(byId, currentId); }
    while rootId !in seen
      invariant Walked(byId, currentId, seen, n, rootId)
      decreases |byId.Keys - seen|
    {
      if rootId !in byId || ParentOf(byId[rootId]).None? {
        EndOfWalk(byId, currentId, seen, n, rootId);
        return;
      }
      var parent := ParentOf(byId[rootId]).value;
      WalkOn(byId, currentId, seen, n, rootId, parent);
      PathGrows(byId.Keys, seen, rootId);
      seen := seen + {rootId};
      rootId := parent;
      n := n + 1;
    }
    var smallest := SmallestID(seen);
    Circle(byId, currentId, seen, n, rootId, smallest);
    rootId := smallest;
  }

  lemma StartWalk(byId: map<Id, ItemSummary>, currentId: Id)
    ensures Walked(byId, currentId, {}, 0, currentId)
  {
  }

  lemma EndOfWalk(byId: map<Id, ItemSummary>, currentId: Id, seen: set<Id>, n: nat, id: Id)
    requires Walked(byId, currentId, seen, n, id) && Parent(byId, id).None?
    ensures IsRoot(byId, currentId, id)
  {
  }

  lemma Circle(byId: map<Id, ItemSummary>, currentId: Id, seen: set<Id>, n: nat, id: Id, r: Id)
    requires Walked(byId, currentId, seen, n, id) && id in seen
    requires exists order :: Arranges(order, seen) && r == SmallestAlong(order)
    ensures IsRoot(byId, currentId, r)
  {
    var k: nat :| k < n && Up(byId, currentId, k) == Some(id);
    CircleRoot(byId, currentId, seen, k, n, r);
  }

  lemma CircleRoot(byId: map<Id, ItemSummary>, currentId: Id, seen: set<Id>, k: nat, n: nat, r: Id)
    requires k < n && Up(byId, currentId, k) == Up(byId, currentId, n) && Up(byId, currentId, n).Some?
    requires forall x :: x in seen <==> Among(byId, currentId, n, x)
    requires exists order :: Arranges(order, seen) && r == SmallestAlong(order)
    ensures IsRoot(byId, currentId, r)
  {
    var order :| Arranges(order, seen) && r == SmallestAlong(order);
    assert currentId in seen by { assert Up(byId, currentId, 0) == Some(currentId); }
    SmallestIsSeen(order);
    var at: nat :| at < n && Up(byId, currentId, at) == Some(r);
    forall m: nat ensures Up(byId, currentId, m).Some? && Up(byId, currentId, m).value in seen {
      var j := ChainLoops(byId, currentId, k, n, m);
      EarlierSome(byId, currentId, j, n);
    }
    if currentId != "" {
      forall j: nat | j < n ensures Up(byId, currentId, j) != Some("") {
        ParentsAreNamed(byId, currentId, j);
      }
      SmallestIsFirst(order);
    }
  }

  lemma {:induction false} SmallestIsSeen(order: seq<Id>)
    requires order != []
    ensures SmallestAlong(order) in order
  {
    if |order| > 1 {
      SmallestIsSeen(order[..|order| - 1]);
    }
  }

  // ---------- the whole result ----------

  /** What a tree for currentId must be; none when currentId names no user session. */
  ghost predicate IsForkTree(items: seq<ItemSummary>, currentId: Id, tree: Option<Node>) {
    IsTreeFor(Users(items), currentId, tree)
  }

  ghost predicate IsTreeFor(all: map<Id, ItemSummary>, currentId: Id, tree: Option<Node>) {
    if currentId !in all then tree.None?
    else exists ix, root :: BuiltFrom(all, currentId, ix, root, tree)
  }

  ghost predicate BuiltFrom(all: map<Id, ItemSummary>, currentId: Id, ix: Index, root: Id, tree: Option<Node>)
    requires currentId in all
  {
    && ix.byId == SameProject(all, all[currentId].projectId) && Indexes(ix) && IsRoot(ix.byId, currentId, root)
    && tree == Some(Build(ix, currentId, root, {}))
  }

  method BuildForkTree(items: seq<ItemSummary>, currentId: Id) returns (tree: Option<Node>)
    ensures tree.Some? <==> currentId in Users(items)
    ensures IsForkTree(items, currentId, tree)
  {
    var all := map[];
    var i := 0;
    while i < |items|
      invariant 0 <= i <= |items| && all == Users(items[..i])
    {
      assert items[..i + 1][..i] == items[..i];
      if items[i].kind.UserSession? {
        all := all[items[i].id := items[i]];
      }
      i := i + 1;
    }
    assert items[..i] == items;
    if currentId !in all {
      return None;
    }
    UsersAreKeyed(items);
    var byId := SameProject(all, all[currentId].projectId);
    var root := FindRoot(byId, currentId);
    var children := ChildIndex(byId);
    tree := Some(Build(Index(byId, children), currentId, root, {}));
    assert BuiltFrom(all, currentId, Index(byId, children), root, tree);
  }

  /** How many nodes are marked as the current session. */
  function Currents(node: Node): nat {
    (if node.current then 1 else 0) + CurrentsIn(node.children)
  }

  function CurrentsIn(nodes: seq<Node>): nat {
    if nodes == [] then 0 else Currents(nodes[0]) + CurrentsIn(nodes[1..])
  }

  lemma {:induction false} CurrentsAreTimes(ix: Index, currentId: Id, id: Id, path: set<Id>)
    requires Indexes(ix)
    ensures Currents(Build(ix, currentId, id, path)) == Times(Build(ix, currentId, id, path), currentId)
    decreases |ix.byId.Keys - (path + {id})|, 1, 0
  {
    assert IsFamily(ix.byId, id, Kids(ix.children, id));
    CurrentsInAreTimes(ix, currentId, Kids(ix.children, id), path + {id});
  }

  lemma {:induction false} CurrentsInAreTimes(ix: Index, currentId: Id, kids: seq<ItemSummary>, path: set<Id>)
    requires Indexes(ix) && forall k :: k in kids ==> k.id in ix.byId
    ensures CurrentsIn(BuildAll(ix, currentId, kids, path)) == TimesIn(BuildAll(ix, currentId, kids, path), currentId)
    decreases |ix.byId.Keys - path|, 0, |kids|
  {
    hide Indexes, Build;
    if kids != [] {
      assert kids[0] in kids;
      CurrentsInAreTimes(ix, currentId, kids[1..], path);
      if kids[0].id !in path {
        PathGrows(ix.byId.Keys, path, kids[0].id);
        CurrentsAreTimes(ix, currentId, kids[0].id, path);
      }
      OneMoreNode(ix, currentId, kids, path);
    }
  }

  lemma OneMoreNode(ix: Index, currentId: Id, kids: seq<ItemSummary>, path: set<Id>)
    requires Indexes(ix) && (forall k :: k in kids ==> k.id in ix.byId) && kids != []
    ensures kids[0] in kids
    ensures var all, rest := BuildAll(ix, currentId, kids, path), BuildAll(ix, currentId, kids[1..], path);
            if kids[0].id in path then all == rest
            else all != [] && all[0] == Build(ix, currentId, kids[0].id, path) && all[1..] == rest && all[0].id == kids[0].id
  {
    hide Indexes;
    assert kids[0] in kids;
  }

  /** The tree holds its root and every considered session whose parent chain reaches
      the root, each exactly once, and nothing else; exactly one node is current, and
      every node tells the truth about its session. */
  lemma ForkTreeIsExact(items: seq<ItemSummary>, currentId: Id, tree: Option<Node>)
    requires IsForkTree(items, currentId, tree) && currentId in Users(items)
    ensures tree.Some? && Currents(tree.value) == 1
    ensures var byId := SameProject(Users(items), Users(items)[currentId].projectId);
            && IsRoot(byId, currentId, tree.value.id) && Faithful(byId, currentId, tree.value)
            && forall x :: Times(tree.value, x) == if Reaches(byId, x, tree.value.id) then 1 else 0
  {
    var all := Users(items);
    var byId := SameProject(all, all[currentId].projectId);
    var ix, root :| BuiltFrom(all, currentId, ix, root, tree);
    CurrentsAreTimes(ix, currentId, root, {});
    BuiltIsFaithful(ix, currentId, root, {});
    forall x ensures Times(tree.value, x) == if Reaches(byId, x, root) then 1 else 0 {
      TimesBuilt(ix, currentId, root, {}, x);
      UnderIsReaching(byId, x, root);
    }
  }

  lemma UnderIsReaching(byId: map<Id, ItemSummary>, x: Id, id: Id)
    ensures Under(byId, x, id, {}) <==> Reaches(byId, x, id)
  {
    if Under(byId, x, id, {}) {
      var n: nat :| Climbs(byId, x, id, {}, n);
      ClimbingReaches(byId, x, id, {}, n);
    }
    if Reaches(byId, x, id) {
      var n: nat :| Up(byId, x, n) == Some(id);
      ReachingClimbs(byId, x, id, n);
    }
  }

  lemma {:induction false} SameBuild(ix: Index, jx: Index, currentId: Id, id: Id, path: set<Id>)
    requires Indexes(ix) && Indexes(jx) && ix.byId == jx.byId
    ensures Build(ix, currentId, id, path) == Build(jx, currentId, id, path)
    decreases |ix.byId.Keys - (path + {id})|, 1, 0
  {
    IndexIsUnique(ix, jx, id);
    assert IsFamily(ix.byId, id, Kids(ix.children, id));
    SameBuildAll(ix, jx, currentId, Kids(ix.children, id), path + {id});
  }

  lemma {:induction false} SameBuildAll(ix: Index, jx: Index, currentId: Id, kids: seq<ItemSummary>, path: set<Id>)
    requires Indexes(ix) && Indexes(jx) && ix.byId == jx.byId && forall k :: k in kids ==> k.id in ix.byId
    ensures BuildAll(ix, currentId, kids, path) == BuildAll(jx, currentId, kids, path)
    decreases |ix.byId.Keys - path|, 0, |kids|
  {
    hide Indexes, Build;
    if kids != [] {
      assert kids[0] in kids;
      SameBuildAll(ix, jx, currentId, kids[1..], path);
      if kids[0].id !in path {
        PathGrows(ix.byId.Keys, path, kids[0].id);
        SameBuild(ix, jx, currentId, kids[0].id, path);
      }
    }
  }

  /** One tree answers for a session, whatever order maps are visited in, exactly unless
      it has the empty id and its parent chain has no end. */
  lemma ForkTreeIsDetermined(items: seq<ItemSummary>, currentId: Id)
    ensures (forall t, u :: IsForkTree(items, currentId, t) && IsForkTree(items, currentId, u) ==> t == u)
       <==> !UnsettledAmong(Users(items), currentId)
  {
    hide IsTreeFor, Users, UnsettledAmong, Keyed;
    var all := Users(items);
    if UnsettledAmong(all, currentId) {
      UsersAreKeyed(items);
      var t, u := TwoTrees(all, currentId);
      assert IsForkTree(items, currentId, t) && IsForkTree(items, currentId, u);
    } else {
      forall t, u | IsTreeFor(all, currentId, t) && IsTreeFor(all, currentId, u) ensures t == u {
        OneTree(all, currentId, t, u);
      }
    }
  }

  ghost predicate UnsettledAmong(all: map<Id, ItemSummary>, currentId: Id) {
    currentId in all && Unsettled(SameProject(all, all[currentId].projectId), currentId)
  }

  lemma OneTree(all: map<Id, ItemSummary>, currentId: Id, t: Option<Node>, u: Option<Node>)
    requires !UnsettledAmong(all, currentId) && IsTreeFor(all, currentId, t) && IsTreeFor(all, currentId, u)
    ensures t == u
  {
    if currentId in all {
      var ix, r :| BuiltFrom(all, currentId, ix, r, t);
      var jx, q :| BuiltFrom(all, currentId, jx, q, u);
      RootIsDetermined(ix.byId, currentId, r, q);
      SameBuild(ix, jx, currentId, r, {});
    }
  }

  lemma TwoTrees(all: map<Id, ItemSummary>, currentId: Id) returns (t: Option<Node>, u: Option<Node>)
    requires Keyed(all) && UnsettledAmong(all, currentId)
    ensures IsTreeFor(all, currentId, t) && IsTreeFor(all, currentId, u) && t != u
  {
    hide Indexes, Endless, FirstOnChain;
    var byId := SameProject(all, all[currentId].projectId);
    var ix := IndexOf(byId);
    var parent := TwoRoots(byId, currentId);
    t, u := Some(Build(ix, currentId, currentId, {})), Some(Build(ix, currentId, parent, {}));
    assert BuiltFrom(all, currentId, ix, currentId, t) && BuiltFrom(all, currentId, ix, parent, u);
    assert t.value.id == currentId && u.value.id == parent;
  }

  lemma TwoRoots(byId: map<Id, ItemSummary>, currentId: Id) returns (parent: Id)
    requires Unsettled(byId, currentId)
    ensures IsRoot(byId, currentId, currentId) && IsRoot(byId, currentId, parent) && parent != currentId
  {
    assert Up(byId, currentId, 0) == Some(currentId) && Up(byId, currentId, 1).Some?;
    parent := Parent(byId, currentId).value;
    assert Up(byId, currentId, 1) == Some(parent);
  }

  lemma {:induction false} FamilyFor(byId: map<Id, ItemSummary>, left: set<Id>, p: Id) returns (kids: seq<ItemSummary>)
    requires Keyed(byId) && left <= byId.Keys
    ensures IsFamilySoFar(byId, byId.Keys - left, p, kids)
    decreases left
  {
    kids := [];
    if left != {} {
      var id :| id in left;
      kids := FamilyFor(byId, left - {id}, p);
      VisitOne(byId, byId.Keys - (left - {id}), id, p, kids);
      assert byId.Keys - (left - {id}) - {id} == byId.Keys - left;
      kids := if ParentOf(byId[id]) == Some(p) then kids + [byId[id]] else kids;
    }
  }

  ghost predicate IsSortedFamily(byId: map<Id, ItemSummary>, p: Id, kids: seq<ItemSummary>) {
    IsFamily(byId, p, kids) && Sorted(kids, Earlier)
  }

  lemma FamilyExists(byId: map<Id, ItemSummary>, p: Id)
    requires Keyed(byId)
    ensures exists kids :: IsSortedFamily(byId, p, kids)
  {
    var kids := FamilyFor(byId, byId.Keys, p);
    assert byId.Keys - byId.Keys == {};
    SortFamily(byId, p, kids);
    assert IsSortedFamily(byId, p, Sort(kids, Earlier));
  }

  ghost function FamilyOf(byId: map<Id, ItemSummary>, p: Id): (kids: seq<ItemSummary>)
    requires Keyed(byId)
    ensures IsSortedFamily(byId, p, kids)
  {
    FamilyExists(byId, p);
    var kids :| IsSortedFamily(byId, p, kids);
    kids
  }

  /** Any sessions have an index. */
  lemma IndexOf(byId: map<Id, ItemSummary>) returns (ix: Index)
    requires Keyed(byId)
    ensures ix.byId == byId && Indexes(ix)
  {
    var parents := set id | id in byId && ParentOf(byId[id]).Some? :: ParentOf(byId[id]).value;
    ix := Index(byId, map p | p in parents :: FamilyOf(byId, p));
    forall p ensures IsSortedFamily(byId, p, Kids(ix.children, p)) {
      if p !in parents {
        assert IsFamily(byId, p, []);
      }
    }
  }

  // ---------- which roots an endless chain may have ----------

  /** Of a chain with no end, the roots are exactly what visiting its ids in some order
      chooses. */
  lemma RootsAreTheChoices(byId: map<Id, ItemSummary>, currentId: Id, seen: set<Id>, r: Id)
    requires Endless(byId, currentId) && forall x :: x in seen <==> Reaches(byId, currentId, x)
    ensures IsRoot(byId, currentId, r) <==> exists order :: Arranges(order, seen) && SmallestAlong(order) == r
  {
    assert Up(byId, currentId, 0) == Some(currentId);
    assert currentId in seen;
    assert currentId != "" ==> "" !in seen by {
      if currentId != "" && "" in seen {
        var n: nat :| Up(byId, currentId, n) == Some("");
        ParentsAreNamed(byId, currentId, n);
      }
    }
    if IsRoot(byId, currentId, r) {
      var order := ChoiceOf(byId, currentId, seen, r);
    }
    if order :| Arranges(order, seen) && SmallestAlong(order) == r {
      SmallestIsSeen(order);
      if currentId != "" {
        SmallestIsFirst(order);
      }
    }
  }

  lemma ChoiceOf(byId: map<Id, ItemSummary>, currentId: Id, seen: set<Id>, r: Id) returns (order: seq<Id>)
    requires Endless(byId, currentId) && IsRoot(byId, currentId, r) && currentId in seen
    requires forall x :: x in seen <==> Reaches(byId, currentId, x)
    requires currentId != "" ==> "" !in seen
    ensures Arranges(order, seen) && SmallestAlong(order) == r
  {
    if currentId == "" {
      order := ChooseAny(seen, r);
    } else {
      var n: nat :| Up(byId, currentId, n) == Some(r);
      assert Up(byId, currentId, n + 1).Some?;
      order := Arrangement(seen);
      SmallestIsFirst(order);
      LessIsTotal(r, SmallestAlong(order));
    }
  }

  /** With the empty id among the ids, any of them may be chosen. */
  lemma ChooseAny(ids: set<Id>, r: Id) returns (order: seq<Id>)
    requires "" in ids && r in ids
    ensures Arranges(order, ids) && SmallestAlong(order) == r
  {
    hide Less, SmallestAlong;
    var rest := Arrangement(ids - {"", r});
    NoRepeatsAppend(rest, "");
    EmptyLast(rest);
    order := rest + [""];
    if r != "" {
      NoRepeatsAppend(order, r);
      AfterEmpty(order, r);
      order := order + [r];
    }
  }

  lemma EmptyLast(rest: seq<Id>)
    ensures SmallestAlong(rest + [""]) == ""
  {
    assert (rest + [""])[..|rest|] == rest;
    var best := SmallestAlong(rest);
    assert best != "" ==> Less("", best);
  }

  lemma AfterEmpty(order: seq<Id>, r: Id)
    requires SmallestAlong(order) == ""
    ensures SmallestAlong(order + [r]) == r
  {
    assert (order + [r])[..|order|] == order;
  }

  // ---------- the order of the picker index ----------

  /** Entry k is the last user session of the index under its id. */
  ghost predicate LastUser(items: seq<ItemSummary>, k: int, id: Id) {
    && 0 <= k < |items| && items[k].kind.UserSession? && items[k].id == id
    && forall j :: k < j < |items| ==> !(items[j].kind.UserSession? && items[j].id == id)
  }

  /** The sessions a tree is built from: the last user session of the index under each id,
      where that one belongs to the project. */
  lemma {:induction false} ConsideredExactly(items: seq<ItemSummary>, id: Id, projectId: string)
    ensures id in Users(items) <==> exists k :: LastUser(items, k, id)
    ensures forall k :: LastUser(items, k, id) ==> id in Users(items) && Users(items)[id] == items[k]
    ensures id in SameProject(Users(items), projectId) <==> exists k :: LastUser(items, k, id) && items[k].projectId == projectId
    ensures id in SameProject(Users(items), projectId) ==> SameProject(Users(items), projectId)[id] == Users(items)[id]
  {
    if items != [] {
      var n := |items| - 1;
      ConsideredExactly(items[..n], id, projectId);
      if items[n].kind.UserSession? && items[n].id == id {
        assert LastUser(items, n, id);
        forall k | LastUser(items, k, id) ensures k == n {
        }
      } else {
        forall k ensures LastUser(items, k, id) <==> LastUser(items[..n], k, id) {
        }
      }
    }
  }

  /** No two different user sessions share an id. */
  ghost predicate DistinctUsers(items: seq<ItemSummary>) {
    forall a, b :: a in items && b in items && a.kind.UserSession? && b.kind.UserSession? && a.id == b.id ==> a == b
  }

  lemma MoveLast(items: seq<ItemSummary>, x: ItemSummary) returns (other: seq<ItemSummary>)
    requires x in items && x.kind.UserSession?
    ensures multiset(other) == multiset(items) && x.id in Users(other) && Users(other)[x.id] == x
  {
    var i :| 0 <= i < |items| && items[i] == x;
    var rest := items[..i] + items[i + 1..];
    other := rest + [x];
    assert items == items[..i] + [x] + items[i + 1..];
    assert other[..|other| - 1] == rest;
  }

  /** The sessions read from the index are the same for every order of its entries
      exactly if no two different user sessions share an id. */
  lemma UsersIgnoreOrder(items: seq<ItemSummary>)
    ensures (forall other :: multiset(other) == multiset(items) ==> Users(other) == Users(items)) <==> DistinctUsers(items)
  {
    if DistinctUsers(items) {
      forall other | multiset(other) == multiset(items) ensures Users(other) == Users(items) {
        SameElements(other, items);
        UsersAreKeyed(items);
        UsersAreKeyed(other);
      }
    } else {
      var a, b :| a in items && b in items && a.kind.UserSession? && b.kind.UserSession? && a.id == b.id && a != b;
      var p := MoveLast(items, a);
      var q := MoveLast(items, b);
      assert Users(p) != Users(q);
    }
  }

  /** When ids are not shared, shuffling the picker index leaves the tree as it was. */
  lemma ForkTreeIgnoresOrder(items: seq<ItemSummary>, other: seq<ItemSummary>, currentId: Id, t: Option<Node>, u: Option<Node>)
    requires multiset(items) == multiset(other) && DistinctUsers(items) && !UnsettledAmong(Users(items), currentId)
    requires IsForkTree(items, currentId, t) && IsForkTree(other, currentId, u)
    ensures t == u
  {
    hide IsTreeFor, Users, UnsettledAmong;
    UsersIgnoreOrder(items);
    assert Users(other) == Users(items);
    OneTree(Users(items), currentId, t, u);
  }

  // ---------- what each node says ----------

  /** Created before the other, or at the same time under an id that comes first. */
  predicate Older(a: ItemSummary, b: ItemSummary) {
    a.createdAt < b.createdAt || (a.createdAt == b.createdAt && Less(a.id, b.id))
  }

  /** A node and its children tell the truth about the sessions, children oldest first. */
  ghost predicate Faithful(byId: map<Id, ItemSummary>, currentId: Id, node: Node)
    decreases node, 1
  {
    && (node.missing <==> node.id !in byId) && (node.current <==> node.id == currentId)
    && node.title == (if node.id in byId then byId[node.id].title else "")
    && node.forkPointId == (if node.id in byId && byId[node.id].forkedFrom.Some? then byId[node.id].forkedFrom.value.headId else "")
    && FaithfulAll(byId, currentId, node.id, node.children)
  }

  ghost predicate FaithfulAll(byId: map<Id, ItemSummary>, currentId: Id, parent: Id, nodes: seq<Node>)
    decreases nodes, 0
  {
    nodes == [] ||
    (&& Parent(byId, nodes[0].id) == Some(parent)
     && (forall n :: n in nodes[1..] ==> n.id in byId && Older(byId[nodes[0].id], byId[n.id]))
     && Faithful(byId, currentId, nodes[0]) && FaithfulAll(byId, currentId, parent, nodes[1..]))
  }

  lemma {:induction false} BuiltFromKids(ix: Index, currentId: Id, kids: seq<ItemSummary>, path: set<Id>)
    requires Indexes(ix) && forall k :: k in kids ==> k.id in ix.byId
    ensures forall n :: n in BuildAll(ix, currentId, kids, path) ==> exists k :: k in kids && k.id == n.id
    decreases |kids|
  {
    hide Indexes;
    if kids != [] {
      OneMoreNode(ix, currentId, kids, path);
      BuiltFromKids(ix, currentId, kids[1..], path);
      var all, rest := BuildAll(ix, currentId, kids, path), BuildAll(ix, currentId, kids[1..], path);
      forall n | n in all ensures exists k :: k in kids && k.id == n.id {
        if n in rest {
          var k :| k in kids[1..] && k.id == n.id;
        } else {
          assert n == all[0] && n.id == kids[0].id;
        }
      }
    }
  }

  /** Every node of a built tree is faithful: it names its own session, hangs under the
      parent that session names, and its siblings stand oldest first. */
  lemma {:induction false} BuiltIsFaithful(ix: Index, currentId: Id, id: Id, path: set<Id>)
    requires Indexes(ix)
    ensures Faithful(ix.byId, currentId, Build(ix, currentId, id, path))
    decreases |ix.byId.Keys - (path + {id})|, 1, 0
  {
    var kids := Kids(ix.children, id);
    assert IsFamily(ix.byId, id, kids);
    FamilyIsOrdered(ix.byId, id, kids);
    BuiltAllFaithful(ix, currentId, id, kids, path + {id});
  }

  lemma OlderIsEarlier(a: ItemSummary, b: ItemSummary)
    ensures Older(a, b) <==> Earlier(a, b)
  {
  }

  lemma {:induction false} BuiltAllFaithful(ix: Index, currentId: Id, id: Id, kids: seq<ItemSummary>, path: set<Id>)
    requires Indexes(ix) && NoRepeats(kids) && Sorted(kids, Earlier) && Decides(Earlier, kids)
    requires forall k :: k in kids ==> k.id in ix.byId && ix.byId[k.id] == k && ParentOf(k) == Some(id)
    ensures FaithfulAll(ix.byId, currentId, id, BuildAll(ix, currentId, kids, path))
    decreases |ix.byId.Keys - path|, 0, |kids|
  {
    hide Indexes, Earlier, Older, Build;
    if kids != [] {
      var rest := kids[1..];
      assert kids[0] in kids && forall k :: k in rest ==> k in kids;
      OneMoreNode(ix, currentId, kids, path);
      BuiltAllFaithful(ix, currentId, id, rest, path);
      if kids[0].id !in path {
        PathGrows(ix.byId.Keys, path, kids[0].id);
        BuiltIsFaithful(ix, currentId, kids[0].id, path);
        BuiltFromKids(ix, currentId, rest, path);
        forall n | n in BuildAll(ix, currentId, rest, path) ensures n.id in ix.byId && Older(kids[0], ix.byId[n.id]) {
          var k :| k in rest && k.id == n.id;
          assert k in kids && !Earlier(k, kids[0]) && k != kids[0];
          OlderIsEarlier(kids[0], k);
        }
      }
    }
  }
}
