/** The walk up the owner chain that gives a finding its parent, and so its deduplication anchor. */
module OwnerWalk {
  import opened Types
  import opened JobFindings

  const MAX_DEPTH := 10

  datatype Node = Node(kind: string, name: string)

  /** An object on the way up: what it is, its UID, and its owner references. */
  datatype Hop = Hop(node: Node, uid: UID, refs: seq<OwnerRef>)

  /** The objects of the namespace that can be fetched, by their owner references. */
  type Owners = map<Node, seq<OwnerRef>>

  predicate KnownKind(kind: string) {
    kind in ["Pod", "ReplicaSet", "Deployment", "StatefulSet", "DaemonSet", "Job", "CronJob", "ConfigMap", "Node"]
  }

  function OwnerNode(ref: OwnerRef): Node {
    Node(ref.kind, ref.name)
  }

  function Rendered(n: Node): string {
    n.kind + "/" + n.name
  }

  /** The owner can be climbed to. */
  predicate Climbable(objs: Owners, h: Hop) {
    h.refs != [] && KnownKind(h.refs[0].kind) && OwnerNode(h.refs[0]) in objs
  }

  function Climb(objs: Owners, h: Hop): Hop
    requires Climbable(objs, h)
  {
    Hop(OwnerNode(h.refs[0]), h.refs[0].uid, objs[OwnerNode(h.refs[0])])
  }

  /** Where the walk ends with `left` steps to go. */
  function Walk(objs: Owners, h: Hop, visited: set<UID>, left: nat): Hop
    decreases left
  {
    if left == 0 || !Climbable(objs, h) || h.refs[0].uid in visited then h
    else Walk(objs, Climb(objs, h), visited + {h.refs[0].uid}, left - 1)
  }

  lemma WalkClimbs(objs: Owners, h: Hop, visited: set<UID>, left: nat)
    requires left > 0 && Climbable(objs, h) && h.refs[0].uid !in visited
    ensures Walk(objs, h, visited, left) == Walk(objs, Climb(objs, h), visited + {h.refs[0].uid}, left - 1)
  {
  }

  lemma WalkStops(objs: Owners, h: Hop, visited: set<UID>, left: nat)
    requires left == 0 || !Climbable(objs, h) || h.refs[0].uid in visited
    ensures Walk(objs, h, visited, left) == h
  {
  }

  function Parent(objs: Owners, h: Hop): string {
    Rendered(Walk(objs, h, {h.uid}, MAX_DEPTH).node)
  }

  /** `lookups` counts the objects fetched, or tried in vain. */
  method GetParent(objs: Owners, h: Hop) returns (parent: string, lookups: nat)
    ensures parent == Parent(objs, h)
    ensures lookups <= MAX_DEPTH
  {
    lookups := 0;
    if |h.refs| == 0 {
      WalkStops(objs, h, {h.uid}, MAX_DEPTH);
      return Rendered(h.node), lookups;
    }
    var visited := {h.uid};
    var kind, name, refs := h.node.kind, h.node.name, h.refs;
    ghost var at := h;
    for depth := 0 to MAX_DEPTH
      invariant lookups == depth
      invariant at.node == Node(kind, name) && at.refs == refs
      invariant Walk(objs, at, visited, MAX_DEPTH - depth) == Walk(objs, h, {h.uid}, MAX_DEPTH)
    {
      if |refs| == 0 {
        WalkStops(objs, at, visited, MAX_DEPTH - depth);
        return kind + "/" + name, lookups;
      }
      var owner := refs[0];
      if owner.uid in visited {
        WalkStops(objs, at, visited, MAX_DEPTH - depth);
        return kind + "/" + name, lookups;
      }
      if !KnownKind(owner.kind) {
        WalkStops(objs, at, visited, MAX_DEPTH - depth);
        return kind + "/" + name, lookups;
      }
      lookups := lookups + 1;
      if OwnerNode(owner) !in objs {
        WalkStops(objs, at, visited, MAX_DEPTH - depth);
        return kind + "/" + name, lookups;
      }
      WalkClimbs(objs, at, visited, MAX_DEPTH - depth);
      at := Climb(objs, at);
      visited := visited + {owner.uid};
      kind, name, refs := owner.kind, owner.name, objs[OwnerNode(owner)];
    }
    return kind + "/" + name, lookups;
  }

  // ---- Chains ----

  /** Each hop is the first owner of the one before. */
  ghost predicate Chain(objs: Owners, path: seq<Hop>) {
    path != [] && forall i :: 0 <= i < |path| - 1 ==> Climbable(objs, path[i]) && path[i + 1] == Climb(objs, path[i])
  }

  /** The walk may not go on from the end of the path: it is as far up as allowed, has no owner to climb to,
      or its owner was met before. */
  ghost predicate Ends(objs: Owners, path: seq<Hop>, visited: set<UID>, left: nat)
    requires path != []
  {
    var end := path[|path| - 1];
    || |path| == left + 1 || !Climbable(objs, end)
    || end.refs[0].uid in visited || exists i :: 0 < i < |path| && path[i].uid == end.refs[0].uid
  }

  /** On any owner store the walk follows the first-owner chain, meets no UID twice, and ends where it may
      not go on. */
  lemma {:induction false} WalkStaysOnChain(objs: Owners, h: Hop, visited: set<UID>, left: nat) returns (path: seq<Hop>)
    ensures Chain(objs, path) && path[0] == h && |path| <= left + 1 && path[|path| - 1] == Walk(objs, h, visited, left)
    ensures forall i :: 0 < i < |path| ==> path[i].uid !in visited
    ensures forall i, j :: 0 < i < j < |path| ==> path[i].uid != path[j].uid
    ensures Ends(objs, path, visited, left)
    decreases left
  {
    if left == 0 || !Climbable(objs, h) || h.refs[0].uid in visited {
      path := [h];
    } else {
      var rest := WalkStaysOnChain(objs, Climb(objs, h), visited + {h.refs[0].uid}, left - 1);
      path := [h] + rest;
      EndsAfter(objs, h, rest, visited, left);
    }
  }

  /** One hop more at the start does not change where the walk ends. */
  lemma EndsAfter(objs: Owners, h: Hop, rest: seq<Hop>, visited: set<UID>, left: nat)
    requires rest != [] && left > 0 && h.refs != [] && rest[0].uid == h.refs[0].uid
    requires Ends(objs, rest, visited + {h.refs[0].uid}, left - 1)
    ensures Ends(objs, [h] + rest, visited, left)
  {
    var path, end := [h] + rest, rest[|rest| - 1];
    assert path[1] == rest[0] && path[|path| - 1] == end;
    if i :| Climbable(objs, end) && 0 < i < |rest| && rest[i].uid == end.refs[0].uid {
      assert path[i + 1].uid == end.refs[0].uid;
    }
  }

  /** A chain from an object to its root, on which no UID occurs twice. */
  ghost predicate Lineage(objs: Owners, path: seq<Hop>) {
    && Chain(objs, path)
    && path[|path| - 1].refs == []
    && forall i, j :: 0 <= i < j < |path| ==> path[i].uid != path[j].uid
  }

  function Min(a: int, b: int): int {
    if a <= b then a else b
  }

  lemma {:induction false} WalkFollows(objs: Owners, path: seq<Hop>, i: nat, visited: set<UID>, left: nat)
    requires Lineage(objs, path) && i < |path| && forall j :: i < j < |path| ==> path[j].uid !in visited
    ensures Walk(objs, path[i], visited, left) == path[Min(|path| - 1, i + left)]
    decreases left
  {
    if i == |path| - 1 {
      assert !Climbable(objs, path[i]);
    } else if left > 0 {
      assert Climbable(objs, path[i]) && path[i + 1] == Climb(objs, path[i]);
      WalkFollows(objs, path, i + 1, visited + {path[i + 1].uid}, left - 1);
    }
  }

  /** Each member of a lineage resolves to the root, or to the tenth owner above it if that comes first. */
  lemma ParentInLineage(objs: Owners, path: seq<Hop>, i: nat)
    requires Lineage(objs, path) && i < |path|
    ensures Parent(objs, path[i]) == Rendered(path[Min(|path| - 1, i + MAX_DEPTH)].node)
  {
    WalkFollows(objs, path, i, {path[i].uid}, MAX_DEPTH);
  }

  /** On a lineage no owner comes up twice under the same kind and name either. */
  lemma OwnersDiffer(objs: Owners, path: seq<Hop>, i: nat, j: nat)
    requires Lineage(objs, path) && 0 < i < j < |path|
    ensures path[i].node != path[j].node
  {
    assert path[i] == Climb(objs, path[i - 1]) && path[j] == Climb(objs, path[j - 1]);
    assert Climbable(objs, path[i]) && path[i + 1] == Climb(objs, path[i]);
    if j < |path| - 1 {
      assert path[j + 1] == Climb(objs, path[j]);
    }
  }

  predicate NoSlash(s: string) {
    '/' !in s
  }

  lemma KindsHaveNoSlash(kind: string)
    requires KnownKind(kind)
    ensures NoSlash(kind)
  {
  }

  lemma RenderedInjective(a: Node, b: Node)
    requires NoSlash(a.kind) && NoSlash(b.kind) && Rendered(a) == Rendered(b)
    ensures a == b
  {
    var s := Rendered(a);
    assert s[|a.kind|] == '/' && s[|b.kind|] == '/';
    assert forall i :: 0 <= i < |a.kind| ==> s[i] == a.kind[i];
    assert forall i :: 0 <= i < |b.kind| ==> s[i] == b.kind[i];
    assert |a.kind| == |b.kind|;
    assert a.kind == s[..|a.kind|] && b.kind == s[..|a.kind|];
    assert a.name == s[|a.kind| + 1..] && b.name == s[|a.kind| + 1..];
  }

  /** An object and all its ancestors share one deduplication anchor exactly when its lineage has at
      most ten owners; the anchor is then the root. */
  lemma AnchorsAgreeIff(objs: Owners, path: seq<Hop>)
    requires Lineage(objs, path)
    ensures (forall i :: 0 <= i < |path| ==> Parent(objs, path[i]) == Rendered(path[|path| - 1].node)) <==> |path| - 1 <= MAX_DEPTH
    ensures (forall i :: 0 <= i < |path| ==> Parent(objs, path[i]) == Parent(objs, path[0])) <==> |path| - 1 <= MAX_DEPTH
  {
    forall i | 0 <= i < |path| ensures Parent(objs, path[i]) == Rendered(path[Min(|path| - 1, i + MAX_DEPTH)].node) {
      ParentInLineage(objs, path, i);
    }
    if |path| - 1 > MAX_DEPTH {
      TenthIsNotNext(objs, path);
      assert Parent(objs, path[0]) != Parent(objs, path[1]);
    }
  }

  lemma TenthIsNotNext(objs: Owners, path: seq<Hop>)
    requires Lineage(objs, path) && |path| - 1 > MAX_DEPTH
    ensures Rendered(path[MAX_DEPTH].node) != Rendered(path[MAX_DEPTH + 1].node)
    ensures Rendered(path[MAX_DEPTH].node) != Rendered(path[|path| - 1].node)
  {
    OwnersDiffer(objs, path, MAX_DEPTH, MAX_DEPTH + 1);
    OwnersDiffer(objs, path, MAX_DEPTH, |path| - 1);
    assert path[9 + 1] == Climb(objs, path[9]) && path[10 + 1] == Climb(objs, path[10]);
    assert path[|path| - 2 + 1] == Climb(objs, path[|path| - 2]);
    KindsHaveNoSlash(path[9].refs[0].kind);
    KindsHaveNoSlash(path[10].refs[0].kind);
    KindsHaveNoSlash(path[|path| - 2].refs[0].kind);
    if Rendered(path[10].node) == Rendered(path[11].node) {
      RenderedInjective(path[10].node, path[11].node);
    }
    if Rendered(path[10].node) == Rendered(path[|path| - 1].node) {
      RenderedInjective(path[10].node, path[|path| - 1].node);
    }
  }

  // ---- Which kinds are climbed to ----

  /** Workloads and what they are made of, ConfigMaps and Nodes. */
  predicate Ownerlike(kind: string) {
    || kind == "Pod" || kind == "ReplicaSet" || kind == "Deployment" || kind == "StatefulSet" || kind == "DaemonSet"
    || kind == "Job" || kind == "CronJob" || kind == "ConfigMap" || kind == "Node"
  }

  /** `h`'s first owner reference is to `owner`, which can be fetched with the references it has. */
  predicate FirstOwner(objs: Owners, h: Hop, owner: Hop) {
    && h.refs != [] && h.refs[0].kind == owner.node.kind && h.refs[0].name == owner.node.name && h.refs[0].uid == owner.uid
    && owner.node in objs && objs[owner.node] == owner.refs
  }

  /** Through owners of these kinds, Pod to ReplicaSet to Deployment say, and no more than ten of them, an
      object resolves to its root. */
  lemma ResolvesToRoot(objs: Owners, path: seq<Hop>)
    requires 1 <= |path| <= 11 && path[|path| - 1].refs == []
    requires forall i, j :: 0 <= i && j == i + 1 < |path| ==> FirstOwner(objs, path[i], path[j]) && Ownerlike(path[j].node.kind)
    requires forall i, j :: 0 <= i < j < |path| ==> path[i].uid != path[j].uid
    ensures var root := path[|path| - 1].node; Parent(objs, path[0]) == root.kind + "/" + root.name
  {
    forall i | 0 <= i < |path| - 1 ensures Climbable(objs, path[i]) && path[i + 1] == Climb(objs, path[i]) {
      assert FirstOwner(objs, path[i], path[i + 1]);
    }
    ParentInLineage(objs, path, 0);
  }

  /** An owner of any other kind, or one that cannot be fetched, is not climbed to. */
  lemma StopsBelowOthers(objs: Owners, h: Hop)
    requires h.refs != [] && (!Ownerlike(h.refs[0].kind) || Node(h.refs[0].kind, h.refs[0].name) !in objs)
    ensures Parent(objs, h) == h.node.kind + "/" + h.node.name
  {
    WalkStops(objs, h, {h.uid}, MAX_DEPTH);
  }

  // ---- A chain that is too long ----

  /** The `i`th of a chain of ReplicaSets up to the `n`th, each named by its position in letters. */
  function LinkAt(i: nat, n: nat): Hop
    requires i <= n
  {
    Hop(LinkNode(i), i, if i < n then [OwnerRef("ReplicaSet", LinkNode(i + 1).name, i + 1)] else [])
  }

  function LinkNode(i: nat): Node {
    Node("ReplicaSet", seq(i + 1, _ => 'r'))
  }

  function LinkNodes(n: nat): set<Node> {
    set i: nat | i <= n :: LinkNode(i)
  }

  function LinkOwners(n: nat): Owners {
    map k | k in LinkNodes(n) :: LinkAt(|k.name| - 1, n).refs
  }

  lemma LinkClimbs(i: nat, n: nat)
    requires i < n
    ensures Climbable(LinkOwners(n), LinkAt(i, n)) && Climb(LinkOwners(n), LinkAt(i, n)) == LinkAt(i + 1, n)
  {
    assert OwnerNode(LinkAt(i, n).refs[0]) == LinkNode(i + 1);
    assert LinkNode(i + 1) in LinkNodes(n);
  }

  lemma LongLineage(n: nat) returns (path: seq<Hop>)
    ensures Lineage(LinkOwners(n), path) && |path| == n + 1
  {
    path := seq(n + 1, i requires 0 <= i <= n => LinkAt(i, n));
    assert forall i :: 0 <= i <= n ==> path[i] == LinkAt(i, n);
    LinksAreLineage(path, n);
  }

  lemma LinksAreLineage(path: seq<Hop>, n: nat)
    requires |path| == n + 1 && forall i :: 0 <= i <= n ==> path[i] == LinkAt(i, n)
    ensures Lineage(LinkOwners(n), path)
  {
    forall i | 0 <= i < |path| - 1 ensures Climbable(LinkOwners(n), path[i]) && path[i + 1] == Climb(LinkOwners(n), path[i]) {
      LinkClimbs(i, n);
    }
    forall i, j | 0 <= i < j < |path| ensures path[i].uid != path[j].uid {
      assert path[i].uid == i && path[j].uid == j;
    }
  }

  /** For every length above ten there is a chain of that many owners on which an object's anchor is not
      its owner's. */
  lemma LongChainSplits(n: nat) returns (objs: Owners, path: seq<Hop>)
    requires n > MAX_DEPTH
    ensures Lineage(objs, path) && |path| == n + 1
    ensures Parent(objs, path[0]) != Parent(objs, path[1])
  {
    objs := LinkOwners(n);
    path := LongLineage(n);
    ParentInLineage(objs, path, 0);
    ParentInLineage(objs, path, 1);
    TenthIsNotNext(objs, path);
  }
}
