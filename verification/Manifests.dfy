/** Installing and tearing down a manifest: what is applied and deleted, in what
    order, wherever the calls stop. */
module Manifests {
  import opened Resources

  // ----- the manifest library: filters keep order, calls stop at the first error

  function Where(p: Resource -> bool, rs: seq<Resource>): seq<Resource> {
    if rs == [] then []
    else if p(rs[0]) then [rs[0]] + Where(p, rs[1..])
    else Where(p, rs[1..])
  }

  function Reversed(rs: seq<Resource>): seq<Resource> {
    if rs == [] then [] else Reversed(rs[1..]) + [rs[0]]
  }

  predicate IsRole(r: Resource) {
    r.kind == "Role" || r.kind == "ClusterRole"
  }

  predicate IsBinding(r: Resource) {
    r.kind == "RoleBinding" || r.kind == "ClusterRoleBinding"
  }

  predicate IsRBAC(r: Resource) {
    IsRole(r) || IsBinding(r)
  }

  predicate IsCRD(r: Resource) {
    r.kind == "CustomResourceDefinition"
  }

  predicate IsDeployment(r: Resource) {
    r.kind == "Deployment"
  }

  /** A Namespace is only deleted if the library created it. */
  predicate OkToDelete(r: Resource) {
    r.kind == "Namespace" ==> r.created
  }

  /** `Manifest.Delete` goes backwards and skips what it must not delete. */
  function DeletionOrder(rs: seq<Resource>): seq<Resource> {
    Where(OkToDelete, Reversed(rs))
  }

  // ----- the phases

  function Roles(m: seq<Resource>): seq<Resource> { Where(IsRole, m) }

  function Bindings(m: seq<Resource>): seq<Resource> { Where(IsBinding, m) }

  function Deployments(m: seq<Resource>): seq<Resource> { Where(IsDeployment, m) }

  function Plain(m: seq<Resource>): seq<Resource> { Where(r => !IsCRD(r) && !IsRBAC(r), m) }

  function RBAC(m: seq<Resource>): seq<Resource> { Where(IsRBAC, m) }

  /** Roles, then bindings, then everything. */
  function InstallPhases(m: seq<Resource>): seq<seq<Resource>> {
    [Roles(m), Bindings(m), m]
  }

  /** Deployments, then everything but CRDs and RBAC, then RBAC. */
  function TeardownPhases(m: seq<Resource>): seq<seq<Resource>> {
    [DeletionOrder(Deployments(m)), DeletionOrder(Plain(m)), DeletionOrder(RBAC(m))]
  }

  /** The calls of some phases, in sequence: a run that stops early makes a
      prefix of them. */
  function InSequence(phases: seq<seq<Resource>>): seq<Resource> {
    if phases == [] then [] else phases[0] + InSequence(phases[1..])
  }

  // ----- filters and reversal

  lemma {:induction false} WhereMembers(p: Resource -> bool, rs: seq<Resource>)
    ensures forall r :: r in Where(p, rs) <==> r in rs && p(r)
  {
    if rs != [] {
      WhereMembers(p, rs[1..]);
      assert rs == [rs[0]] + rs[1..];
    }
  }

  lemma {:induction false} ReversedMembers(rs: seq<Resource>)
    ensures forall r :: r in Reversed(rs) <==> r in rs
  {
    if rs != [] {
      ReversedMembers(rs[1..]);
      assert rs == [rs[0]] + rs[1..];
    }
  }

  lemma DeletionOrderMembers(rs: seq<Resource>)
    ensures forall r :: r in DeletionOrder(rs) <==> r in rs && OkToDelete(r)
  {
    ReversedMembers(rs);
    WhereMembers(OkToDelete, Reversed(rs));
  }

  /** Filtering keeps the order: it goes piece by piece. */
  lemma {:induction false} WhereInPieces(p: Resource -> bool, a: seq<Resource>, b: seq<Resource>)
    ensures Where(p, a + b) == Where(p, a) + Where(p, b)
  {
    if a == [] {
      assert a + b == b;
    } else {
      assert (a + b)[0] == a[0] && (a + b)[1..] == a[1..] + b;
      WhereInPieces(p, a[1..], b);
    }
  }

  lemma {:induction false} ReversedInPieces(a: seq<Resource>, b: seq<Resource>)
    ensures Reversed(a + b) == Reversed(b) + Reversed(a)
  {
    if a == [] {
      assert a + b == b;
    } else {
      assert (a + b)[0] == a[0] && (a + b)[1..] == a[1..] + b;
      ReversedInPieces(a[1..], b);
    }
  }

  /** A deletion goes backwards: of two pieces the later one goes first, and each
      resource unless it is a Namespace that the library did not create. */
  lemma DeletionGoesBackwards(a: seq<Resource>, b: seq<Resource>, r: Resource)
    ensures DeletionOrder(a + b) == DeletionOrder(b) + DeletionOrder(a)
    ensures DeletionOrder([]) == []
    ensures DeletionOrder([r]) == if r.kind == "Namespace" && !r.created then [] else [r]
  {
    ReversedInPieces(a, b);
    WhereInPieces(OkToDelete, Reversed(b), Reversed(a));
    assert Reversed([r]) == [r] && [r][1..] == [];
  }

  // ----- install order

  /** `r` occurs before position `i`. */
  predicate Before(calls: seq<Resource>, r: Resource, i: nat)
    requires i <= |calls|
  {
    r in calls[..i]
  }

  /** Wherever the calls stop: no (Cluster)RoleBinding is applied until every
      (Cluster)Role of the manifest has been, nothing that is neither until every
      binding has been, and once all calls are made every resource has been
      applied, and nothing else. */
  lemma InstallOrder(m: seq<Resource>, n: nat)
    requires n <= |InSequence(InstallPhases(m))|
    ensures var calls := InSequence(InstallPhases(m))[..n];
            && (forall i: nat, r | i < n && IsBinding(calls[i]) && r in m && IsRole(r) :: Before(calls, r, i))
            && (forall i: nat, r | i < n && !IsRBAC(calls[i]) && r in m && IsRBAC(r) :: Before(calls, r, i))
            && (forall r | r in calls :: r in m)
            && (n == |InSequence(InstallPhases(m))| ==> forall r | r in m :: r in calls)
  {
    hide Where, Before;
    var phases := InstallPhases(m);
    WhereMembers(IsRole, m);
    WhereMembers(IsBinding, m);
    ThreePhases(phases);
    var calls := InSequence(phases)[..n];
    forall i: nat, r | i < n && IsBinding(calls[i]) && r in m && IsRole(r) ensures Before(calls, r, i) {
      assert r in phases[0];
      PhaseReached(phases, n, i, 0, r);
    }
    forall i: nat, r | i < n && !IsRBAC(calls[i]) && r in m && IsRBAC(r) ensures Before(calls, r, i) {
      assert r in phases[if IsRole(r) then 0 else 1];
      PhaseReached(phases, n, i, if IsRole(r) then 0 else 1, r);
    }
  }

  /** By kinds: roles come before bindings, both before everything else. */
  lemma InstallOrderByKind(m: seq<Resource>, n: nat, i: nat, r: Resource)
    requires i < n <= |InSequence(InstallPhases(m))| && r in m
    ensures var calls := InSequence(InstallPhases(m))[..n];
            var roles, bindings := {"Role", "ClusterRole"}, {"RoleBinding", "ClusterRoleBinding"};
            && calls[i] in m
            && (calls[i].kind in bindings && r.kind in roles ==> r in calls[..i])
            && (calls[i].kind !in roles + bindings && r.kind in roles + bindings ==> r in calls[..i])
            && (n == |InSequence(InstallPhases(m))| ==> r in calls)
  {
    hide InSequence, InstallPhases;
    InstallOrder(m, n);
    var calls := InSequence(InstallPhases(m))[..n];
    assert IsBinding(calls[i]) && IsRole(r) ==> Before(calls, r, i);
    assert !IsRBAC(calls[i]) && IsRBAC(r) ==> Before(calls, r, i);
  }

  /** Each phase lists its resources as they were shipped. */
  lemma InstallKeepsOrder(a: seq<Resource>, b: seq<Resource>)
    ensures InstallPhases(a + b) == [Roles(a) + Roles(b), Bindings(a) + Bindings(b), a + b]
  {
    WhereInPieces(IsRole, a, b);
    WhereInPieces(IsBinding, a, b);
  }

  /** Three phases spelled out. */
  lemma ThreePhases(phases: seq<seq<Resource>>)
    requires |phases| == 3
    ensures InSequence(phases) == phases[0] + phases[1] + phases[2]
    ensures forall r :: r in InSequence(phases) <==> r in phases[0] || r in phases[1] || r in phases[2]
  {
    assert phases[1..][0] == phases[1] && phases[1..][1..][0] == phases[2] && phases[1..][1..][1..] == [];
    assert InSequence(phases[1..][1..]) == phases[2];
  }

  /** A call that belongs to no phase up to `k` comes after all of phase `k`. */
  lemma PhaseReached(phases: seq<seq<Resource>>, n: nat, i: nat, k: nat, r: Resource)
    requires |phases| == 3 && k < 2 && n <= |InSequence(phases)|
    requires i < n && forall j | 0 <= j <= k :: InSequence(phases)[i] !in phases[j]
    requires r in phases[k]
    ensures Before(InSequence(phases)[..n], r, i)
  {
    ThreePhases(phases);
    var calls := InSequence(phases);
    var first := if k == 0 then phases[0] else phases[0] + phases[1];
    var tail := if k == 0 then phases[1] + phases[2] else phases[2];
    assert calls == first + tail;
    assert forall c | c in first :: c in phases[0] || (k == 1 && c in phases[1]);
    PastPrefix(first, tail, i);
    assert calls[..n][..i] == calls[..i];
    assert r in first;
  }

  lemma PastPrefix(first: seq<Resource>, tail: seq<Resource>, i: nat)
    requires i < |first + tail| && (first + tail)[i] !in first
    ensures forall r | r in first :: r in (first + tail)[..i]
  {
    assert forall j | 0 <= j < |first| :: (first + tail)[j] == first[j];
    assert first <= (first + tail)[..i];
  }

  // ----- teardown order and cover

  /** Wherever the calls stop: CRDs and foreign Namespaces are never deleted,
      Deployments go first, no RBAC resource goes until every other deletable
      resource has, and all calls together cover exactly the deletable resources
      that are not CRDs. */
  lemma TeardownOrder(m: seq<Resource>, n: nat)
    requires n <= |InSequence(TeardownPhases(m))|
    ensures var calls := InSequence(TeardownPhases(m))[..n];
            && (forall r | r in calls :: r in m && !IsCRD(r) && OkToDelete(r))
            && (forall i: nat, r | i < n && !IsDeployment(calls[i]) && r in m && IsDeployment(r) ::
                  Before(calls, r, i))
            && (forall i: nat, r | i < n && IsRBAC(calls[i]) && r in m && !IsRBAC(r) && !IsCRD(r) && OkToDelete(r) ::
                  Before(calls, r, i))
            && (n == |InSequence(TeardownPhases(m))| ==>
                  forall r :: r in calls <==> r in m && !IsCRD(r) && OkToDelete(r))
  {
    hide DeletionOrder, Where, IsDeployment, IsRBAC, IsCRD, OkToDelete, Before;
    var phases := TeardownPhases(m);
    TeardownPhaseMembers(m);
    KindsApart();
    ThreePhases(phases);
    var calls := InSequence(phases)[..n];
    forall i: nat, r | i < n && !IsDeployment(calls[i]) && r in m && IsDeployment(r) ensures Before(calls, r, i) {
      PhaseReached(phases, n, i, 0, r);
    }
    forall i: nat, r | i < n && IsRBAC(calls[i]) && r in m && !IsRBAC(r) && !IsCRD(r) && OkToDelete(r)
      ensures Before(calls, r, i)
    {
      PhaseReached(phases, n, i, 1, r);
    }
    if n == |InSequence(phases)| {
      assert calls == InSequence(phases);
    }
  }

  /** By kinds: what is deleted, and what goes before what. */
  lemma TeardownOrderByKind(m: seq<Resource>, n: nat, i: nat, r: Resource)
    requires i < n <= |InSequence(TeardownPhases(m))|
    ensures var calls := InSequence(TeardownPhases(m))[..n];
            var rbac := {"Role", "ClusterRole", "RoleBinding", "ClusterRoleBinding"};
            var deleted := r in m && r.kind != "CustomResourceDefinition" && (r.kind == "Namespace" ==> r.created);
            && calls[i].kind != "CustomResourceDefinition" && (calls[i].kind == "Namespace" ==> calls[i].created)
            && (r in m && r.kind == "Deployment" && calls[i].kind != "Deployment" ==> r in calls[..i])
            && (deleted && r.kind !in rbac && calls[i].kind in rbac ==> r in calls[..i])
            && (n == |InSequence(TeardownPhases(m))| ==> (r in calls <==> deleted))
  {
    hide InSequence, TeardownPhases;
    TeardownOrder(m, n);
    var calls := InSequence(TeardownPhases(m))[..n];
    assert calls[i] in calls;
    assert r in m && IsDeployment(r) && !IsDeployment(calls[i]) ==> Before(calls, r, i);
    assert IsRBAC(calls[i]) && r in m && !IsRBAC(r) && !IsCRD(r) && OkToDelete(r) ==> Before(calls, r, i);
  }

  lemma KindsApart()
    ensures forall r :: IsDeployment(r) || IsRBAC(r) ==> !IsCRD(r) && OkToDelete(r)
    ensures forall r :: !(IsDeployment(r) && IsRBAC(r))
  {}

  lemma TeardownPhaseMembers(m: seq<Resource>)
    ensures forall r :: r in TeardownPhases(m)[0] <==> r in m && IsDeployment(r)
    ensures forall r :: r in TeardownPhases(m)[1] <==> r in m && !IsCRD(r) && !IsRBAC(r) && OkToDelete(r)
    ensures forall r :: r in TeardownPhases(m)[2] <==> r in m && IsRBAC(r)
  {
    WhereMembers(IsDeployment, m);
    WhereMembers(r => !IsCRD(r) && !IsRBAC(r), m);
    WhereMembers(IsRBAC, m);
    DeletionOrderMembers(Deployments(m));
    DeletionOrderMembers(Plain(m));
    DeletionOrderMembers(RBAC(m));
  }

  // ----- the cluster

  type Cluster = map<ResourceId, Resource>

  function Ids(rs: seq<Resource>): set<ResourceId> {
    set r | r in rs :: r.Id()
  }

  /** The cluster after applying resources one by one. */
  function Put(cluster: Cluster, rs: seq<Resource>): (after: Cluster)
    decreases |rs|
    ensures after.Keys == cluster.Keys + Ids(rs)
    ensures forall id | id in cluster && id !in Ids(rs) :: after[id] == cluster[id]
    ensures forall id | id in Ids(rs) :: after[id] in rs && after[id].Id() == id
  {
    if rs == [] then cluster
    else
      var after := Put(cluster[rs[0].Id() := rs[0]], rs[1..]);
      assert rs == [rs[0]] + rs[1..];
      assert Ids(rs) == {rs[0].Id()} + Ids(rs[1..]);
      after
  }
}
