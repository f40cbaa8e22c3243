/** What every step of the environment and of the operator keeps. */
module Invariant {
  import opened Manifests
  import opened Resources
  import opened Text
  import opened World

  // ----- the versions

  predicate HasD(v: Version) {
    D in v.obj.finalizers
  }

  /** Version `n` replaced one that carried D, and does not carry it. */
  predicate LosesD(vs: seq<Version>, n: nat) {
    n < |vs| && 0 <= vs[n].prev < |vs| && HasD(vs[vs[n].prev]) && !HasD(vs[n])
  }

  /** Version `n` dropped a finalizer other than K from the one it replaced. */
  predicate DropsOthers(vs: seq<Version>, n: nat) {
    n < |vs| && 0 <= vs[n].prev < |vs| && !KeepsOthers(vs[vs[n].prev].obj.finalizers, vs[n].obj.finalizers)
  }

  predicate KeepsOthers(before: seq<string>, after: seq<string>) {
    Elements(before) - Elements(after) <= {K}
  }

  /** What the server lets one version of an object be followed by: the generation
      counts changes of the spec, and the deletion; deletion is for good, and no
      finalizer comes on after it. */
  predicate Succeeds(a: Serving, b: Serving) {
    && b.key == a.key && b.uid == a.uid && (a.deleting ==> b.deleting)
    && b.generation == a.generation + (if b.spec != a.spec || b.deleting != a.deleting then 1 else 0)
    && (a.deleting ==> Elements(b.finalizers) <= Elements(a.finalizers))
  }

  /** No finalizer comes on but K and D. */
  predicate AddsOwn(before: seq<string>, after: seq<string>) {
    Elements(after) - Elements(before) <= {K, D}
  }

  /** Version `n` differs from the one it replaced in its finalizers only, none but
      K and D being new, or in its status only. */
  predicate OnePart(vs: seq<Version>, n: nat) {
    && n < |vs| && 0 <= vs[n].prev < |vs|
    && var a, b := vs[vs[n].prev].obj, vs[n].obj;
       && (b == a.(rv := n, finalizers := b.finalizers) || b == a.(rv := n, status := b.status))
       && AddsOwn(a.finalizers, b.finalizers)
  }

  predicate VersionOK(vs: seq<Version>, n: nat)
    requires n < |vs|
  {
    var v := vs[n];
    && v.obj.rv == n && -1 <= v.prev < n && v.obj.key.name != ""
    && 0 <= v.obj.uid <= n && vs[v.obj.uid].obj.key == v.obj.key
    && (v.gone <==> v.obj.deleting && v.obj.finalizers == [])
    && (v.prev < 0 ==> v.obj.uid == n && v.obj.generation == 1 && !v.obj.deleting)
    && (v.prev >= 0 ==> !vs[v.prev].gone && Succeeds(vs[v.prev].obj, v.obj))
  }

  ghost predicate VersionsOK(w: World) {
    forall n: nat | n < |w.versions| :: VersionOK(w.versions, n)
  }

  /** Under one key, objects follow each other and stay deleted. */
  predicate Ordered(a: Version, b: Version) {
    a.obj.key == b.obj.key ==>
      a.obj.uid <= b.obj.uid && (a.obj.uid == b.obj.uid && a.obj.deleting ==> b.obj.deleting)
  }

  ghost predicate OrderOK(w: World) {
    forall m: nat, n: nat | m <= n < |w.versions| :: Ordered(w.versions[m], w.versions[n])
  }

  ghost predicate LiveOK(w: World) {
    forall key | key in w.live ::
      && w.live[key] < |w.versions|
      && w.versions[w.live[key]].obj.key == key
      && !w.versions[w.live[key]].gone
      && forall m: nat | m < |w.versions| && w.versions[m].obj.key == key :: m <= w.live[key]
  }

  predicate Replaces(vs: seq<Version>, s: nat, n: nat) {
    s < |vs| && vs[s].prev == n
  }

  /** A version that was not its object's last is live or was replaced. */
  ghost predicate Continued(w: World, n: nat)
    requires n < |w.versions|
  {
    var key := w.versions[n].obj.key;
    w.versions[n].gone || (key in w.live && w.live[key] == n) || exists s: nat :: Replaces(w.versions, s, n)
  }

  ghost predicate ContinuedOK(w: World) {
    forall n: nat | n < |w.versions| :: Continued(w, n)
  }

  // ----- copies of stored objects

  /** `o` is version `o.rv` as stored, or as edited in the cache after its
      release: some of its finalizers are then gone. */
  predicate Snap(vs: seq<Version>, released: set<nat>, o: Serving) {
    && 0 <= o.rv < |vs| && !vs[o.rv].gone
    && o == vs[o.rv].obj.(finalizers := o.finalizers)
    && (o.finalizers == vs[o.rv].obj.finalizers ||
        (o.rv in released && Elements(o.finalizers) <= Elements(vs[o.rv].obj.finalizers)))
  }

  predicate EntryOK(w: World, key: Key)
    requires key in w.cache
  {
    var e := w.cache[key];
    && e.at < |w.versions|
    && w.versions[e.at].obj.key == key
    && (e.obj.Some? ==> e.obj.value.rv == e.at && Snap(w.versions, w.released, e.obj.value))
  }

  ghost predicate CacheOK(w: World) {
    forall key | key in w.cache :: EntryOK(w, key)
  }

  /** The cache has been told of object `uid` or of a later one. */
  predicate Seen(w: World, key: Key, uid: int) {
    key in w.cache && w.cache[key].at < |w.versions| && w.versions[w.cache[key].at].obj.uid >= uid
  }

  /** D is only ever stored on objects the cache has been told of. */
  ghost predicate SeenOK(w: World) {
    forall n: nat | n < |w.versions| && HasD(w.versions[n]) ::
      Seen(w, w.versions[n].obj.key, w.versions[n].obj.uid)
  }

  /** A released version has been seen, and if it carried D it was being deleted. */
  predicate ReleaseOK(w: World, rv: nat) {
    && rv < |w.versions| && !w.versions[rv].gone
    && w.versions[rv].obj.key in w.cache && rv <= w.cache[w.versions[rv].obj.key].at
    && (HasD(w.versions[rv]) ==> w.versions[rv].obj.deleting)
  }

  ghost predicate ReleasedOK(w: World) {
    forall rv | rv in w.released :: ReleaseOK(w, rv)
  }

  // ----- the log

  ghost predicate Happened(log: seq<Action>, a: Action, before: nat) {
    exists i: nat :: i < before && i < |log| && log[i] == a
  }

  /** What teardown must have deleted. */
  predicate Covered(config: seq<Resource>, r: Resource) {
    r in config && !IsCRD(r) && OkToDelete(r)
  }

  /** Since it began at `b`, and up to `i`, the finalization of `key` still
      tracked other keys or deleted everything it must. */
  ghost predicate TornDown(config: seq<Resource>, log: seq<Action>, key: Key, b: nat, i: nat) {
    && b < i <= |log|
    && log[b].Finalizing? && log[b].key == key
    && (forall q: nat | b < q < i :: !log[q].Finalizing?)
    && (log[b].others ||
        forall r | Covered(config, r) :: exists q: nat :: b < q < i && log[q] == Removed(r.Id()))
  }

  ghost predicate Justified(config: seq<Resource>, log: seq<Action>, key: Key, i: nat) {
    exists b: nat :: TornDown(config, log, key, b, i)
  }

  ghost predicate ActionOK(w: World, j: nat)
    requires j < |w.log|
  {
    match w.log[j]
    case Wrote(rv, own) =>
      rv < |w.versions| && (own ==> OnePart(w.versions, rv)) &&
      (LosesD(w.versions, rv) || (own && DropsOthers(w.versions, rv)) ==>
         var prev := w.versions[rv].prev;
         prev in w.released && Happened(w.log, Released(w.versions[rv].obj.key, prev), j))
    case Released(key, rv) => rv < |w.versions| && w.versions[rv].obj.key == key && Justified(w.config, w.log, key, j)
    case Applied(uid, id, live) => 0 <= live < |w.versions| && w.versions[live].obj.uid == uid && HasD(w.versions[live])
    case _ => true
  }

  ghost predicate LogOK(w: World) {
    && (forall j: nat | j < |w.log| :: ActionOK(w, j))
    && (forall rv | rv in w.released ::
          rv < |w.versions| && Happened(w.log, Released(w.versions[rv].obj.key, rv), |w.log|))
  }

  predicate IsWrite(log: seq<Action>, j: nat, n: nat) {
    j < |log| && log[j].Wrote? && log[j].rv == n
  }

  /** Every version was written, and only over a released one if it loses D. */
  ghost predicate AllWritten(w: World) {
    forall n: nat | n < |w.versions| ::
      (LosesD(w.versions, n) ==> w.versions[n].prev in w.released) && Written(w.log, n)
  }

  ghost predicate Written(log: seq<Action>, n: nat) {
    exists j: nat :: IsWrite(log, j, n)
  }

  lemma WrittenStays(log: seq<Action>, log': seq<Action>)
    requires log <= log'
    ensures forall n: nat | Written(log, n) :: Written(log', n)
  {
    forall n: nat | Written(log, n) ensures Written(log', n) {
      var j: nat :| IsWrite(log, j, n);
      assert IsWrite(log', j, n);
    }
  }

  ghost predicate Inv(w: World) {
    && VersionsOK(w) && OrderOK(w) && LiveOK(w) && ContinuedOK(w)
    && CacheOK(w) && SeenOK(w) && ReleasedOK(w) && LogOK(w) && AllWritten(w)
  }

  // ----- growth

  predicate CacheForward(a: World, b: World) {
    forall key | key in a.cache :: key in b.cache && a.cache[key].at <= b.cache[key].at
  }

  /** Nothing is forgotten. */
  predicate Grows(a: World, b: World) {
    && a.config == b.config
    && a.versions <= b.versions
    && a.log <= b.log
    && a.released <= b.released
    && CacheForward(a, b)
  }

  lemma GrowsTransitive(a: World, b: World, c: World)
    requires Grows(a, b) && Grows(b, c)
    ensures Grows(a, c)
  {}

  /** No object carries D in the later world that did not in the earlier. */
  ghost predicate NoNewD(a: World, b: World) {
    forall n: nat | n < |b.versions| && HasD(b.versions[n]) ::
      exists m: nat :: m < |a.versions| && HasD(a.versions[m]) && a.versions[m].obj.uid == b.versions[n].obj.uid
  }

  lemma NoNewDTransitive(a: World, b: World, c: World)
    requires NoNewD(a, b) && NoNewD(b, c)
    ensures NoNewD(a, c)
  {
    forall n: nat | n < |c.versions| && HasD(c.versions[n])
      ensures exists m: nat :: m < |a.versions| && HasD(a.versions[m]) && a.versions[m].obj.uid == c.versions[n].obj.uid
    {
      var k: nat :| k < |b.versions| && HasD(b.versions[k]) && b.versions[k].obj.uid == c.versions[n].obj.uid;
      var m: nat :| m < |a.versions| && HasD(a.versions[m]) && a.versions[m].obj.uid == b.versions[k].obj.uid;
    }
  }

  /** What only the environment did between two worlds. */
  ghost predicate Env(a: World, b: World) {
    && Grows(a, b) && NoNewD(a, b)
    && a.released == b.released && a.servings == b.servings && a.cluster == b.cluster
    && (forall j: nat | |a.log| <= j < |b.log| :: b.log[j].Wrote? && !b.log[j].own)
  }

  lemma EnvIsGrowth(a: World, b: World)
    requires Env(a, b)
    ensures Grows(a, b) && NoNewD(a, b)
  {}

  lemma EnvTransitive(a: World, b: World, c: World)
    requires Env(a, b) && Env(b, c)
    ensures Env(a, c)
  {
    GrowsTransitive(a, b, c);
    NoNewDTransitive(a, b, c);
  }

  lemma EnvReflexive(w: World)
    ensures Env(w, w)
  {}

  // ----- copies and claims survive growth

  lemma SeenGrows(a: World, b: World, key: Key, uid: int)
    requires Inv(a) && Inv(b) && Grows(a, b) && Seen(a, key, uid)
    ensures Seen(b, key, uid)
  {
    var m, n := a.cache[key].at, b.cache[key].at;
    assert m <= n && EntryOK(a, key) && EntryOK(b, key);
    assert a.versions[m] == b.versions[m];
    assert Ordered(b.versions[m], b.versions[n]);
  }
}
