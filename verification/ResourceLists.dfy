/** Resource requirements on the heap: quantity lists are mutable maps behind
    references, and merging an override into an empty list shares the override's
    own map with the container. */
module ResourceLists {
  import opened Conditions
  import opened Resources
  import opened Transforms

  class Quantities {
    var entries: map<string, string>

    constructor (entries: map<string, string>)
      ensures this.entries == entries
    {
      this.entries := entries;
    }
  }

  /** What a reference to a list reads as; nil as the empty one. */
  function Entries(q: Quantities?): ResourceList
    reads q
  {
    if q == null then map[] else q.entries
  }

  /** An override of the spec: a struct that holds references. */
  datatype Override = Override(container: string, limits: Quantities?, requests: Quantities?)
  {
    function Value(): ResourceOverride
      reads limits, requests
    {
      ResourceOverride(container, Entries(limits), Entries(requests))
    }
  }

  predicate Within(q: Quantities?, lists: set<Quantities>) {
    q == null || q in lists
  }

  /** The overrides on the heap, whose lists are among `lists`, read as `spec`. */
  ghost predicate Reads(overrides: seq<Override>, lists: set<Quantities>, spec: seq<ResourceOverride>)
    reads lists
  {
    && |overrides| == |spec|
    && forall i | 0 <= i < |overrides| ::
         && Within(overrides[i].limits, lists) && Within(overrides[i].requests, lists)
         && overrides[i].Value() == spec[i]
  }

  /** The resource requirements of a container. */
  class Requirements {
    const name: string
    var limits: Quantities?
    var requests: Quantities?

    constructor (c: Container)
      ensures name == c.name && fresh(limits) && fresh(requests) && limits != requests
      ensures Entries(limits) == c.limits && Entries(requests) == c.requests
    {
      name := c.name;
      limits := new Quantities(c.limits);
      requests := new Quantities(c.requests);
    }
  }

  // ----- laying one map over another, key by key

  /** `data` is `before` with all keys overridden but those still to do. */
  ghost predicate Overlays(data: map<string, string>, before: map<string, string>, overrides: map<string, string>,
      todo: set<string>) {
    && todo <= overrides.Keys
    && data.Keys == before.Keys + (overrides.Keys - todo)
    && (forall k | k in overrides && k !in todo :: data[k] == overrides[k])
    && (forall k | k in before && (k !in overrides || k in todo) :: data[k] == before[k])
  }

  lemma OverlaysNone(before: map<string, string>, overrides: map<string, string>)
    ensures Overlays(before, before, overrides, overrides.Keys)
  {}

  lemma OverlaysStep(data: map<string, string>, before: map<string, string>, overrides: map<string, string>,
      todo: set<string>, k: string)
    requires Overlays(data, before, overrides, todo) && k in todo
    ensures k in overrides && Overlays(data[k := overrides[k]], before, overrides, todo - {k})
  {}

  lemma OverlaysDone(data: map<string, string>, before: map<string, string>, overrides: map<string, string>)
    requires Overlays(data, before, overrides, {})
    ensures data == before + overrides
  {}

  /** Lays `src` over the list `tgt`, entry by entry in no particular order. An
      empty target is replaced by the source itself, not by a copy. */
  method Merge(src: Quantities?, tgt: Quantities?) returns (merged: Quantities?)
    requires src == null || src != tgt
    modifies tgt
    ensures Entries(merged) == old(Entries(tgt)) + old(Entries(src))
    ensures merged == if old(Entries(tgt)) == map[] then src else tgt
  {
    hide Overlays;
    if tgt != null && |tgt.entries| > 0 {
      if src != null {
        ghost var before := tgt.entries;
        OverlaysNone(before, src.entries);
        var todo := src.entries.Keys;
        while todo != {}
          invariant Overlays(tgt.entries, before, src.entries, todo)
          decreases |todo|
        {
          var k :| k in todo;
          OverlaysStep(tgt.entries, before, src.entries, todo, k);
          tgt.entries := tgt.entries[k := src.entries[k]];
          todo := todo - {k};
        }
        OverlaysDone(tgt.entries, before, src.entries);
      }
      return tgt;
    } else {
      return src;
    }
  }

  /** The first override for a container, by linear search. */
  method FindOverride(overrides: seq<Override>, name: string, ghost lists: set<Quantities>,
      ghost spec: seq<ResourceOverride>)
    returns (found: Option<Override>)
    requires Reads(overrides, lists, spec)
    ensures found.None? <==> Find(spec, name).None?
    ensures found.Some? ==>
              && Within(found.value.limits, lists) && Within(found.value.requests, lists)
              && Find(spec, name) == Some(found.value.Value())
    ensures exists first: nat :: FirstOverride(spec, name, first) &&
              if first < |spec| then found.Some? && found.value.Value() == spec[first] else found.None?
  {
    ghost var first := FindIsFirst(spec, name);
    var i := 0;
    while i < |overrides|
      invariant 0 <= i <= |overrides|
      invariant Find(spec, name) == Find(spec[i..], name)
    {
      if overrides[i].container == name {
        return Some(overrides[i]);
      }
      i := i + 1;
    }
    return None;
  }

  // ----- the containers of a deployment

  /** A container as converted: its lists are its own. */
  predicate Own(r: Requirements, lists: set<Quantities>, c: Container)
    reads r, r.limits, r.requests
  {
    && r.limits != null && r.requests != null && r.limits != r.requests
    && r.limits !in lists && r.requests !in lists
    && r.name == c.name && r.limits.entries == c.limits && r.requests.entries == c.requests
  }

  /** A container whose lists read as `c`'s, and may be the spec's. */
  predicate Done(r: Requirements, c: Container)
    reads r, r.limits, r.requests
  {
    Entries(r.limits) == c.limits && Entries(r.requests) == c.requests
  }

  /** Constrains one container; the spec's own lists stay as they are. */
  method ConstrainOne(overrides: seq<Override>, r: Requirements,
                      ghost lists: set<Quantities>, ghost spec: seq<ResourceOverride>, ghost c: Container)
    requires Reads(overrides, lists, spec) && Own(r, lists, c)
    modifies r, r.limits, r.requests
    ensures Done(r, Constrained(spec, c))
    ensures r.limits == old(r.limits) || Within(r.limits, lists)
    ensures r.requests == old(r.requests) || Within(r.requests, lists)
  {
    hide Reads, Find;
    var found := FindOverride(overrides, r.name, lists, spec);
    if found.Some? {
      ghost var override := found.value.Value();
      var limits, requests := r.limits, r.requests;
      var merged := Merge(found.value.limits, limits);
      assert Entries(found.value.requests) == override.requests;
      r.limits := merged;
      assert Entries(r.limits) == c.limits + override.limits;
      r.requests := Merge(found.value.requests, requests);
    }
  }

  /** Containers as converted share no list with each other or the spec. */
  ghost predicate AllOwn(rs: seq<Requirements>, from: nat, lists: set<Quantities>, cs: seq<Container>)
    reads rs, set r | r in rs :: r.limits, set r | r in rs :: r.requests
  {
    && |rs| == |cs|
    && (forall i | from <= i < |rs| :: Own(rs[i], lists, cs[i]))
    && (forall i, j | 0 <= i < |rs| && from <= j < |rs| && i != j ::
          rs[i] != rs[j] && rs[j].limits !in {rs[i].limits, rs[i].requests} && rs[j].requests !in {rs[i].limits,
            rs[i].requests})
  }

  /** The loop over a deployment's containers. Whatever it shares with the spec,
      the spec reads as before, and each container's lists are the first matching
      override laid over the shipped ones. */
  method ConstrainContainers(overrides: seq<Override>, rs: seq<Requirements>,
                             ghost lists: set<Quantities>, ghost spec: seq<ResourceOverride>, ghost cs: seq<Container>)
    requires Reads(overrides, lists, spec) && AllOwn(rs, 0, lists, cs)
    modifies rs, set r | r in rs :: r.limits, set r | r in rs :: r.requests
    ensures Reads(overrides, lists, spec)
    ensures forall i | 0 <= i < |rs| :: Done(rs[i], Constrained(spec, cs[i]))
  {
    var i := 0;
    while i < |rs|
      invariant 0 <= i <= |rs|
      invariant Reads(overrides, lists, spec)
      invariant AllOwn(rs, i, lists, cs)
      invariant forall k | i <= k < |rs| :: rs[k].limits == old(rs[k].limits) && rs[k].requests == old(rs[k].requests)
      invariant forall k | 0 <= k < i :: Done(rs[k], Constrained(spec, cs[k]))
    {
      ConstrainOne(overrides, rs[i], lists, spec, cs[i]);
      i := i + 1;
    }
  }

  /** Conversion: each container gets lists of its own. */
  method ConvertAll(containers: seq<Container>, ghost lists: set<Quantities>) returns (rs: seq<Requirements>)
    ensures AllOwn(rs, 0, lists, containers)
    ensures forall r | r in rs :: fresh(r) && fresh(r.limits) && fresh(r.requests)
  {
    rs := [];
    while |rs| < |containers|
      invariant |rs| <= |containers| && AllOwn(rs, 0, lists, containers[..|rs|])
      invariant forall r | r in rs :: fresh(r) && fresh(r.limits) && fresh(r.requests)
    {
      var r := new Requirements(containers[|rs|]);
      rs := rs + [r];
    }
    assert containers[..|rs|] == containers;
  }

  /** A deployment's containers converted, constrained, and converted back. */
  method ConstrainPod(overrides: seq<Override>, containers: seq<Container>,
                      ghost lists: set<Quantities>, ghost spec: seq<ResourceOverride>)
    returns (constrained: seq<Container>)
    requires Reads(overrides, lists, spec)
    ensures constrained == ConstrainedAll(spec, containers)
  {
    var rs := ConvertAll(containers, lists);
    ConstrainContainers(overrides, rs, lists, spec, containers);
    constrained := [];
    while |constrained| < |containers|
      invariant |constrained| <= |containers|
      invariant forall k | 0 <= k < |constrained| :: constrained[k] == Constrained(spec, containers[k])
    {
      var r, c := rs[|constrained|], containers[|constrained|];
      constrained := constrained + [c.(
        limits := if r.limits == null then map[] else r.limits.entries,
        requests := if r.requests == null then map[] else r.requests.entries)];
    }
  }
}
