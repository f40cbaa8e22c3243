/** Heap isolation: the undeleted path edits a deep copy of the cache's object, and
    its transforms share the copy's own maps with containers; the cache's object,
    all it refers to included, reads as before. */
module Isolation {
  import opened Conditions
  import opened DeepCopies
  import opened Lifecycle
  import opened ResourceLists
  import opened Resources
  import opened Text
  import opened Transforms
  import opened World
  import Passes

  // ----- the edits, on the object's own references

  /** `resource.Finalizers = finalizers.List()`: a new slice. */
  method SetFinalizers(o: ServingStruct, list: seq<string>)
    modifies o`meta
    ensures o.meta == old(o.meta).(finalizers := o.meta.finalizers)
    ensures fresh(o.meta.finalizers) && Items(o.meta.finalizers) == list
  {
    var slice := new string[|list|](i requires 0 <= i < |list| => list[i]);
    o.meta := o.meta.(finalizers := slice);
    assert slice[..] == list;
  }

  method SetConditions(o: ServingStruct, list: seq<Condition>)
    modifies o`conditions
    ensures fresh(o.conditions) && Items(o.conditions) == list
  {
    var slice := new Condition[|list|](i requires 0 <= i < |list| => list[i]);
    o.conditions := slice;
    assert slice[..] == list;
  }

  /** The finalizers an undeleted pass asks for, from those it found. */
  function BothFinalizers(found: seq<string>): seq<string> {
    var list := SortedList(Elements(found) + {K});
    if D in list then list else list + [D]
  }

  /** The conditions a successful pass ends with. */
  function SuccessConditions(found: seq<Condition>, now: int): seq<Condition> {
    var begun := if found == [] then Marked(found, Initializing, now) else found;
    Marked(Marked(begun, InstallSucceeding, now), DeploymentsReady, now)
  }

  /** The object with other finalizers. */
  function WithFinalizers(value: Contents, list: seq<string>): Contents {
    value.(meta := value.meta.(finalizers := list))
  }

  function AfterSuccess(value: Contents, now: int): Contents {
    WithFinalizers(value, BothFinalizers(value.meta.finalizers)).(
           conditions := SuccessConditions(value.conditions, now), version := Passes.VERSION)
  }

  // ----- the copy's overrides, as the transform walks them

  ghost function ListsIn(objects: set<object>): set<Quantities> {
    set o: object | o in objects && o is Quantities :: o as Quantities
  }

  lemma OverridesAsRead(a: array?<Override>, objects: set<object>, value: seq<ResourceOverride>)
    requires OverridesRead(a, objects, value)
    ensures Reads(Items(a), ListsIn(objects), value)
  {
    if a != null {
      forall i | 0 <= i < a.Length
        ensures Within(a[i].limits, ListsIn(objects)) && Within(a[i].requests, ListsIn(objects))
        ensures a[i].Value() == value[i]
      {
        assert ListsOf(a[i]) <= objects;
        assert a[i].limits != null ==> a[i].limits in ListsOf(a[i]);
        assert a[i].requests != null ==> a[i].requests in ListsOf(a[i]);
      }
    }
  }

  /** The requirements of some containers, constrained by the overrides of the
      copy: afterwards they may hold the copy's own maps. */
  method ConstrainBy(copy: ServingStruct, containers: seq<Container>, ghost objects: set<object>, ghost value: Contents)
    returns (rs: seq<Requirements>)
    requires copy.Holds(objects, value)
    ensures copy.Holds(objects, value) && |rs| == |containers| && (forall r | r in rs :: fresh(r))
    ensures forall i | 0 <= i < |rs| :: Done(rs[i], Constrained(value.spec.resources, containers[i]))
  {
    hide MetaReads, TableReads, RegistryReads, MapReads;
    OverridesAsRead(copy.spec.resources, objects, value.spec.resources);
    var overrides := if copy.spec.resources == null then [] else copy.spec.resources[..];
    ghost var lists := ListsIn(objects);
    rs := ConvertAll(containers, lists);
    ConstrainContainers(overrides, rs, lists, value.spec.resources, containers);
  }

  // ----- the whole path

  method ReplaceFinalizers(copy: ServingStruct, list: seq<string>, ghost objects: set<object>, ghost value: Contents)
    returns (ghost edited: set<object>)
    requires copy.Holds(objects, value)
    modifies copy`meta
    ensures fresh(edited - objects) && copy.Holds(edited, WithFinalizers(value, list))
    ensures Items(copy.meta.finalizers) == list
  {
    hide SpecReads, OwnersRead, CellReads, MapReads;
    SetFinalizers(copy, list);
    edited := objects + Refs(copy.meta.finalizers);
    RestMore(copy, objects, edited, value);
  }

  method EditFinalizers(copy: ServingStruct, ghost objects: set<object>, ghost value: Contents)
    returns (ghost edited: set<object>)
    requires copy.Holds(objects, value)
    modifies copy`meta
    ensures fresh(edited - objects)
    ensures copy.Holds(edited, WithFinalizers(value, BothFinalizers(value.meta.finalizers)))
  {
    hide ServingStruct.Holds, SortedList, Elements;
    HoldsFinalizers(copy, objects, value);
    var found := if copy.meta.finalizers == null then [] else copy.meta.finalizers[..];
    var list := SortedList(Elements(found) + {K});
    edited := ReplaceFinalizers(copy, list, objects, value);
    // ensureFinalizer looks for D and appends it
    if D !in list {
      edited := ReplaceFinalizers(copy, list + [D], edited, WithFinalizers(value, list));
    }
  }

  lemma HoldsFinalizers(o: ServingStruct, objects: set<object>, value: Contents)
    requires o.Holds(objects, value)
    ensures Items(o.meta.finalizers) == value.meta.finalizers
  {}

  /** All but the finalizers. */
  lemma RestMore(copy: ServingStruct, a: set<object>, b: set<object>, value: Contents)
    requires a <= b && copy !in b
    requires MetaReads(copy.meta.(finalizers := null), a, value.meta.(finalizers := []))
    requires SpecReads(copy.spec, a, value.spec) && SliceReads(copy.conditions, a, value.conditions)
    ensures MetaReads(copy.meta.(finalizers := null), b, value.meta.(finalizers := []))
    ensures SpecReads(copy.spec, b, value.spec) && SliceReads(copy.conditions, b, value.conditions)
  {
    hide MetaReads, SpecReads;
    MetaMore(copy.meta.(finalizers := null), a, b, value.meta.(finalizers := []));
    SpecMore(copy.spec, a, b, value.spec);
  }

  method EditStatus(copy: ServingStruct, now: int, ghost objects: set<object>, ghost value: Contents)
    returns (ghost edited: set<object>)
    requires copy.Holds(objects, value)
    modifies copy`conditions, copy`version
    ensures fresh(edited - objects)
    ensures copy.Holds(edited,
                       value.(conditions := SuccessConditions(value.conditions, now), version := Passes.VERSION))
  {
    hide MetaReads, SpecReads, Marked;
    var conditions := if copy.conditions == null then [] else copy.conditions[..];
    if conditions == [] {
      conditions := Marked(conditions, Initializing, now);
    }
    conditions := Marked(conditions, InstallSucceeding, now);
    conditions := Marked(conditions, DeploymentsReady, now);
    SetConditions(copy, conditions);
    copy.version := Passes.VERSION;
    edited := objects + Refs(copy.conditions);
    MetaMore(copy.meta, objects, edited, value.meta);
    SpecMore(copy.spec, objects, edited, value.spec);
  }

  /** The undeleted path on the graph. It copies the object the lister handed out,
      constrains containers by the copy's overrides, sharing its maps with them,
      and edits the copy as a successful pass does. It may write to nothing that
      was there before: the cache's object and all it refers to read the same, the
      copy reads as the pass leaves it, and every object it edited is new. */
  method LivePassOnGraph(original: ServingStruct, containers: seq<Container>, now: int,
                         ghost objects: set<object>, ghost value: Contents)
    returns (copy: ServingStruct, rs: seq<Requirements>, ghost copied: set<object>)
    requires original.Holds(objects, value)
    ensures original.Holds(objects, value)
    ensures fresh(copy) && fresh(copied) && copy.Holds(copied, AfterSuccess(value, now))
    ensures |rs| == |containers|
    ensures forall i | 0 <= i < |rs| :: Done(rs[i], Constrained(value.spec.resources, containers[i]))
  {
    hide MetaReads, SpecReads, BothFinalizers, SuccessConditions, Constrained;
    copy, copied := original.DeepCopy(objects, value);
    copied := EditFinalizers(copy, copied, value);
    ghost var both := WithFinalizers(value, BothFinalizers(value.meta.finalizers));
    rs := ConstrainBy(copy, containers, copied, both);
    copied := EditStatus(copy, now, copied, both);
  }
}
