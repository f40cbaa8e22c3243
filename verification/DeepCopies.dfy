/** The generated deep copies: a spec is a struct of references to maps, slices
    and structs, and its copy reads the same without sharing any of them. */
module DeepCopies {
  import opened Conditions
  import opened ResourceLists
  import opened Resources

  class StringMap {
    var entries: map<string, string>

    constructor (entries: map<string, string>)
      ensures this.entries == entries
    {
      this.entries := entries;
    }
  }

  function Reading(m: StringMap?): map<string, string>
    reads m
  {
    if m == null then map[] else m.entries
  }

  /** `make` and the copying loop. */
  method CopyMap(m: StringMap) returns (out: StringMap)
    ensures fresh(out) && out.entries == m.entries
  {
    out := new StringMap(map[]);
    var todo := m.entries.Keys;
    while todo != {}
      invariant todo <= m.entries.Keys && fresh(out) && out.entries.Keys == m.entries.Keys - todo
      invariant forall k | k in out.entries :: out.entries[k] == m.entries[k]
      decreases |todo|
    {
      var k :| k in todo;
      out.entries := out.entries[k := m.entries[k]];
      todo := todo - {k};
    }
  }

  method CopyStringMap(m: StringMap?) returns (out: StringMap?)
    ensures (out == null <==> m == null) && (out != null ==> fresh(out)) && Reading(out) == Reading(m)
  {
    if m == null {
      return null;
    }
    out := CopyMap(m);
  }

  // ----- pointers to plain values

  class Cell<T> {
    var value: T

    constructor (value: T)
      ensures this.value == value
    {
      this.value := value;
    }
  }

  ghost predicate CellReads<T>(c: Cell?<T>, objects: set<object>, value: Option<T>)
    reads objects
  {
    if c == null then value == None else c in objects && value == Some(c.value)
  }

  method CopyCell<T>(c: Cell?<T>, ghost objects: set<object>, ghost value: Option<T>)
    returns (out: Cell?<T>, ghost copied: set<object>)
    requires CellReads(c, objects, value)
    ensures fresh(copied) && CellReads(out, copied, value) && (out == null <==> c == null)
  {
    if c == null {
      return null, {};
    }
    out := new Cell(c.value);
    copied := {out};
  }

  lemma CellMore<T>(c: Cell?<T>, a: set<object>, b: set<object>, value: Option<T>)
    requires CellReads(c, a, value) && a <= b
    ensures CellReads(c, b, value)
  {}

  // ----- slices

  /** `make` and `copy`. */
  method CopySlice<T(0)>(a: array?<T>) returns (out: array?<T>)
    ensures (out == null <==> a == null) && (out != null ==> fresh(out) && out[..] == a[..])
  {
    if a == null {
      return null;
    }
    out := new T[a.Length];
    for i := 0 to a.Length
      invariant fresh(out) && out.Length == a.Length && out[..i] == a[..i]
    {
      out[i] := a[i];
    }
  }

  function Items<T>(a: array?<T>): seq<T>
    reads a
  {
    if a == null then [] else a[..]
  }

  // ----- the config: a map of maps

  class Table {
    var rows: map<string, StringMap?>

    constructor (rows: map<string, StringMap?>)
      ensures this.rows == rows
    {
      this.rows := rows;
    }
  }

  /** The table, all of it among `objects`, reads as `value`. */
  ghost predicate TableReads(t: Table?, objects: set<object>, value: map<string, map<string, string>>)
    reads objects
  {
    if t == null then value == map[]
    else
      && t in objects && t.rows.Keys == value.Keys
      && forall k | k in t.rows :: (t.rows[k] == null || t.rows[k] in objects) && Reading(t.rows[k]) == value[k]
  }

  method CopyTable(t: Table?, ghost objects: set<object>, ghost value: map<string, map<string, string>>)
    returns (out: Table?, ghost copied: set<object>)
    requires TableReads(t, objects, value)
    ensures (out == null <==> t == null) && fresh(copied) && TableReads(out, copied, value)
    ensures out != null ==> forall k | k in t.rows :: out.rows[k] == null <==> t.rows[k] == null
  {
    if t == null {
      return null, {};
    }
    hide TableReads, RowsRead;
    TableRows(t, objects, value);
    var rows, c := CopyRows(t.rows, objects, value);
    out := new Table(rows);
    copied := c + {out};
    TableOfRows(out, c, copied, value);
  }

  /** The copying loop over the table's rows. */
  method CopyRows(source: map<string, StringMap?>, ghost objects: set<object>,
                  ghost value: map<string, map<string, string>>)
    returns (rows: map<string, StringMap?>, ghost copied: set<object>)
    requires RowsRead(source, objects, value) && source.Keys == value.Keys
    ensures fresh(copied) && RowsRead(rows, copied, value) && SameRows(rows, source, {})
  {
    hide MapReads, RowsRead, SameRows;
    rows, copied := map[], {};
    NoRows(value, source);
    var todo := source.Keys;
    while todo != {}
      invariant todo <= source.Keys && fresh(copied)
      invariant RowsRead(source, objects, value) && RowsRead(rows, copied, value) && SameRows(rows, source, todo)
      decreases |todo|
    {
      var k :| k in todo;
      RowReading(source, objects, value, k);
      var row := CopyStringMap(source[k]);
      ghost var more := copied + Refs(row);
      MapReadsCopy(row, more, value[k]);
      OneMoreRow(rows, copied, more, value, k, row);
      OneMoreSame(rows, source, todo, k, row);
      copied := more;
      rows := rows[k := row];
      todo := todo - {k};
    }
  }

  lemma TableRows(t: Table, objects: set<object>, value: map<string, map<string, string>>)
    requires TableReads(t, objects, value)
    ensures t.rows.Keys == value.Keys && RowsRead(t.rows, objects, value)
  {}

  /** All rows are there but those still to do, absent where absent. */
  ghost predicate SameRows(rows: map<string, StringMap?>, source: map<string, StringMap?>, todo: set<string>) {
    && rows.Keys == source.Keys - todo
    && forall k | k in rows :: rows[k] == null <==> source[k] == null
  }

  lemma OneMoreSame(rows: map<string, StringMap?>, source: map<string, StringMap?>, todo: set<string>, k: string,
      row: StringMap?)
    requires SameRows(rows, source, todo) && k in source && k in todo && (row == null <==> source[k] == null)
    ensures SameRows(rows[k := row], source, todo - {k})
  {}

  lemma RowReading(rows: map<string, StringMap?>, objects: set<object>, value: map<string, map<string, string>>,
      k: string)
    requires RowsRead(rows, objects, value) && k in rows
    ensures k in value && Reading(rows[k]) == value[k]
  {
    assert MapReads(rows[k], objects, value[k]);
  }

  ghost predicate RowsRead(rows: map<string, StringMap?>, objects: set<object>, value: map<string, map<string, string>>)
    reads objects
  {
    rows.Keys <= value.Keys && forall k | k in rows :: MapReads(rows[k], objects, value[k])
  }

  lemma NoRows(value: map<string, map<string, string>>, source: map<string, StringMap?>)
    ensures RowsRead(map[], {}, value) && SameRows(map[], source, source.Keys)
  {}

  lemma OneMoreRow(rows: map<string, StringMap?>, a: set<object>, b: set<object>,
                   value: map<string, map<string, string>>, k: string, row: StringMap?)
    requires RowsRead(rows, a, value) && a <= b && k in value && MapReads(row, b, value[k])
    ensures RowsRead(rows[k := row], b, value)
  {
    forall j | j in rows ensures MapReads(rows[j], b, value[j]) {
      MapMore(rows[j], a, b, value[j]);
    }
  }

  lemma TableOfRows(t: Table, rows: set<object>, objects: set<object>, value: map<string, map<string, string>>)
    requires t in objects && rows <= objects && t.rows.Keys == value.Keys
    requires RowsRead(t.rows, rows, value)
    ensures TableReads(t, objects, value)
  {
    forall k | k in t.rows ensures (t.rows[k] == null || t.rows[k] in objects) && Reading(t.rows[k]) == value[k] {
      assert MapReads(t.rows[k], rows, value[k]);
    }
  }

  ghost function Refs(o: object?): set<object> {
    if o == null then {} else {o}
  }

  ghost predicate MapReads(m: StringMap?, objects: set<object>, value: map<string, string>)
    reads objects
  {
    (m == null || m in objects) && Reading(m) == value
  }

  lemma MapMore(m: StringMap?, a: set<object>, b: set<object>, value: map<string, string>)
    requires MapReads(m, a, value) && a <= b
    ensures MapReads(m, b, value)
  {}

  lemma MapReadsCopy(m: StringMap?, objects: set<object>, value: map<string, string>)
    requires Refs(m) <= objects && Reading(m) == value
    ensures MapReads(m, objects, value)
  {}

  // ----- resource overrides

  method CopyQuantities(q: Quantities?) returns (out: Quantities?)
    ensures (out == null <==> q == null) && (out != null ==> fresh(out)) && Entries(out) == Entries(q)
  {
    if q == null {
      return null;
    }
    out := new Quantities(map[]);
    var todo := q.entries.Keys;
    while todo != {}
      invariant todo <= q.entries.Keys && fresh(out) && out.entries.Keys == q.entries.Keys - todo
      invariant forall k | k in out.entries :: out.entries[k] == q.entries[k]
      decreases |todo|
    {
      var k :| k in todo;
      out.entries := out.entries[k := q.entries[k]];
      todo := todo - {k};
    }
  }

  /** An override's own lists, as objects. */
  ghost function ListsOf(o: Override): set<object> {
    (if o.limits == null then {} else {o.limits}) + (if o.requests == null then {} else {o.requests})
  }

  method CopyOverride(o: Override) returns (out: Override)
    ensures fresh(ListsOf(out)) && out.Value() == o.Value()
    ensures (out.limits == null <==> o.limits == null) && (out.requests == null <==> o.requests == null)
  {
    var limits := CopyQuantities(o.limits);
    var requests := CopyQuantities(o.requests);
    out := Override(o.container, limits, requests);
  }

  /** A slice of overrides, all of it among `objects`, reads as `value`. */
  ghost predicate OverridesRead(a: array?<Override>, objects: set<object>, value: seq<ResourceOverride>)
    reads objects
  {
    if a == null then value == []
    else
      && a in objects && a.Length == |value|
      && forall i | 0 <= i < a.Length :: ListsOf(a[i]) <= objects && a[i].Value() == value[i]
  }

  method CopyOverrides(a: array?<Override>, ghost objects: set<object>, ghost value: seq<ResourceOverride>)
    returns (out: array?<Override>, ghost copied: set<object>)
    requires OverridesRead(a, objects, value)
    ensures (out == null <==> a == null) && fresh(copied) && OverridesRead(out, copied, value)
  {
    copied := {};
    if a == null {
      return null, copied;
    }
    out := new Override[a.Length](_ => Override("", null, null));
    copied := {out};
    for i := 0 to a.Length
      invariant fresh(copied) && out in copied && out.Length == a.Length
      invariant forall k | 0 <= k < i :: ListsOf(out[k]) <= copied && out[k].Value() == value[k]
    {
      var o := CopyOverride(a[i]);
      out[i] := o;
      copied := copied + ListsOf(o);
    }
  }

  // ----- the spec

  datatype GatewayStruct = GatewayStruct(selector: StringMap?)

  datatype RegistryStruct = RegistryStruct(default: string, overrides: StringMap?, imagePullSecrets: array?<string>)

  datatype SpecStruct = SpecStruct(
    config: Table?, registry: RegistryStruct, knativeIngressGateway: GatewayStruct, clusterLocalGateway: GatewayStruct,
    controllerCustomCerts: CustomCerts, highAvailability: Cell?<int>, resources: array?<Override>)

  ghost predicate SliceReads<T>(a: array?<T>, objects: set<object>, value: seq<T>)
    reads objects
  {
    (a == null || a in objects) && Items(a) == value
  }

  ghost predicate RegistryReads(r: RegistryStruct, objects: set<object>, value: Registry)
    reads objects
  {
    && r.default == value.default
    && MapReads(r.overrides, objects, value.overrides)
    && SliceReads(r.imagePullSecrets, objects, value.imagePullSecrets)
  }

  /** The spec, everything it refers to being among `objects`, reads as `value`. */
  ghost predicate SpecReads(s: SpecStruct, objects: set<object>, value: KnativeServingSpec)
    reads objects
  {
    && TableReads(s.config, objects, value.config)
    && RegistryReads(s.registry, objects, value.registry)
    && MapReads(s.knativeIngressGateway.selector, objects, value.knativeIngressGateway)
    && MapReads(s.clusterLocalGateway.selector, objects, value.clusterLocalGateway)
    && s.controllerCustomCerts == value.controllerCustomCerts
    && CellReads(s.highAvailability, objects, value.highAvailability)
    && OverridesRead(s.resources, objects, value.resources)
  }

  /** Absent stays absent. */
  predicate SameNils(a: SpecStruct, b: SpecStruct) {
    && (a.config == null <==> b.config == null)
    && (a.registry.overrides == null <==> b.registry.overrides == null)
    && (a.registry.imagePullSecrets == null <==> b.registry.imagePullSecrets == null)
    && (a.knativeIngressGateway.selector == null <==> b.knativeIngressGateway.selector == null)
    && (a.clusterLocalGateway.selector == null <==> b.clusterLocalGateway.selector == null)
    && (a.highAvailability == null <==> b.highAvailability == null)
    && (a.resources == null <==> b.resources == null)
  }

  method CopyRegistry(r: RegistryStruct, ghost objects: set<object>, ghost value: Registry)
    returns (out: RegistryStruct, ghost copied: set<object>)
    requires RegistryReads(r, objects, value)
    ensures fresh(copied) && RegistryReads(out, copied, value)
    ensures out.overrides == null <==> r.overrides == null
    ensures out.imagePullSecrets == null <==> r.imagePullSecrets == null
  {
    var overrides := CopyStringMap(r.overrides);
    var secrets := CopySlice(r.imagePullSecrets);
    out := RegistryStruct(r.default, overrides, secrets);
    copied := Refs(overrides) + Refs(secrets);
  }

  /** A gateway's selector, copied. */
  method CopyGateway(g: GatewayStruct, ghost objects: set<object>, ghost value: map<string, string>)
    returns (out: GatewayStruct, ghost copied: set<object>)
    requires MapReads(g.selector, objects, value)
    ensures fresh(copied) && MapReads(out.selector, copied, value)
    ensures out.selector == null <==> g.selector == null
  {
    var selector := CopyStringMap(g.selector);
    out, copied := GatewayStruct(selector), Refs(selector);
  }

  method CopyConfigAndRegistry(s: SpecStruct, ghost objects: set<object>, ghost value: KnativeServingSpec)
    returns (config: Table?, registry: RegistryStruct, ghost copied: set<object>)
    requires SpecReads(s, objects, value)
    ensures fresh(copied) && TableReads(config, copied, value.config) && RegistryReads(registry, copied, value.registry)
    ensures SameNils(s, s.(config := config, registry := registry))
  {
    hide TableReads, RegistryReads, MapReads, OverridesRead;
    ghost var c1, c2;
    config, c1 := CopyTable(s.config, objects, value.config);
    registry, c2 := CopyRegistry(s.registry, objects, value.registry);
    copied := c1 + c2;
    TableMore(config, c1, copied, value.config);
    RegistryMore(registry, c2, copied, value.registry);
  }

  method CopyGateways(s: SpecStruct, ghost objects: set<object>, ghost value: KnativeServingSpec)
    returns (ingress: GatewayStruct, local: GatewayStruct, ghost copied: set<object>)
    requires SpecReads(s, objects, value)
    ensures fresh(copied)
    ensures MapReads(ingress.selector, copied, value.knativeIngressGateway)
    ensures MapReads(local.selector, copied, value.clusterLocalGateway)
    ensures SameNils(s, s.(knativeIngressGateway := ingress, clusterLocalGateway := local))
  {
    hide TableReads, RegistryReads, MapReads, OverridesRead;
    ghost var c1, c2;
    ingress, c1 := CopyGateway(s.knativeIngressGateway, objects, value.knativeIngressGateway);
    local, c2 := CopyGateway(s.clusterLocalGateway, objects, value.clusterLocalGateway);
    copied := c1 + c2;
    MapMore(ingress.selector, c1, copied, value.knativeIngressGateway);
    MapMore(local.selector, c2, copied, value.clusterLocalGateway);
  }

  method CopyScaling(s: SpecStruct, ghost objects: set<object>, ghost value: KnativeServingSpec)
    returns (replicas: Cell?<int>, resources: array?<Override>, ghost copied: set<object>)
    requires SpecReads(s, objects, value)
    ensures fresh(copied)
    ensures CellReads(replicas, copied, value.highAvailability) && OverridesRead(resources, copied, value.resources)
    ensures SameNils(s, s.(highAvailability := replicas, resources := resources))
  {
    hide TableReads, RegistryReads, MapReads, OverridesRead, CellReads;
    ghost var c1, c2;
    replicas, c1 := CopyCell(s.highAvailability, objects, value.highAvailability);
    resources, c2 := CopyOverrides(s.resources, objects, value.resources);
    copied := c1 + c2;
    CellMore(replicas, c1, copied, value.highAvailability);
    OverridesMore(resources, c2, copied, value.resources);
  }

  /** The copy reads the same and shares nothing: all it refers to is new. */
  method CopySpec(s: SpecStruct, ghost objects: set<object>, ghost value: KnativeServingSpec)
    returns (out: SpecStruct, ghost copied: set<object>)
    requires SpecReads(s, objects, value)
    ensures fresh(copied) && SpecReads(out, copied, value) && SameNils(s, out)
  {
    hide SpecReads, TableReads, OverridesRead, RegistryReads, MapReads, CellReads;
    var config, registry, c1 := CopyConfigAndRegistry(s, objects, value);
    var ingress, local, c2 := CopyGateways(s, objects, value);
    var replicas, resources, c3 := CopyScaling(s, objects, value);
    out := SpecStruct(config, registry, ingress, local, s.controllerCustomCerts, replicas, resources);
    copied := c1 + c2 + c3;
    SpecCerts(s, objects, value);
    SpecOfParts(out, c1, c2, c3, value);
  }

  lemma SpecCerts(s: SpecStruct, objects: set<object>, value: KnativeServingSpec)
    requires SpecReads(s, objects, value)
    ensures s.controllerCustomCerts == value.controllerCustomCerts
  {}

  lemma SpecOfParts(s: SpecStruct, c1: set<object>, c2: set<object>, c3: set<object>, value: KnativeServingSpec)
    requires TableReads(s.config, c1, value.config) && RegistryReads(s.registry, c1, value.registry)
    requires MapReads(s.knativeIngressGateway.selector, c2, value.knativeIngressGateway)
    requires MapReads(s.clusterLocalGateway.selector, c2, value.clusterLocalGateway)
    requires s.controllerCustomCerts == value.controllerCustomCerts
    requires CellReads(s.highAvailability, c3, value.highAvailability)
    requires OverridesRead(s.resources, c3, value.resources)
    ensures SpecReads(s, c1 + c2 + c3, value)
  {
    hide TableReads, OverridesRead, RegistryReads, MapReads, CellReads;
    var all := c1 + c2 + c3;
    TableMore(s.config, c1, all, value.config);
    RegistryMore(s.registry, c1, all, value.registry);
    MapMore(s.knativeIngressGateway.selector, c2, all, value.knativeIngressGateway);
    MapMore(s.clusterLocalGateway.selector, c2, all, value.clusterLocalGateway);
    CellMore(s.highAvailability, c3, all, value.highAvailability);
    OverridesMore(s.resources, c3, all, value.resources);
  }

  lemma TableMore(t: Table?, a: set<object>, b: set<object>, value: map<string, map<string, string>>)
    requires TableReads(t, a, value) && a <= b
    ensures TableReads(t, b, value)
  {}

  lemma RegistryMore(r: RegistryStruct, a: set<object>, b: set<object>, value: Registry)
    requires RegistryReads(r, a, value) && a <= b
    ensures RegistryReads(r, b, value)
  {}

  lemma OverridesMore(o: array?<Override>, a: set<object>, b: set<object>, value: seq<ResourceOverride>)
    requires OverridesRead(o, a, value) && a <= b
    ensures OverridesRead(o, b, value)
  {}

  lemma SpecMore(s: SpecStruct, a: set<object>, b: set<object>, value: KnativeServingSpec)
    requires SpecReads(s, a, value) && a <= b
    ensures SpecReads(s, b, value)
  {
    TableMore(s.config, a, b, value.config);
    RegistryMore(s.registry, a, b, value.registry);
    OverridesMore(s.resources, a, b, value.resources);
  }

  // ----- the metadata

  datatype OwnerStruct = OwnerStruct(kind: string, name: string, controller: Cell?<bool>, blocking: Cell?<bool>)

  datatype Owner = Owner(kind: string, name: string, controller: Option<bool>, blocking: Option<bool>)

  ghost predicate OwnerReads(o: OwnerStruct, objects: set<object>, value: Owner)
    reads objects
  {
    && o.kind == value.kind && o.name == value.name
    && CellReads(o.controller, objects, value.controller) && CellReads(o.blocking, objects, value.blocking)
  }

  method CopyOwner(o: OwnerStruct, ghost objects: set<object>, ghost value: Owner)
    returns (out: OwnerStruct, ghost copied: set<object>)
    requires OwnerReads(o, objects, value)
    ensures fresh(copied) && OwnerReads(out, copied, value)
  {
    var controller, c1 := CopyCell(o.controller, objects, value.controller);
    var blocking, c2 := CopyCell(o.blocking, objects, value.blocking);
    out, copied := OwnerStruct(o.kind, o.name, controller, blocking), c1 + c2;
  }

  /** The first `n` elements read as those of `value`. */
  ghost predicate OwnersUpTo(a: array<OwnerStruct>, n: nat, objects: set<object>, value: seq<Owner>)
    reads a, objects
  {
    n <= a.Length == |value| && forall i | 0 <= i < n :: OwnerReads(a[i], objects, value[i])
  }

  ghost predicate OwnersRead(a: array?<OwnerStruct>, objects: set<object>, value: seq<Owner>)
    reads objects
  {
    if a == null then value == [] else a in objects && OwnersUpTo(a, a.Length, objects, value)
  }

  lemma OwnersMore(a: array<OwnerStruct>, n: nat, c: set<object>, d: set<object>, value: seq<Owner>)
    requires OwnersUpTo(a, n, c, value) && c <= d
    ensures OwnersUpTo(a, n, d, value)
  {
    forall i | 0 <= i < n ensures OwnerReads(a[i], d, value[i]) {
      assert OwnerReads(a[i], c, value[i]);
    }
  }

  method CopyOwners(a: array?<OwnerStruct>, ghost objects: set<object>, ghost value: seq<Owner>)
    returns (out: array?<OwnerStruct>, ghost copied: set<object>)
    requires OwnersRead(a, objects, value)
    ensures fresh(copied) && OwnersRead(out, copied, value) && (out == null <==> a == null)
  {
    if a == null {
      return null, {};
    }
    var owners := new OwnerStruct[a.Length](_ => OwnerStruct("", "", null, null));
    ghost var made: set<object> := {};
    for i := 0 to a.Length
      invariant fresh(made) && owners !in made && fresh(owners) && owners.Length == a.Length
      invariant OwnersUpTo(owners, i, made, value)
    {
      assert OwnerReads(a[i], objects, value[i]);
      var o, c := CopyOwner(a[i], objects, value[i]);
      ghost var more := made + c;
      OwnersMore(owners, i, made, more, value);
      OwnerMore(o, c, more, value[i]);
      owners[i] := o;
      made := more;
    }
    out, copied := owners, made + {owners};
    OwnersMore(owners, a.Length, made, copied, value);
  }

  lemma OwnerMore(o: OwnerStruct, a: set<object>, b: set<object>, value: Owner)
    requires OwnerReads(o, a, value) && a <= b
    ensures OwnerReads(o, b, value)
  {}

  /** What a plain assignment copies. */
  datatype MetaValues = MetaValues(
    name: string, namespace: string, generateName: string, selfLink: string, clusterName: string,
    uid: string, resourceVersion: string, generation: int, creationTimestamp: int)

  datatype MetaStruct = MetaStruct(
    values: MetaValues, finalizers: array?<string>, labels: StringMap?, annotations: StringMap?,
    owners: array?<OwnerStruct>, deletionTimestamp: Cell?<int>, gracePeriod: Cell?<int>)

  datatype Meta = Meta(
    values: MetaValues, finalizers: seq<string>, labels: map<string, string>,
    annotations: map<string, string>, owners: seq<Owner>, deletionTimestamp: Option<int>, gracePeriod: Option<int>)

  ghost predicate MetaReads(m: MetaStruct, objects: set<object>, value: Meta)
    reads objects
  {
    && m.values == value.values
    && SliceReads(m.finalizers, objects, value.finalizers)
    && MapReads(m.labels, objects, value.labels) && MapReads(m.annotations, objects, value.annotations)
    && OwnersRead(m.owners, objects, value.owners)
    && CellReads(m.deletionTimestamp, objects, value.deletionTimestamp)
    && CellReads(m.gracePeriod, objects, value.gracePeriod)
  }

  /** Maps and slices of the metadata. */
  method CopyMetaCollections(m: MetaStruct, ghost objects: set<object>, ghost value: Meta)
    returns (finalizers: array?<string>, labels: StringMap?, annotations: StringMap?, ghost copied: set<object>)
    requires MetaReads(m, objects, value)
    ensures fresh(copied) && SliceReads(finalizers, copied, value.finalizers)
    ensures MapReads(labels, copied, value.labels) && MapReads(annotations, copied, value.annotations)
    ensures (finalizers == null <==> m.finalizers == null) && (labels == null <==> m.labels == null)
    ensures annotations == null <==> m.annotations == null
  {
    hide OwnersRead, CellReads;
    finalizers := CopySlice(m.finalizers);
    labels := CopyStringMap(m.labels);
    annotations := CopyStringMap(m.annotations);
    copied := Refs(finalizers) + Refs(labels) + Refs(annotations);
  }

  method CopyMetaPointers(m: MetaStruct, ghost objects: set<object>, ghost value: Meta)
    returns (owners: array?<OwnerStruct>, deletion: Cell?<int>, grace: Cell?<int>, ghost copied: set<object>)
    requires MetaReads(m, objects, value)
    ensures fresh(copied) && OwnersRead(owners, copied, value.owners)
    ensures CellReads(deletion, copied, value.deletionTimestamp) && CellReads(grace, copied, value.gracePeriod)
    ensures (owners == null <==> m.owners == null) && (deletion == null <==> m.deletionTimestamp == null)
    ensures grace == null <==> m.gracePeriod == null
  {
    hide SliceReads, MapReads, OwnersRead, CellReads;
    ghost var c1, c2, c3;
    owners, c1 := CopyOwners(m.owners, objects, value.owners);
    deletion, c2 := CopyCell(m.deletionTimestamp, objects, value.deletionTimestamp);
    grace, c3 := CopyCell(m.gracePeriod, objects, value.gracePeriod);
    copied := c1 + c2 + c3;
    OwnerSliceMore(owners, c1, copied, value.owners);
    CellMore(deletion, c2, copied, value.deletionTimestamp);
    CellMore(grace, c3, copied, value.gracePeriod);
  }

  lemma OwnerSliceMore(o: array?<OwnerStruct>, a: set<object>, b: set<object>, value: seq<Owner>)
    requires OwnersRead(o, a, value) && a <= b
    ensures OwnersRead(o, b, value)
  {
    if o != null {
      OwnersMore(o, o.Length, a, b, value);
    }
  }

  /** Absent stays absent; for the pointers that is what reading the same says. */
  predicate SameMetaNils(a: MetaStruct, b: MetaStruct) {
    && (a.finalizers == null <==> b.finalizers == null) && (a.labels == null <==> b.labels == null)
    && (a.annotations == null <==> b.annotations == null) && (a.owners == null <==> b.owners == null)
    && (a.deletionTimestamp == null <==> b.deletionTimestamp == null)
    && (a.gracePeriod == null <==> b.gracePeriod == null)
  }

  /** The metadata's copy reads the same, has nil where it had nil, and consists of
      new objects only. */
  method CopyMeta(m: MetaStruct, ghost objects: set<object>, ghost value: Meta)
    returns (out: MetaStruct, ghost copied: set<object>)
    requires MetaReads(m, objects, value)
    ensures fresh(copied) && MetaReads(out, copied, value) && SameMetaNils(m, out)
  {
    hide MetaReads, OwnersRead, SliceReads, MapReads, CellReads;
    var finalizers, labels, annotations, c1 := CopyMetaCollections(m, objects, value);
    var owners, deletion, grace, c2 := CopyMetaPointers(m, objects, value);
    out := MetaStruct(m.values, finalizers, labels, annotations, owners, deletion, grace);
    copied := c1 + c2;
    MetaSameValues(m, objects, value);
    MetaOfParts(out, c1, c2, value);
  }

  lemma MetaSameValues(m: MetaStruct, objects: set<object>, value: Meta)
    requires MetaReads(m, objects, value)
    ensures m.values == value.values
  {}

  lemma MetaOfParts(m: MetaStruct, c1: set<object>, c2: set<object>, value: Meta)
    requires m.values == value.values
    requires SliceReads(m.finalizers, c1, value.finalizers)
    requires MapReads(m.labels, c1, value.labels) && MapReads(m.annotations, c1, value.annotations)
    requires OwnersRead(m.owners, c2, value.owners)
    requires CellReads(m.deletionTimestamp, c2, value.deletionTimestamp)
    requires CellReads(m.gracePeriod, c2, value.gracePeriod)
    ensures MetaReads(m, c1 + c2, value)
  {
    hide OwnersRead;
    OwnerSliceMore(m.owners, c2, c1 + c2, value.owners);
  }

  lemma MetaMore(m: MetaStruct, a: set<object>, b: set<object>, value: Meta)
    requires MetaReads(m, a, value) && a <= b
    ensures MetaReads(m, b, value)
  {
    hide OwnersRead;
    OwnerSliceMore(m.owners, a, b, value.owners);
  }

  // ----- the object

  datatype Contents = Contents(meta: Meta, spec: KnativeServingSpec, conditions: seq<Condition>, version: string)

  /** What is behind a pointer to a KnativeServing. */
  class ServingStruct {
    var meta: MetaStruct
    var spec: SpecStruct
    var conditions: array?<Condition>
    var version: string

    constructor (meta: MetaStruct, spec: SpecStruct, conditions: array?<Condition>, version: string)
      ensures this.meta == meta && this.spec == spec && this.conditions == conditions && this.version == version
    {
      this.meta, this.spec, this.conditions, this.version := meta, spec, conditions, version;
    }

    /** Everything it refers to is among `objects`, and it reads as `value`. */
    ghost predicate Holds(objects: set<object>, value: Contents)
      reads this, objects
    {
      && this !in objects
      && MetaReads(meta, objects, value.meta)
      && SpecReads(spec, objects, value.spec)
      && SliceReads(conditions, objects, value.conditions)
      && version == value.version
    }

    /** The deep copy an informer's object gets before a pass may edit it: it reads
        the same, has nil where it had nil, and shares nothing. */
    method DeepCopy(ghost objects: set<object>, ghost value: Contents)
      returns (out: ServingStruct, ghost copied: set<object>)
      requires Holds(objects, value)
      ensures fresh(out) && fresh(copied) && out.Holds(copied, value)
      ensures SameMetaNils(meta, out.meta) && SameNils(spec, out.spec)
      ensures conditions == null <==> out.conditions == null
    {
      hide MetaReads, SpecReads;
      var meta, c1 := CopyMeta(this.meta, objects, value.meta);
      var spec, c2 := CopySpec(this.spec, objects, value.spec);
      var conditions := CopySlice(this.conditions);
      out := new ServingStruct(meta, spec, conditions, version);
      copied := c1 + c2 + Refs(conditions);
      MetaMore(meta, c1, copied, value.meta);
      SpecMore(spec, c2, copied, value.spec);
    }
  }
}
