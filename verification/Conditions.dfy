/** The condition set of a KnativeServing: what the vendored `apis.ConditionSet`
    does to a list of conditions, and what the list means. */
module Conditions {
  import opened Text

  datatype Option<+T> = None | Some(value: T)

  datatype ConditionStatus = True | False | Unknown

  // `Other` is for types with any other name
  datatype ConditionType =
    | Ready
    | DependenciesInstalled
    | DeploymentsAvailable
    | InstallSucceeded
    | Other(name: string)

  datatype Condition = Condition(
    ctype: ConditionType, status: ConditionStatus, severity: string, reason: string, message: string, time: int)

  // ConditionSeverityError
  const SEVERE := ""

  // Ready's dependents
  const DEPENDENTS := {DependenciesInstalled, DeploymentsAvailable, InstallSucceeded}

  function TypeName(t: ConditionType): string {
    match t
    case Ready => "Ready"
    case DependenciesInstalled => "DependenciesInstalled"
    case DeploymentsAvailable => "DeploymentsAvailable"
    case InstallSucceeded => "InstallSucceeded"
    case Other(name) => name
  }

  // ----- the operations of the condition set

  /** The first condition of a type. */
  function Get(cs: seq<Condition>, t: ConditionType): Option<Condition> {
    if cs == [] then None
    else if cs[0].ctype == t then Some(cs[0])
    else Get(cs[1..], t)
  }

  /** Equal but for the transition time. */
  predicate Same(a: Condition, b: Condition) {
    a.(time := b.time) == b
  }

  function Without(cs: seq<Condition>, t: ConditionType): seq<Condition> {
    if cs == [] then []
    else if cs[0].ctype == t then Without(cs[1..], t)
    else [cs[0]] + Without(cs[1..], t)
  }

  function Insert(c: Condition, cs: seq<Condition>): seq<Condition> {
    if cs == [] then [c]
    else if LexLeq(TypeName(c.ctype), TypeName(cs[0].ctype)) then [c] + cs
    else [cs[0]] + Insert(c, cs[1..])
  }

  function SortByType(cs: seq<Condition>): seq<Condition> {
    if cs == [] then [] else Insert(cs[0], SortByType(cs[1..]))
  }

  /** Sets or replaces the condition of `c`'s type, unless only its time would
      change. */
  function Set(cs: seq<Condition>, c: Condition, now: int): seq<Condition> {
    if exists i | 0 <= i < |cs| :: Same(c, cs[i]) then cs
    else SortByType(Without(cs, c.ctype) + [c.(time := now)])
  }

  function Severe(cs: seq<Condition>): seq<Condition> {
    if cs == [] then []
    else if cs[0].severity == SEVERE && cs[0].ctype != Ready then [cs[0]] + Severe(cs[1..])
    else Severe(cs[1..])
  }

  /** The most recent condition with the given status, the earliest in the list
      among equally recent ones. */
  function Latest(cs: seq<Condition>, s: ConditionStatus): (r: Option<Condition>)
    ensures r.Some? <==> exists c :: c in cs && c.status == s
    ensures r.Some? ==> r.value in cs && r.value.status == s
  {
    if cs == [] then None
    else
      var rest := Latest(cs[1..], s);
      if cs[0].status == s && (rest.None? || rest.value.time <= cs[0].time) then Some(cs[0])
      else rest
  }

  /** A False dependent before an Unknown one before a missing one. */
  function Unhappy(cs: seq<Condition>): Option<Condition> {
    var severe := Severe(cs);
    var failing := Latest(severe, False);
    var unknown := Latest(severe, Unknown);
    if failing.Some? then failing
    else if unknown.Some? then unknown
    else if |severe| < |DEPENDENTS| then Some(Condition(Other(""), Unknown, "", "", "", 0))
    else None
  }

  function Severity(t: ConditionType): string {
    if t in DEPENDENTS || t == Ready then SEVERE else "Info"
  }

  function RecomputeReady(cs: seq<Condition>, t: ConditionType, now: int): seq<Condition> {
    var unhappy := Unhappy(cs);
    if unhappy.Some? then
      Set(cs, Condition(Ready, unhappy.value.status, SEVERE, unhappy.value.reason, unhappy.value.message, 0), now)
    else if t != Ready then Set(cs, Condition(Ready, True, SEVERE, "", "", 0), now)
    else cs
  }

  function MarkTrue(cs: seq<Condition>, t: ConditionType, now: int): seq<Condition> {
    RecomputeReady(Set(cs, Condition(t, True, Severity(t), "", "", 0), now), t, now)
  }

  function MarkFalse(cs: seq<Condition>, t: ConditionType, reason: string, message: string, now: int): seq<Condition> {
    var marked := Set(cs, Condition(t, False, Severity(t), reason, message, 0), now);
    if t in DEPENDENTS then Set(marked, Condition(Ready, False, SEVERE, reason, message, 0), now) else marked
  }

  function InitializeOne(cs: seq<Condition>, t: ConditionType, s: ConditionStatus, now: int): seq<Condition> {
    if Get(cs, t).Some? then cs else Set(cs, Condition(t, s, SEVERE, "", "", 0), now)
  }

  function Initialize(cs: seq<Condition>, now: int): seq<Condition> {
    var ready := InitializeOne(cs, Ready, Unknown, now);
    var s := if Get(ready, Ready).Some? && Get(ready, Ready).value.status == True then True else Unknown;
    var c1 := InitializeOne(ready, DependenciesInstalled, s, now);
    var c2 := InitializeOne(c1, DeploymentsAvailable, s, now);
    InitializeOne(c2, InstallSucceeded, s, now)
  }

  // ----- what a list of conditions means: the status of each type

  /** One condition of a type, and severe exactly where the condition set says so:
      Ready and its dependents. Others may be there, but do not count. */
  ghost predicate WellFormed(cs: seq<Condition>) {
    Distinct(cs) && forall c | c in cs :: Fits(c)
  }

  lemma WellFormedIsDistinct(cs: seq<Condition>)
    requires WellFormed(cs)
    ensures Distinct(cs)
  {}

  predicate Fits(c: Condition) {
    c.severity == SEVERE <==> Severity(c.ctype) == SEVERE
  }

  /** The status a list gives to a type. */
  function StatusOf(cs: seq<Condition>, t: ConditionType): Option<ConditionStatus> {
    var c := Get(cs, t);
    if c.Some? then Some(c.value.status) else None
  }

  predicate IsTrue(cs: seq<Condition>, t: ConditionType) {
    StatusOf(cs, t) == Some(True)
  }

  predicate IsFalse(cs: seq<Condition>, t: ConditionType) {
    StatusOf(cs, t) == Some(False)
  }

  /** Missing counts as unknown. */
  predicate IsUnknown(cs: seq<Condition>, t: ConditionType) {
    var s := StatusOf(cs, t);
    s.None? || s.value.Unknown?
  }

  /** Ready is True exactly when every dependent is, False exactly when one is. */
  predicate Coherent(cs: seq<Condition>) {
    (IsTrue(cs, Ready) <==> AllTrue(cs)) && (IsFalse(cs, Ready) <==> SomeFalse(cs))
  }

  predicate AllTrue(cs: seq<Condition>) {
    IsTrue(cs, DependenciesInstalled) && IsTrue(cs, DeploymentsAvailable) && IsTrue(cs, InstallSucceeded)
  }

  predicate SomeFalse(cs: seq<Condition>) {
    IsFalse(cs, DependenciesInstalled) || IsFalse(cs, DeploymentsAvailable) || IsFalse(cs, InstallSucceeded)
  }

  /** The entry of type `t` is a bare True one. */
  predicate PlainTrue(cs: seq<Condition>, t: ConditionType) {
    Get(cs, t).Some? && Same(Condition(t, True, SEVERE, "", "", 0), Get(cs, t).value)
  }

  // ----- lists with one entry per type behave like maps

  lemma {:induction false} GetIsMembership(cs: seq<Condition>, t: ConditionType)
    ensures Get(cs, t).Some? <==> exists c :: c in cs && c.ctype == t
    ensures Get(cs, t).Some? ==> Get(cs, t).value in cs && Get(cs, t).value.ctype == t
  {
    if cs != [] {
      GetIsMembership(cs[1..], t);
      assert cs == [cs[0]] + cs[1..];
    }
  }

  lemma GetIsUnique(cs: seq<Condition>, c: Condition)
    requires Distinct(cs) && c in cs
    ensures Get(cs, c.ctype) == Some(c)
  {
    GetIsMembership(cs, c.ctype);
    var d := Get(cs, c.ctype).value;
    var i :| 0 <= i < |cs| && cs[i] == c;
    var j :| 0 <= j < |cs| && cs[j] == d;
  }

  lemma {:induction false} WithoutMembers(cs: seq<Condition>, t: ConditionType)
    ensures forall c :: c in Without(cs, t) <==> c in cs && c.ctype != t
    ensures |Without(cs, t)| <= |cs|
  {
    if cs != [] {
      WithoutMembers(cs[1..], t);
      assert cs == [cs[0]] + cs[1..];
    }
  }

  ghost predicate Distinct(cs: seq<Condition>) {
    forall i, j | 0 <= i < j < |cs| :: cs[i].ctype != cs[j].ctype
  }

  lemma DistinctCons(c: Condition, cs: seq<Condition>)
    requires Distinct(cs) && forall d | d in cs :: d.ctype != c.ctype
    ensures Distinct([c] + cs)
  {}

  lemma DistinctTail(cs: seq<Condition>)
    requires Distinct(cs) && cs != []
    ensures Distinct(cs[1..]) && forall d | d in cs[1..] :: d.ctype != cs[0].ctype
  {}

  lemma {:induction false} WithoutDistinct(cs: seq<Condition>, t: ConditionType)
    requires Distinct(cs)
    ensures Distinct(Without(cs, t))
  {
    if cs != [] {
      DistinctTail(cs);
      WithoutDistinct(cs[1..], t);
      WithoutMembers(cs[1..], t);
      if cs[0].ctype != t {
        DistinctCons(cs[0], Without(cs[1..], t));
      }
    }
  }

  lemma {:induction false} InsertMembers(c: Condition, cs: seq<Condition>)
    ensures forall d :: d in Insert(c, cs) <==> d == c || d in cs
    ensures Distinct(cs) && (forall d | d in cs :: d.ctype != c.ctype) ==> Distinct(Insert(c, cs))
  {
    if cs != [] && !LexLeq(TypeName(c.ctype), TypeName(cs[0].ctype)) {
      InsertMembers(c, cs[1..]);
      assert cs == [cs[0]] + cs[1..];
      if Distinct(cs) && (forall d | d in cs :: d.ctype != c.ctype) {
        DistinctTail(cs);
        DistinctCons(cs[0], Insert(c, cs[1..]));
      }
    }
  }

  lemma {:induction false} SortMembers(cs: seq<Condition>)
    ensures forall d :: d in SortByType(cs) <==> d in cs
    ensures Distinct(cs) ==> Distinct(SortByType(cs))
  {
    if cs != [] {
      SortMembers(cs[1..]);
      InsertMembers(cs[0], SortByType(cs[1..]));
      assert cs == [cs[0]] + cs[1..];
      if Distinct(cs) {
        DistinctTail(cs);
      }
    }
  }

  // what `Get` sees of the steps of `Set`, on any list

  lemma {:induction false} GetWithout(cs: seq<Condition>, t: ConditionType, u: ConditionType)
    ensures Get(Without(cs, t), u) == if u == t then None else Get(cs, u)
  {
    if cs != [] {
      GetWithout(cs[1..], t, u);
    }
  }

  lemma {:induction false} GetAppended(cs: seq<Condition>, c: Condition, t: ConditionType)
    ensures Get(cs + [c], t) ==
            if Get(cs, t).Some? then Get(cs, t) else if c.ctype == t then Some(c) else None
  {
    if cs != [] {
      assert (cs + [c])[1..] == cs[1..] + [c];
      GetAppended(cs[1..], c, t);
    }
  }

  lemma {:induction false} GetInserted(c: Condition, cs: seq<Condition>, t: ConditionType)
    ensures Get(Insert(c, cs), t) == if c.ctype == t then Some(c) else Get(cs, t)
  {
    if cs != [] && !LexLeq(TypeName(c.ctype), TypeName(cs[0].ctype)) {
      LexReflexive(TypeName(c.ctype));
      GetInserted(c, cs[1..], t);
    }
  }

  lemma {:induction false} GetSorted(cs: seq<Condition>, t: ConditionType)
    ensures Get(SortByType(cs), t) == Get(cs, t)
  {
    if cs != [] {
      GetSorted(cs[1..], t);
      GetInserted(cs[0], SortByType(cs[1..]), t);
    }
  }

  /** A later condition of `c`'s type says what `c` does while the first, which is
      the one that is read, says something else. */
  ghost predicate Shadowed(cs: seq<Condition>, c: Condition) {
    && (exists i | 0 <= i < |cs| :: Same(c, cs[i]))
    && Get(cs, c.ctype).Some? && !Same(c, Get(cs, c.ctype).value)
  }

  lemma DistinctShadowsNothing(cs: seq<Condition>, c: Condition)
    requires Distinct(cs)
    ensures !Shadowed(cs, c)
  {
    if Shadowed(cs, c) {
      var i :| 0 <= i < |cs| && Same(c, cs[i]);
      GetIsUnique(cs, cs[i]);
    }
  }

  /** Setting a condition leaves what is read of every other type alone, whatever
      the list holds, and gives its own type the new content (but for the time)
      exactly if that is not shadowed. */
  lemma SetIsMapUpdate(cs: seq<Condition>, c: Condition, now: int)
    ensures forall t | t != c.ctype :: Get(Set(cs, c, now), t) == Get(cs, t)
    ensures Get(Set(cs, c, now), c.ctype).Some?
    ensures Same(c, Get(Set(cs, c, now), c.ctype).value) <==> !Shadowed(cs, c)
    ensures Shadowed(cs, c) ==> Set(cs, c, now) == cs
    ensures Distinct(cs) ==> !Shadowed(cs, c)
  {
    hide Distinct;
    if exists i | 0 <= i < |cs| :: Same(c, cs[i]) {
      GetIsMembership(cs, c.ctype);
    } else {
      var kept := Without(cs, c.ctype) + [c.(time := now)];
      forall t ensures Get(SortByType(kept), t) == if t == c.ctype then Some(c.(time := now)) else Get(cs, t) {
        GetWithout(cs, c.ctype, t);
        GetAppended(Without(cs, c.ctype), c.(time := now), t);
        GetSorted(kept, t);
      }
    }
    if Distinct(cs) {
      DistinctShadowsNothing(cs, c);
    }
  }

  predicate NameOrder(a: Condition, b: Condition) {
    LexLeq(TypeName(a.ctype), TypeName(b.ctype))
  }

  /** By the names of their types. */
  predicate InOrder(cs: seq<Condition>) {
    forall i, j | 0 <= i < j < |cs| :: NameOrder(cs[i], cs[j])
  }

  lemma {:induction false} InsertInOrder(c: Condition, cs: seq<Condition>)
    requires InOrder(cs)
    ensures InOrder(Insert(c, cs))
  {
    hide LexLeq;
    if cs != [] {
      LexTotal(TypeName(c.ctype), TypeName(cs[0].ctype));
      if NameOrder(c, cs[0]) {
        forall i | 0 <= i < |cs| ensures NameOrder(c, cs[i]) {
          if i > 0 {
            assert NameOrder(cs[0], cs[i]);
            LexTransitive(TypeName(c.ctype), TypeName(cs[0].ctype), TypeName(cs[i].ctype));
          }
        }
      } else {
        InsertInOrder(c, cs[1..]);
        InsertMembers(c, cs[1..]);
        var rest := Insert(c, cs[1..]);
        forall i | 0 <= i < |rest| ensures NameOrder(cs[0], rest[i]) {
          assert rest[i] in rest;
          if rest[i] in cs[1..] {
            var j :| 0 <= j < |cs| - 1 && cs[1..][j] == rest[i];
            assert NameOrder(cs[0], cs[j + 1]);
          }
        }
      }
    }
  }

  lemma {:induction false} SortedInOrder(cs: seq<Condition>)
    ensures InOrder(SortByType(cs))
  {
    hide LexLeq;
    if cs != [] {
      SortedInOrder(cs[1..]);
      InsertInOrder(cs[0], SortByType(cs[1..]));
    }
  }

  /** What setting records, on any list that does not have the condition already: it,
      with the time, in place of all of its type, everything else as it was, and
      the list in the order of the types' names. */
  lemma SetRecords(cs: seq<Condition>, c: Condition, now: int)
    ensures (exists d | d in cs :: d.(time := c.time) == c) ==> Set(cs, c, now) == cs
    ensures !(exists d | d in cs :: d.(time := c.time) == c) ==>
              var r := Set(cs, c, now);
              && Get(r, c.ctype) == Some(c.(time := now))
              && (forall d :: d in r <==> d == c.(time := now) || (d in cs && d.ctype != c.ctype))
              && forall i, j | 0 <= i < j < |r| ::
                   var a, b := TypeName(r[i].ctype), TypeName(r[j].ctype); a == b || Precedes(a, b)
  {
    hide Precedes, LexLeq;
    if exists d | d in cs :: d.(time := c.time) == c {
      var d :| d in cs && d.(time := c.time) == c;
      var i :| 0 <= i < |cs| && cs[i] == d;
      assert Same(c, cs[i]);
    } else {
      assert forall i | 0 <= i < |cs| :: cs[i] in cs && !Same(c, cs[i]);
      var entry := c.(time := now);
      var kept := Without(cs, c.ctype) + [entry];
      WithoutMembers(cs, c.ctype);
      SortMembers(kept);
      SortedInOrder(kept);
      GetWithout(cs, c.ctype, c.ctype);
      GetAppended(Without(cs, c.ctype), entry, c.ctype);
      GetSorted(kept, c.ctype);
      var r := SortByType(kept);
      forall i, j | 0 <= i < j < |r|
        ensures TypeName(r[i].ctype) == TypeName(r[j].ctype) || Precedes(TypeName(r[i].ctype), TypeName(r[j].ctype))
      {
        assert NameOrder(r[i], r[j]);
        LexLeqExactly(TypeName(r[i].ctype), TypeName(r[j].ctype));
      }
    }
  }

  /** A list with one entry per type stays one. */
  lemma SetKeepsDistinct(cs: seq<Condition>, c: Condition, now: int)
    requires Distinct(cs)
    ensures Distinct(Set(cs, c, now))
    ensures WellFormed(cs) && Fits(c) ==> WellFormed(Set(cs, c, now))
  {
    if !exists i | 0 <= i < |cs| :: Same(c, cs[i]) {
      var rest := Without(cs, c.ctype);
      var entry := c.(time := now);
      WithoutMembers(cs, c.ctype);
      WithoutDistinct(cs, c.ctype);
      SortMembers(rest + [entry]);
      assert forall d :: d in rest + [entry] <==> d in rest || d == entry;
    }
  }

  // ----- the count of severe conditions tells whether a dependent is missing

  lemma {:induction false} SevereMembers(cs: seq<Condition>)
    ensures forall c :: c in Severe(cs) <==> c in cs && c.severity == SEVERE && c.ctype != Ready
    ensures Distinct(cs) ==> Distinct(Severe(cs))
  {
    if cs != [] {
      SevereMembers(cs[1..]);
      assert cs == [cs[0]] + cs[1..];
      if Distinct(cs) {
        DistinctTail(cs);
        if cs[0].severity == SEVERE && cs[0].ctype != Ready {
          DistinctCons(cs[0], Severe(cs[1..]));
        }
      }
    }
  }

  function Types(cs: seq<Condition>): set<ConditionType> {
    set c | c in cs :: c.ctype
  }

  lemma {:induction false} DistinctCount(cs: seq<Condition>)
    requires Distinct(cs)
    ensures |Types(cs)| == |cs|
  {
    if cs != [] {
      DistinctTail(cs);
      DistinctCount(cs[1..]);
      assert cs == [cs[0]] + cs[1..];
      assert Types(cs) == {cs[0].ctype} + Types(cs[1..]);
    }
  }

  lemma {:induction false} SubsetCount(a: set<ConditionType>, b: set<ConditionType>)
    requires a <= b
    ensures |a| <= |b|
    decreases |a|
  {
    if a != {} {
      var x :| x in a;
      SubsetCount(a - {x}, b - {x});
    }
  }

  /** Severe conditions of a well-formed list are its dependents. */
  lemma SevereAreDependents(cs: seq<Condition>, t: ConditionType)
    requires WellFormed(cs) && t in DEPENDENTS
    ensures Get(cs, t).Some? ==> Get(cs, t).value in Severe(cs)
    ensures Get(cs, t).None? ==> t !in Types(Severe(cs))
  {
    SevereMembers(cs);
    GetIsMembership(cs, t);
  }

  lemma SevereStatus(cs: seq<Condition>, c: Condition)
    requires WellFormed(cs) && c in Severe(cs)
    ensures c.ctype in DEPENDENTS && StatusOf(cs, c.ctype) == Some(c.status)
  {
    SevereMembers(cs);
    GetIsUnique(cs, c);
  }

  lemma MissingDependent(cs: seq<Condition>)
    requires WellFormed(cs)
    ensures |Severe(cs)| < |DEPENDENTS| <==> exists t :: t in DEPENDENTS && Get(cs, t).None?
  {
    SevereMembers(cs);
    DistinctCount(Severe(cs));
    var present := Types(Severe(cs));
    forall t | t in present ensures t in DEPENDENTS && Get(cs, t).Some? {
      var c :| c in Severe(cs) && c.ctype == t;
      SevereStatus(cs, c);
    }
    forall t | t in DEPENDENTS ensures Get(cs, t).None? <==> t !in present {
      SevereAreDependents(cs, t);
      if Get(cs, t).Some? {
        GetIsMembership(cs, t);
        assert Get(cs, t).value in Severe(cs);
      }
    }
    if present == DEPENDENTS {
    } else {
      assert present < DEPENDENTS;
      var t :| t in DEPENDENTS && t !in present;
      SubsetCount(present, DEPENDENTS - {t});
    }
  }

  // what counts towards Ready: everything severe, whatever its type

  predicate Counts(cs: seq<Condition>, c: Condition) {
    c in cs && c.severity == SEVERE && c.ctype != Ready
  }

  ghost predicate AllSevereTrue(cs: seq<Condition>) {
    |Severe(cs)| >= |DEPENDENTS| && forall c | Counts(cs, c) :: c.status == True
  }

  ghost predicate SomeSevereFalse(cs: seq<Condition>) {
    exists c :: Counts(cs, c) && c.status == False
  }

  /** What the search for an unhappy dependent finds, on any list: it does not look
      at types, so that a severe condition of another type counts as a dependent
      would, in its status and in the number. */
  lemma UnhappyExactly(cs: seq<Condition>)
    ensures Unhappy(cs).None? <==> AllSevereTrue(cs)
    ensures Unhappy(cs).Some? ==> (Unhappy(cs).value.status == False <==> SomeSevereFalse(cs))
    ensures Unhappy(cs).Some? ==> Unhappy(cs).value.status != True
    ensures Unhappy(cs).None? ==> !SomeSevereFalse(cs)
  {
    hide Latest;
    SevereMembers(cs);
    var severe := Severe(cs);
    var failing, unknown := Latest(severe, False), Latest(severe, Unknown);
    assert failing.Some? <==> exists c :: c in severe && c.status == False;
    assert unknown.Some? <==> exists c :: c in severe && c.status == Unknown;
    assert forall c :: c in severe <==> Counts(cs, c);
  }

  lemma {:induction false} LatestIsLatest(cs: seq<Condition>, s: ConditionStatus)
    ensures Latest(cs, s).Some? ==> forall c | c in cs && c.status == s :: c.time <= Latest(cs, s).value.time
  {
    if cs != [] {
      LatestIsLatest(cs[1..], s);
      assert cs == [cs[0]] + cs[1..];
    }
  }

  /** The most recent of what counts with this status. */
  ghost predicate MostRecent(cs: seq<Condition>, c: Condition) {
    Counts(cs, c) && forall d | Counts(cs, d) && d.status == c.status :: d.time <= c.time
  }

  /** Whom Ready blames: the most recent False condition, or, if none is False, the
      most recent Unknown one; nobody if a dependent is merely missing. */
  lemma BlamedExactly(cs: seq<Condition>)
    ensures Unhappy(cs).Some? ==>
              var c := Unhappy(cs).value;
              if SomeSevereFalse(cs) then c.status == False && MostRecent(cs, c)
              else if exists d :: Counts(cs, d) && d.status == Unknown then c.status == Unknown && MostRecent(cs, c)
              else c.status == Unknown && c.reason == "" && c.message == ""
  {
    hide Latest;
    SevereMembers(cs);
    var severe := Severe(cs);
    LatestIsLatest(severe, False);
    LatestIsLatest(severe, Unknown);
    assert forall c :: c in severe <==> Counts(cs, c);
    assert Latest(severe, False).Some? <==> exists c :: c in severe && c.status == False;
    assert Latest(severe, Unknown).Some? <==> exists c :: c in severe && c.status == Unknown;
  }

  lemma AllDependentsTrue(cs: seq<Condition>)
    requires WellFormed(cs)
    ensures AllSevereTrue(cs) <==> AllTrue(cs)
  {
    hide Get;
    SevereMembers(cs);
    MissingDependent(cs);
    if AllTrue(cs) {
      forall c | Counts(cs, c) ensures c.status == True {
        SevereStatus(cs, c);
      }
    }
    if AllSevereTrue(cs) {
      forall t | t in DEPENDENTS ensures IsTrue(cs, t) {
        SevereAreDependents(cs, t);
        assert Counts(cs, Get(cs, t).value);
      }
    }
  }

  lemma SomeDependentFalse(cs: seq<Condition>)
    requires WellFormed(cs)
    ensures SomeSevereFalse(cs) <==> SomeFalse(cs)
  {
    hide Get;
    SevereMembers(cs);
    if SomeSevereFalse(cs) {
      var c :| Counts(cs, c) && c.status == False;
      SevereStatus(cs, c);
    }
    forall t | t in DEPENDENTS && IsFalse(cs, t) ensures SomeSevereFalse(cs) {
      SevereAreDependents(cs, t);
      assert Counts(cs, Get(cs, t).value);
    }
  }

  // ----- the invariant of the marks

  /** What recomputing sets, once a dependent was marked. */
  function ReadyVerdict(cs: seq<Condition>): Condition {
    var u := Unhappy(cs);
    if u.Some? then Condition(Ready, u.value.status, SEVERE, u.value.reason, u.value.message, 0)
    else Condition(Ready, True, SEVERE, "", "", 0)
  }

  /** Recomputing makes Ready what the severe conditions say, whatever it was
      before and whatever else the list holds, unless a later entry for Ready says
      so already: then nothing happens. */
  lemma RecomputeExactly(cs: seq<Condition>, t: ConditionType, now: int)
    requires t in DEPENDENTS
    ensures var r, shadowed := RecomputeReady(cs, t, now), Shadowed(cs, ReadyVerdict(cs));
            && (forall u | u != Ready :: Get(r, u) == Get(cs, u))
            && (IsTrue(r, Ready) <==> if shadowed then IsTrue(cs, Ready) else AllSevereTrue(cs))
            && (IsFalse(r, Ready) <==> if shadowed then IsFalse(cs, Ready) else SomeSevereFalse(cs))
            && (AllSevereTrue(cs) && !shadowed ==> PlainTrue(r, Ready))
  {
    hide Set, Unhappy, Get, AllSevereTrue, SomeSevereFalse, Distinct, Shadowed;
    UnhappyExactly(cs);
    SetIsMapUpdate(cs, ReadyVerdict(cs), now);
  }

  lemma RecomputeKeepsDistinct(cs: seq<Condition>, t: ConditionType, now: int)
    requires Distinct(cs) && t in DEPENDENTS
    ensures Distinct(RecomputeReady(cs, t, now)) && !Shadowed(cs, ReadyVerdict(cs))
    ensures WellFormed(cs) ==> WellFormed(RecomputeReady(cs, t, now))
  {
    hide Set, Unhappy, Distinct, WellFormed, Shadowed;
    SetKeepsDistinct(cs, ReadyVerdict(cs), now);
    DistinctShadowsNothing(cs, ReadyVerdict(cs));
  }

  /** With the status Ready takes over the reason and the message of whom it
      blames. */
  lemma ReadyGivesReason(cs: seq<Condition>, t: ConditionType, now: int)
    requires t in DEPENDENTS && Unhappy(cs).Some? && !Shadowed(cs, ReadyVerdict(cs))
    ensures var blamed, ready := Unhappy(cs).value, Get(RecomputeReady(cs, t, now), Ready);
            && ready.Some? && ready.value.status == blamed.status
            && ready.value.reason == blamed.reason && ready.value.message == blamed.message
  {
    hide Set, Unhappy, Get, Distinct, Shadowed;
    SetIsMapUpdate(cs, ReadyVerdict(cs), now);
  }

  /** So a well-formed list becomes coherent. */
  lemma RecomputeCoherent(cs: seq<Condition>, t: ConditionType, now: int)
    requires WellFormed(cs) && t in DEPENDENTS
    ensures WellFormed(RecomputeReady(cs, t, now)) && Coherent(RecomputeReady(cs, t, now))
    ensures forall u | u != Ready :: Get(RecomputeReady(cs, t, now), u) == Get(cs, u)
    ensures AllTrue(cs) ==> PlainTrue(RecomputeReady(cs, t, now), Ready)
  {
    hide RecomputeReady, Get, AllSevereTrue, SomeSevereFalse, Shadowed, ReadyVerdict;
    RecomputeExactly(cs, t, now);
    RecomputeKeepsDistinct(cs, t, now);
    AllDependentsTrue(cs);
    SomeDependentFalse(cs);
  }

  /** On any list, Ready follows the dependents exactly if the severe conditions
      agree with them, or if it did and is shadowed. */
  lemma CoherentExactly(cs: seq<Condition>, t: ConditionType, now: int)
    requires t in DEPENDENTS
    ensures Coherent(RecomputeReady(cs, t, now)) <==>
            if Shadowed(cs, ReadyVerdict(cs)) then Coherent(cs)
            else (AllSevereTrue(cs) <==> AllTrue(cs)) && (SomeSevereFalse(cs) <==> SomeFalse(cs))
  {
    hide RecomputeReady, Get, AllSevereTrue, SomeSevereFalse, Shadowed, ReadyVerdict;
    RecomputeExactly(cs, t, now);
  }

  /** As they do not when a severe condition of another type is not True: then a
      mark of a dependent leaves Ready True only if it was and is shadowed. */
  lemma ForeignConditionBlocksReady(cs: seq<Condition>, foreign: Condition, t: ConditionType, now: int)
    requires t in DEPENDENTS
    requires foreign in cs && foreign.severity == SEVERE && foreign.status != True
    requires foreign.ctype !in DEPENDENTS && foreign.ctype != Ready
    ensures var marked := Set(cs, Condition(t, True, SEVERE, "", "", 0), now);
            IsTrue(MarkTrue(cs, t, now), Ready) <==> IsTrue(cs, Ready) && Shadowed(marked, ReadyVerdict(marked))
  {
    hide RecomputeReady, Shadowed, ReadyVerdict, Get;
    var c := Condition(t, True, SEVERE, "", "", 0);
    SetIsMapUpdate(cs, c, now);
    WithoutMembers(cs, t);
    SortMembers(Without(cs, t) + [c.(time := now)]);
    var marked := Set(cs, c, now);
    RecomputeExactly(marked, t, now);
    assert Counts(marked, foreign);
  }

  lemma MarkTrueCoherent(cs: seq<Condition>, t: ConditionType, now: int)
    requires WellFormed(cs) && t in DEPENDENTS
    ensures WellFormed(MarkTrue(cs, t, now)) && Coherent(MarkTrue(cs, t, now))
    ensures PlainTrue(MarkTrue(cs, t, now), t)
    ensures forall u | u != Ready && u != t :: Get(MarkTrue(cs, t, now), u) == Get(cs, u)
    ensures AllTrue(MarkTrue(cs, t, now)) ==> PlainTrue(MarkTrue(cs, t, now), Ready)
  {
    hide Set, RecomputeReady, WellFormed, Shadowed;
    var c := Condition(t, True, SEVERE, "", "", 0);
    WellFormedIsDistinct(cs);
    SetIsMapUpdate(cs, c, now);
    SetKeepsDistinct(cs, c, now);
    RecomputeCoherent(Set(cs, c, now), t, now);
  }

  lemma MarkFalseCoherent(cs: seq<Condition>, t: ConditionType, reason: string, message: string, now: int)
    requires WellFormed(cs) && t in DEPENDENTS
    ensures WellFormed(MarkFalse(cs, t, reason, message, now)) && Coherent(MarkFalse(cs, t, reason, message, now))
    ensures IsFalse(MarkFalse(cs, t, reason, message, now), t)
    ensures forall u | u != Ready && u != t :: Get(MarkFalse(cs, t, reason, message, now), u) == Get(cs, u)
  {
    var c := Condition(t, False, SEVERE, reason, message, 0);
    hide Set, Shadowed;
    SetIsMapUpdate(cs, c, now);
    SetKeepsDistinct(cs, c, now);
    SetIsMapUpdate(Set(cs, c, now), c.(ctype := Ready), now);
    SetKeepsDistinct(Set(cs, c, now), c.(ctype := Ready), now);
  }

  lemma InitializeOneEffect(cs: seq<Condition>, t: ConditionType, s: ConditionStatus, now: int)
    requires t in DEPENDENTS || t == Ready
    ensures var r := InitializeOne(cs, t, s, now);
            && (Distinct(cs) ==> Distinct(r)) && (WellFormed(cs) ==> WellFormed(r))
            && StatusOf(r, t) == (if Get(cs, t).Some? then StatusOf(cs, t) else Some(s))
            && (forall u | u != t :: Get(r, u) == Get(cs, u))
  {
    if Get(cs, t).None? {
      hide Set, WellFormed, Distinct;
      SetIsMapUpdate(cs, Condition(t, s, SEVERE, "", "", 0), now);
      if Distinct(cs) {
        SetKeepsDistinct(cs, Condition(t, s, SEVERE, "", "", 0), now);
      }
      if WellFormed(cs) {
        WellFormedIsDistinct(cs);
      }
    }
  }

  /** The status of a type after initializing. */
  function Filled(cs: seq<Condition>, t: ConditionType): Option<ConditionStatus> {
    if Get(cs, t).Some? then StatusOf(cs, t)
    else if t != Ready && IsTrue(cs, Ready) then Some(True)
    else Some(Unknown)
  }

  lemma InitializeEffect(cs: seq<Condition>, now: int)
    ensures Distinct(cs) ==> Distinct(Initialize(cs, now))
    ensures WellFormed(cs) ==> WellFormed(Initialize(cs, now))
    ensures StatusOf(Initialize(cs, now), Ready) == Filled(cs, Ready)
    ensures StatusOf(Initialize(cs, now), DependenciesInstalled) == Filled(cs, DependenciesInstalled)
    ensures StatusOf(Initialize(cs, now), DeploymentsAvailable) == Filled(cs, DeploymentsAvailable)
    ensures StatusOf(Initialize(cs, now), InstallSucceeded) == Filled(cs, InstallSucceeded)
  {
    var ready := InitializeOne(cs, Ready, Unknown, now);
    InitializeOneEffect(cs, Ready, Unknown, now);
    var s := if Get(ready, Ready).Some? && Get(ready, Ready).value.status == True then True else Unknown;
    var c1 := InitializeOne(ready, DependenciesInstalled, s, now);
    InitializeOneEffect(ready, DependenciesInstalled, s, now);
    var c2 := InitializeOne(c1, DeploymentsAvailable, s, now);
    InitializeOneEffect(c1, DeploymentsAvailable, s, now);
    InitializeOneEffect(c2, InstallSucceeded, s, now);
  }

  lemma FilledCoherent(cs: seq<Condition>, r: seq<Condition>)
    requires Coherent(cs)
    requires StatusOf(r, Ready) == Filled(cs, Ready)
    requires StatusOf(r, DependenciesInstalled) == Filled(cs, DependenciesInstalled)
    requires StatusOf(r, DeploymentsAvailable) == Filled(cs, DeploymentsAvailable)
    requires StatusOf(r, InstallSucceeded) == Filled(cs, InstallSucceeded)
    ensures Coherent(r) && KeepsVerdicts(cs, r)
  {}

  /** Everything is set, and what was True or False still is, nothing else. */
  predicate KeepsVerdicts(cs: seq<Condition>, r: seq<Condition>) {
    forall t | t in DEPENDENTS + {Ready} ::
      StatusOf(r, t).Some? && (IsFalse(r, t) <==> IsFalse(cs, t)) && (IsTrue(r, t) <==> IsTrue(cs, t))
  }

  /** Initializing fills the gaps: no verdict changes and a coherent list (an
      empty one, say) stays coherent. */
  lemma InitializeCoherent(cs: seq<Condition>, now: int)
    requires Coherent(cs)
    ensures Distinct(cs) ==> Distinct(Initialize(cs, now))
    ensures WellFormed(cs) ==> WellFormed(Initialize(cs, now))
    ensures Coherent(Initialize(cs, now))
    ensures KeepsVerdicts(cs, Initialize(cs, now))
  {
    hide *;
    InitializeEffect(cs, now);
    FilledCoherent(cs, Initialize(cs, now));
  }
}
