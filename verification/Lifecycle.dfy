/** The status of a KnativeServing and the marks that drive it. */
module Lifecycle {
  import opened Conditions

  /** What a mark is asked to record. */
  datatype Mark =
    | Initializing
    | InstallFailing(message: string)
    | InstallSucceeding
    | DeploymentsReady
    | DeploymentsNotReady
    | DependenciesReady
    | DependencyInstalling(message: string)
    | DependencyMissing(message: string)

  /** The conditions after a mark made at time `now`. */
  function Marked(cs: seq<Condition>, m: Mark, now: int): seq<Condition> {
    match m
    case Initializing => Initialize(cs, now)
    case InstallFailing(message) =>
      MarkFalse(cs, InstallSucceeded, "Error", "Install failed with message: " + message, now)
    case InstallSucceeding =>
      var installed := MarkTrue(cs, InstallSucceeded, now);
      // dependencies nobody has reported on count as installed from here
      if IsUnknown(installed, DependenciesInstalled) then MarkTrue(installed, DependenciesInstalled, now) else installed
    case DeploymentsReady => MarkTrue(cs, DeploymentsAvailable, now)
    case DeploymentsNotReady => MarkFalse(cs, DeploymentsAvailable, "NotReady", "Waiting on deployments", now)
    case DependenciesReady => MarkTrue(cs, DependenciesInstalled, now)
    case DependencyInstalling(message) =>
      MarkFalse(cs, DependenciesInstalled, "Installing", "Dependency installing: " + message, now)
    case DependencyMissing(message) =>
      MarkFalse(cs, DependenciesInstalled, "Error", "Dependency missing: " + message, now)
  }

  /** A sequence of marks, each with its own time. */
  function MarkedAll(cs: seq<Condition>, marks: seq<(Mark, int)>): seq<Condition>
    decreases |marks|
  {
    if marks == [] then cs
    else MarkedAll(Marked(cs, marks[0].0, marks[0].1), marks[1..])
  }

  predicate BlamesDependencies(m: Mark) {
    m.DependencyInstalling? || m.DependencyMissing?
  }

  /** The verdict a mark gives a dependent, if it gives one: the meaning of the
      marks without the list, the search or the Ready condition. */
  function Verdict(m: Mark, t: ConditionType, before: Option<ConditionStatus>): Option<ConditionStatus> {
    match m
    case Initializing => if before.None? then Some(Unknown) else before
    case InstallFailing(_) => if t == InstallSucceeded then Some(False) else before
    case InstallSucceeding =>
      if t == InstallSucceeded then Some(True)
      else if t == DependenciesInstalled && before != Some(False) then Some(True)
      else before
    case DeploymentsReady => if t == DeploymentsAvailable then Some(True) else before
    case DeploymentsNotReady => if t == DeploymentsAvailable then Some(False) else before
    case DependenciesReady => if t == DependenciesInstalled then Some(True) else before
    case DependencyInstalling(_) => if t == DependenciesInstalled then Some(False) else before
    case DependencyMissing(_) => if t == DependenciesInstalled then Some(False) else before
  }

  function Verdicts(marks: seq<(Mark, int)>, t: ConditionType, before: Option<ConditionStatus>)
    : Option<ConditionStatus>
    decreases |marks|
  {
    if marks == [] then before else Verdicts(marks[1..], t, Verdict(marks[0].0, t, before))
  }

  // ----- one mark

  lemma MarkedCoherent(cs: seq<Condition>, m: Mark, now: int)
    requires WellFormed(cs) && Coherent(cs)
    ensures WellFormed(Marked(cs, m, now)) && Coherent(Marked(cs, m, now))
  {
    hide MarkTrue, MarkFalse, Initialize, WellFormed, Coherent, Get;
    match m
    case Initializing =>
      InitializeCoherent(cs, now);
    case InstallFailing(message) =>
      MarkFalseCoherent(cs, InstallSucceeded, "Error", "Install failed with message: " + message, now);
    case InstallSucceeding => InstallSucceedingEffect(cs, now);
    case DeploymentsReady => MarkTrueCoherent(cs, DeploymentsAvailable, now);
    case DeploymentsNotReady =>
      MarkFalseCoherent(cs, DeploymentsAvailable, "NotReady", "Waiting on deployments", now);
    case DependenciesReady => MarkTrueCoherent(cs, DependenciesInstalled, now);
    case DependencyInstalling(message) =>
      MarkFalseCoherent(cs, DependenciesInstalled, "Installing", "Dependency installing: " + message, now);
    case DependencyMissing(message) =>
      MarkFalseCoherent(cs, DependenciesInstalled, "Error", "Dependency missing: " + message, now);
  }

  /** A successful install marks itself, and dependencies unless they are known
      to be missing; the other dependent is untouched. */
  lemma InstallSucceedingEffect(cs: seq<Condition>, now: int)
    requires WellFormed(cs)
    ensures WellFormed(Marked(cs, InstallSucceeding, now)) && Coherent(Marked(cs, InstallSucceeding, now))
    ensures PlainTrue(Marked(cs, InstallSucceeding, now), InstallSucceeded)
    ensures IsTrue(Marked(cs, InstallSucceeding, now), DependenciesInstalled) <==> !IsFalse(cs, DependenciesInstalled)
    ensures IsFalse(Marked(cs, InstallSucceeding, now), DependenciesInstalled) <==> IsFalse(cs, DependenciesInstalled)
    ensures Get(Marked(cs, InstallSucceeding, now), DeploymentsAvailable) == Get(cs, DeploymentsAvailable)
  {
    hide MarkTrue, WellFormed, Get;
    MarkTrueCoherent(cs, InstallSucceeded, now);
    var installed := MarkTrue(cs, InstallSucceeded, now);
    var dependencies := StatusOf(cs, DependenciesInstalled);
    assert StatusOf(installed, DependenciesInstalled) == dependencies;
    assert dependencies.None? || dependencies.value.True? || dependencies.value.False? || dependencies.value.Unknown?;
    MarkTrueCoherent(installed, DependenciesInstalled, now);
    assert IsTrue(MarkTrue(installed, DependenciesInstalled, now), DependenciesInstalled);
  }

  lemma MarkedVerdict(cs: seq<Condition>, m: Mark, now: int, t: ConditionType)
    requires WellFormed(cs) && Coherent(cs) && t in DEPENDENTS
    ensures StatusOf(Marked(cs, m, now), t) == Verdict(m, t, StatusOf(cs, t))
  {
    hide MarkTrue, MarkFalse, Initialize, WellFormed, Get;
    match m
    case Initializing =>
      InitializeEffect(cs, now);
    case InstallFailing(message) =>
      MarkFalseCoherent(cs, InstallSucceeded, "Error", "Install failed with message: " + message, now);
    case InstallSucceeding => InstallSucceedingEffect(cs, now);
    case DeploymentsReady => MarkTrueCoherent(cs, DeploymentsAvailable, now);
    case DeploymentsNotReady =>
      MarkFalseCoherent(cs, DeploymentsAvailable, "NotReady", "Waiting on deployments", now);
    case DependenciesReady => MarkTrueCoherent(cs, DependenciesInstalled, now);
    case DependencyInstalling(message) =>
      MarkFalseCoherent(cs, DependenciesInstalled, "Installing", "Dependency installing: " + message, now);
    case DependencyMissing(message) =>
      MarkFalseCoherent(cs, DependenciesInstalled, "Error", "Dependency missing: " + message, now);
  }

  /** The text of a mark that blames: the dependent it is about, reason and message. */
  function Complaint(m: Mark): Option<(ConditionType, string, string)> {
    match m
    case InstallFailing(message) => Some((InstallSucceeded, "Error", "Install failed with message: " + message))
    case DeploymentsNotReady => Some((DeploymentsAvailable, "NotReady", "Waiting on deployments"))
    case DependencyInstalling(message) =>
      Some((DependenciesInstalled, "Installing", "Dependency installing: " + message))
    case DependencyMissing(message) => Some((DependenciesInstalled, "Error", "Dependency missing: " + message))
    case _ => None
  }

  /** A mark that blames shows its text on the dependent and on Ready; one that does
      not shows none. */
  lemma MarkedText(cs: seq<Condition>, m: Mark, now: int)
    requires WellFormed(cs)
    ensures Complaint(m).Some? ==>
              var (t, reason, message) := Complaint(m).value;
              var entry, ready := Get(Marked(cs, m, now), t), Get(Marked(cs, m, now), Ready);
              && entry.Some? && entry.value.reason == reason && entry.value.message == message
              && ready.Some? && ready.value.reason == reason && ready.value.message == message
    ensures m.InstallSucceeding? ==> PlainTrue(Marked(cs, m, now), InstallSucceeded)
    ensures m.DeploymentsReady? ==> PlainTrue(Marked(cs, m, now), DeploymentsAvailable)
    ensures m.DependenciesReady? ==> PlainTrue(Marked(cs, m, now), DependenciesInstalled)
  {
    hide Set, RecomputeReady, WellFormed, Get, Shadowed;
    WellFormedIsDistinct(cs);
    match m {
      case InstallSucceeding => InstallSucceedingEffect(cs, now);
      case DeploymentsReady => MarkTrueCoherent(cs, DeploymentsAvailable, now);
      case DependenciesReady => MarkTrueCoherent(cs, DependenciesInstalled, now);
      case Initializing =>
      case _ =>
        var (t, reason, message) := Complaint(m).value;
        var c := Condition(t, False, SEVERE, reason, message, 0);
        SetIsMapUpdate(cs, c, now);
        SetKeepsDistinct(cs, c, now);
        SetIsMapUpdate(Set(cs, c, now), c.(ctype := Ready), now);
    }
  }

  // ----- every sequence of marks

  /** From the empty status, however the marks and initializations are
      interleaved, Ready stays True exactly while all dependents are True and
      False exactly while one is False, and each dependent holds the verdict of
      the last mark about it. */
  lemma {:induction false} EverySequenceOfMarks(cs: seq<Condition>, marks: seq<(Mark, int)>)
    requires WellFormed(cs) && Coherent(cs)
    ensures WellFormed(MarkedAll(cs, marks)) && Coherent(MarkedAll(cs, marks))
    ensures forall t | t in DEPENDENTS :: StatusOf(MarkedAll(cs, marks), t) == Verdicts(marks, t, StatusOf(cs, t))
    decreases |marks|
  {
    hide Marked, WellFormed, Coherent, StatusOf, Verdict;
    if marks != [] {
      var next := Marked(cs, marks[0].0, marks[0].1);
      MarkedCoherent(cs, marks[0].0, marks[0].1);
      EverySequenceOfMarks(next, marks[1..]);
      forall t | t in DEPENDENTS
        ensures StatusOf(MarkedAll(cs, marks), t) == Verdicts(marks, t, StatusOf(cs, t))
      {
        MarkedVerdict(cs, marks[0].0, marks[0].1, t);
      }
    }
  }

  /** Without the two marks that blame them, dependencies are never False. */
  lemma {:induction false} DependenciesNeverFalse(cs: seq<Condition>, marks: seq<(Mark, int)>)
    requires WellFormed(cs) && Coherent(cs) && !IsFalse(cs, DependenciesInstalled)
    requires forall m | m in marks :: !BlamesDependencies(m.0)
    ensures !IsFalse(MarkedAll(cs, marks), DependenciesInstalled)
    decreases |marks|
  {
    hide Marked, WellFormed, Coherent, StatusOf;
    if marks != [] {
      assert marks[0] in marks;
      MarkedCoherent(cs, marks[0].0, marks[0].1);
      MarkedVerdict(cs, marks[0].0, marks[0].1, DependenciesInstalled);
      DependenciesNeverFalse(Marked(cs, marks[0].0, marks[0].1), marks[1..]);
    }
  }

  /** The empty status starts both results off. */
  lemma EmptyStatusIsCoherent()
    ensures WellFormed([]) && Coherent([]) && !IsFalse([], DependenciesInstalled)
  {}

  // ----- marking what already holds

  /** Once the install and the deployments are marked True the plain way and
      dependencies and Ready are True, marking success again changes nothing,
      not even a transition time. */
  predicate Settled(cs: seq<Condition>) {
    && PlainTrue(cs, InstallSucceeded) && PlainTrue(cs, DeploymentsAvailable) && PlainTrue(cs, Ready)
    && IsTrue(cs, DependenciesInstalled)
  }

  lemma SetAgainChangesNothing(cs: seq<Condition>, t: ConditionType, now: int)
    requires PlainTrue(cs, t)
    ensures Set(cs, Condition(t, True, SEVERE, "", "", 0), now) == cs
  {
    GetIsMembership(cs, t);
    var i :| 0 <= i < |cs| && cs[i] == Get(cs, t).value;
    assert Same(Condition(t, True, SEVERE, "", "", 0), cs[i]);
  }

  lemma MarkTrueAgain(cs: seq<Condition>, t: ConditionType, now: int)
    requires WellFormed(cs) && t in DEPENDENTS
    requires PlainTrue(cs, t) && PlainTrue(cs, Ready) && AllTrue(cs)
    ensures MarkTrue(cs, t, now) == cs
  {
    SetAgainChangesNothing(cs, t, now);
    UnhappyExactly(cs);
    AllDependentsTrue(cs);
    SetAgainChangesNothing(cs, Ready, now);
  }

  lemma SettledStays(cs: seq<Condition>, now: int, later: int)
    requires WellFormed(cs) && Settled(cs)
    ensures Marked(Marked(cs, InstallSucceeding, now), DeploymentsReady, later) == cs
  {
    MarkTrueAgain(cs, InstallSucceeded, now);
    MarkTrueAgain(cs, DeploymentsAvailable, later);
  }

  /** Success marked twice over settles any status that does not blame
      dependencies. */
  lemma SuccessSettles(cs: seq<Condition>, now: int, later: int)
    requires WellFormed(cs) && !IsFalse(cs, DependenciesInstalled)
    ensures WellFormed(Marked(Marked(cs, InstallSucceeding, now), DeploymentsReady, later))
    ensures Settled(Marked(Marked(cs, InstallSucceeding, now), DeploymentsReady, later))
  {
    InstallSucceedingEffect(cs, now);
    MarkTrueCoherent(Marked(cs, InstallSucceeding, now), DeploymentsAvailable, later);
  }

  // ----- the status object

  /** The value of a status. */
  datatype Status = Status(conditions: seq<Condition>, version: string)

  class KnativeServingStatus {
    var conditions: seq<Condition>
    var version: string

    constructor ()
      ensures Value() == Status([], "")
    {
      conditions, version := [], "";
    }

    function Value(): Status
      reads this
    {
      Status(conditions, version)
    }

    function GetCondition(t: ConditionType): Option<Condition>
      reads this
    {
      Get(conditions, t)
    }

    predicate IsReady()
      reads this
    {
      IsTrue(conditions, Ready)
    }

    predicate IsInstalled()
      reads this
    {
      IsTrue(conditions, InstallSucceeded)
    }

    predicate IsAvailable()
      reads this
    {
      IsTrue(conditions, DeploymentsAvailable)
    }

    predicate IsDeploying()
      reads this
    {
      IsInstalled() && !IsAvailable()
    }

    predicate IsFullySupported()
      reads this
    {
      IsTrue(conditions, DependenciesInstalled)
    }

    method InitializeConditions(now: int)
      modifies this`conditions
      ensures conditions == Marked(old(conditions), Initializing, now)
    {
      conditions := Initialize(conditions, now);
    }

    method MarkInstallFailed(message: string, now: int)
      modifies this`conditions
      ensures conditions == Marked(old(conditions), InstallFailing(message), now)
    {
      conditions := MarkFalse(conditions, InstallSucceeded, "Error", "Install failed with message: " + message, now);
    }

    method MarkInstallSucceeded(now: int)
      modifies this`conditions
      ensures conditions == Marked(old(conditions), InstallSucceeding, now)
    {
      hide MarkTrue, Get;
      conditions := MarkTrue(conditions, InstallSucceeded, now);
      if IsUnknown(conditions, DependenciesInstalled) {
        MarkDependenciesInstalled(now);
      }
    }

    method MarkDeploymentsAvailable(now: int)
      modifies this`conditions
      ensures conditions == Marked(old(conditions), DeploymentsReady, now)
    {
      conditions := MarkTrue(conditions, DeploymentsAvailable, now);
    }

    method MarkDeploymentsNotReady(now: int)
      modifies this`conditions
      ensures conditions == Marked(old(conditions), DeploymentsNotReady, now)
    {
      conditions := MarkFalse(conditions, DeploymentsAvailable, "NotReady", "Waiting on deployments", now);
    }

    method MarkDependenciesInstalled(now: int)
      modifies this`conditions
      ensures conditions == Marked(old(conditions), DependenciesReady, now)
    {
      conditions := MarkTrue(conditions, DependenciesInstalled, now);
    }

    method MarkDependencyInstalling(message: string, now: int)
      modifies this`conditions
      ensures conditions == Marked(old(conditions), DependencyInstalling(message), now)
    {
      conditions :=
        MarkFalse(conditions, DependenciesInstalled, "Installing", "Dependency installing: " + message, now);
    }

    method MarkDependencyMissing(message: string, now: int)
      modifies this`conditions
      ensures conditions == Marked(old(conditions), DependencyMissing(message), now)
    {
      conditions := MarkFalse(conditions, DependenciesInstalled, "Error", "Dependency missing: " + message, now);
    }
  }
}
