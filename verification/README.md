# Knative Serving operator: a verified model

The operator watches `KnativeServing` objects and installs, updates and removes a
release of Knative Serving for them. This project models how it does that and proves
what it relies on:

- **The reconcile and finalize protocol** (`World`, `Passes`, `Operator`). A store with
  optimistic locking, a cache that holds some past version of each object and only moves
  forward, an environment that edits objects and loses calls between any two calls of the
  operator, and the operator's pass over a key: the generated reconciler with its finalizer
  `knativeservings.operator.knative.dev` (K), its status write and retry loop, around the
  hand-written one with its finalizer `delete-knative-serving-manifest` (D), generation
  gate, stages and teardown. `Passes` gives a pass as a function of the world; `Operator`
  gives the program, with loops, objects edited in place and pointers shared with the
  cache, and proves that it does what the function says. Safety over every run is in
  `Safety`, what conflicting writes amount to in `Conflicts` and `Retries`, what a pass
  reports in `Verdicts`, progress without interference in `Convergence`, `Refusals` and
  `Termination` and after any run in `Recovery`, the end of a finalization step by step in
  `Releases`, the reports of changes in `Generations`, which keys the operator remembers and
  what that decides in `Tracking`, what a failed patch leaves behind in `ZeroObject` and
  `StatusLoss`, and the failing inputs, as runs from the empty store, in `Inputs`.
- **Install and teardown** (`Manifests`, `PassOutcomes`, `RoundTrip`). The order in which a
  manifest is applied and deleted wherever the calls stop, the verdict a pass ends with, and
  what an install followed by the last finalization leaves in the cluster.
- **The status conditions** (`Conditions`, `Lifecycle`): the list of conditions the vendored
  condition set keeps, and every mark.
- **The transform pipeline** (`Template`, `Transforms`, `Pipeline`, `InPlace`,
  `ResourceLists`, `Rendered`). The six transformers driven by the spec, as functions, in sequence,
  against a specification by kind; what they make of each kind of resource, without the
  functions that compute it; and as programs that edit resources in place, with the maps
  that merging shares between the spec and a container.
- **Heap isolation** (`DeepCopies`, `Isolation`): objects as graphs of references, their
  generated copies, and the undeleted path on such a graph.

`Invariant`, `Writes`, `Calls` and `LivePath` carry the invariant of all runs through
writes, calls and the undeleted path; `QuietCalls` says what each call does when nobody
interferes; `Scripts` follows given scripts of the environment; `Text` and `Resources` hold
strings and the resources' types.

A run is a list of events: the environment takes a turn, a worker passes over a key, the
process restarts. What the environment does is a script that every call consumes a turn
of, so a statement about all worlds is one about all interleavings. Statements that start
from `Inv` cover every world any run reaches (`Safety.RunKeeps`).

Where the code differs from what its comments or its purpose suggest, the model follows the
code; a theorem gives an input and says exactly when the intention is met:

- Teardown of a deleted object finishes, and D comes off, only if D leads the finalizers or
  will once K is gone and the rest is listed in order (`Termination.TeardownReleasesD`). On a
  list D does not lead and that holds K, any foreign finalizer that comes before D, by its
  characters, keeps D for good (`Termination.ForeignFinalizerKeepsD`); the first one decides
  if it differs (`Termination.FirstCharactersDecide`).
- `delete` cuts the head of the list it fetches again without looking at it. D is gone from
  it exactly if D leads then and occurs once (`Releases.CutTakesHead`); reordered in between,
  another finalizer goes and D stays (`Inputs.ReorderedListLosesOther`). Over every run, no
  write of the operator's drops any finalizer but K otherwise (`Safety.OwnWritesDropOnlyK`).
- `delete` edits the object the lister handed out. Until the cache hears of the update that
  follows, the patch that should clear K is based on a replaced version and is never
  accepted (`Releases.StaleCopyNeverClears`). Whatever else happens, K goes in the same pass
  exactly if the generated half lists an object with K whose version is what is stored when
  its patch arrives, and the patch is not lost (`Releases.ClearsKExactly`).
- If the update after the cut is lost, the cache's object has lost D all the same. The next
  patch that clears K is then not the removal of K from what is stored but takes D along
  (`Inputs.ReleasedCopyTakesD`); it is that set operation exactly if copy and store agree
  but for K (`Conflicts.PatchIsSetOperation`).
- Finalizing the last KnativeServing should delete the manifest. A finalization that ends well
  does so exactly if no other key is among the generations (`Tracking.FinalizationDeletesIff`);
  over every run, exactly if no other key's last call in this process was an arrival
  (`Tracking.LastFinalization`), whether or not other objects exist. One way to go wrong is a
  failed finalizer patch, after which the pass goes on with the zero object: that is so
  exactly if the object listed again lacks K and the patch is lost or refused
  (`ZeroObject.ZeroInstance`), the zero object's key is then remembered for as long as the
  process lives (`ZeroObject.ZeroKeyTracked`), and no finalization deletes anything
  (`ZeroObject.ZeroObjectStopsTeardown`, on the input of `Inputs.LastFinalizationDeletesNothing`;
  `Inputs.ConflictGivesZero` has a refused patch). Another is an object that vanishes between
  two listings of a pass, which remembers its key (`Inputs.VanishedIsRemembered`).
- Such a failed patch can also cost a live object its status: the pass ends by writing the
  status of the zero object over it, exactly if the two differ and the version the pass
  started from is still stored when the write arrives (`StatusLoss.LivePassErases`,
  `StatusLoss.DeletingPassErases`, on the input of `Inputs.LostPatchErasesStatus`).
- Left alone, an undeleted object converges exactly if its status does not blame dependencies
  and the gate admits its generation, or only K is missing (`Refusals.ConvergesExactly`). The
  operator itself never blames dependencies (`Recovery.NeverBlamed`), so that after any run
  every object it admits converges once it is left alone (`Recovery.Recovers`). An
  object created anew while its key is remembered with a higher generation is refused for
  good (`Inputs.RecreatedNeverConverges`).
- Teardown works on the manifest as shipped, install on the one moved to the object's
  namespace. Installing and finalizing leaves nothing but CRDs exactly if teardown deletes
  every other resource, and knows it by the identity it was installed under
  (`RoundTrip.RoundTripIff`); for every manifest, what is left is a CRD, a Namespace the
  library did not create, or a resource that was moved (`RoundTrip.OnlyMovedLeft`). The
  operator's own manifest has both of the latter: the Namespace
  (`RoundTrip.ShippedNamespaceStays`), and a RoleBinding shipped for `kube-system`, which is
  installed into the object's namespace and stays there (`RoundTrip.ShippedBindingStays`).
- Substituting a name into an image template leaves no `${NAME}` behind, whatever the
  template, exactly for the names that agree with the variable on no overlap
  (`Template.NoVariableLeftIff`); label names are such.
- Ready follows whatever conditions are severe, of any type, unless the list has a second
  entry for Ready that already says so. It follows its three dependents exactly if those
  agree with them (`Conditions.CoherentExactly`); a severe condition of another type that is
  not True blocks it (`Conditions.ForeignConditionBlocksReady`).

`dafny verify dfyconfig.toml` checks the project.

## Model

| member | source | states |
|---|---|---|
| Safety.ReleaseOnlyAfterTeardown | pkg/reconciler/knativeserving/knativeserving.go:79-295 | in every run, a version that takes D from an object comes after that very version was released by a finalization of its key that still tracked other keys or had deleted every resource of the shipped manifest a teardown may delete |
| Safety.FinalizerBeforeInstall | pkg/reconciler/knativeserving/knativeserving.go:137-155 | in every run, with interference between any two calls, whenever a resource is applied for an object, that object is stored at that moment with D on it |
| Safety.FinalizerWhileUndeleted | pkg/reconciler/knativeserving/knativeserving.go:255-264 | in every run, while the cache shows an object undeleted, D, once stored on it, is on the live object |
| Safety.OwnWritesDropOnlyK | pkg/reconciler/knativeserving/knativeserving.go:255-295 | in every run, a write of the operator's own that drops any finalizer but K comes after the very version it replaced was released, by a finalization of its key that still tracked other keys or had deleted all it may |
| Safety.OwnWritesChangeOnePart | pkg/reconciler/knativeserving/knativeserving.go:173-264 | in every run, a write of the operator's own replaces a version and changes its finalizers, adding none but the operator's two by name, or its status, never both and nothing else |
| Safety.VersionHistory | pkg/client/clientset/versioned/typed/serving/v1alpha1/knativeserving.go:124-191 | in every run, from version to version: the generation counts changes of the spec and the deletion, which is for good; no finalizer comes on after it, and with the last one the object is gone |
| Safety.RunKeeps | pkg/client/injection/reconciler/serving/v1alpha1/knativeserving/reconciler.go:112-202 | every run, with crashes, conflicts, lost calls and stale reads, keeps the invariant and forgets nothing |
| Safety.ReconcileKeeps | pkg/client/injection/reconciler/serving/v1alpha1/knativeserving/reconciler.go:112-202 | one pass keeps the invariant, whatever happens between its calls |
| Safety.FinalizeKindKeeps | pkg/reconciler/knativeserving/knativeserving.go:79-91 | a finalization keeps it, however far it gets |
| Safety.DropFinalizerKeeps | pkg/reconciler/knativeserving/knativeserving.go:287-294 | so does releasing the cache's own object, once the teardown is complete or others remain |
| Safety.StillDeleting | pkg/reconciler/knativeserving/knativeserving.go:287-291 | the object fetched again carries D only if it is being deleted, although the cache may have moved on to a new object of the same name |
| LivePath.DStays | pkg/reconciler/knativeserving/knativeserving.go:255-264 | an object that had D and was never released is live and has it |
| LivePath.SetFinalizerSafe | pkg/client/injection/reconciler/serving/v1alpha1/knativeserving/reconciler.go:296-312 | after the generated reconciler's first step the instance is not being deleted, and is the zero object or one of an object never released, lacking none of its finalizers |
| LivePath.AllStagesSafe | pkg/reconciler/knativeserving/knativeserving.go:131-158 | the stages keep the invariant, in which every apply is for a stored object with D |
| LivePath.EnsureFinalizerSafe | pkg/reconciler/knativeserving/knativeserving.go:255-264 | if the stage ends well, the instance is a real one and its object had D stored |
| LivePath.ReconcileLiveSafe | pkg/client/injection/reconciler/serving/v1alpha1/knativeserving/reconciler.go:150-162 | an undeleted pass keeps the invariant and releases nothing |
| Writes.CommitKeeps | pkg/client/clientset/versioned/typed/serving/v1alpha1/knativeserving.go:124-191 | an accepted write keeps the invariant if it drops D only from released versions and adds it only to objects the cache has seen |
| Writes.EditKeeps | pkg/client/listers/serving/v1alpha1/knativeserving.go:85-94 | so does any edit of the environment that leaves D alone, and any news the cache gets |
| Calls.PatchKeeps | pkg/client/clientset/versioned/typed/serving/v1alpha1/knativeserving.go:180-191 | an accepted patch replaced the version it was based on, live until then, by the same object with other finalizers and nothing else changed |
| Calls.UpdateStatusKeeps | pkg/client/clientset/versioned/typed/serving/v1alpha1/knativeserving.go:139-151 | an accepted status write replaced the version it was based on, live until then, and changed the status only |
| Conflicts.PatchIsSetOperation | pkg/client/injection/reconciler/serving/v1alpha1/knativeserving/reconciler.go:235-294 | however old the cached copy and whoever edited it, an accepted patch changes the finalizers only, to the copy's with K added or removed; that is the atomic set operation on the stored ones exactly if copy and store agree but for K, as they do unless the version was released; a refused or dropped patch changes nothing |
| Inputs.ReleasedCopyTakesD | pkg/client/injection/reconciler/serving/v1alpha1/knativeserving/reconciler.go:240-285 | a run on which it is not: the update after a release is lost, and the patch that then clears K takes D along, so that the object is gone |
| Conflicts.StatusRetry | pkg/client/injection/reconciler/serving/v1alpha1/knativeserving/reconciler.go:204-230 | if the loop reports no error, the desired status was stored at some moment of the call, and none of its writes touched anything but the status, under arbitrary interference |
| Conflicts.RetryFrom | vendor/knative.dev/pkg/reconciler/retry.go:24-31 | the same from any attempt on |
| Retries.RetriesExactly | pkg/client/injection/reconciler/serving/v1alpha1/knativeserving/reconciler.go:204-230 | under every script, the first of five attempts that is not contested decides, be it a write, a status found to be the desired one, or an error other than a conflict; if all five are contested nothing is written and the conflict is the result |
| Retries.FiveAttempts | vendor/k8s.io/client-go/util/retry/util.go:28-33 | with no call lost, the object staying stored and its status another: no error exactly if one of the first five attempts is not preceded by somebody else's write, and the first such stores the desired status over what is there by then |
| Retries.StatusStep | pkg/client/injection/reconciler/serving/v1alpha1/knativeserving/reconciler.go:175-186 | statuses that agree in version and, condition by condition, in everything but the time are not written; otherwise the loop runs, and its error is the pass's |
| Conflicts.UpdateStatusWrites | pkg/client/clientset/versioned/typed/serving/v1alpha1/knativeserving.go:139-151 | a status write changes the status of the version it replaces and nothing else |
| Convergence.ConvergesInTwoPasses | pkg/client/injection/reconciler/serving/v1alpha1/knativeserving/reconciler.go:146-230 | left alone with a synced cache, an undeleted object that the gate admits and whose status does not blame dependencies has both finalizers, the version and Ready True after at most two passes, and no later pass writes any version |
| Convergence.OnePass | pkg/reconciler/knativeserving/knativeserving.go:185-264 | one pass is enough exactly unless it has to attach D to an object without conditions, where the status write conflicts with the operator's own update |
| Convergence.AttachedInOrder | pkg/reconciler/knativeserving/knativeserving.go:255-264 | where a pass puts the finalizers: K, then D, after whatever was there; but what comes before D is put in ascending order if K was there already |
| Convergence.StagesAt | pkg/reconciler/knativeserving/knativeserving.go:137-155 | where the five stages leave the stored object and the instance |
| Convergence.InitAt | pkg/reconciler/knativeserving/knativeserving.go:185-196 | initializing conflicts exactly when the instance kept an old resource version |
| Convergence.PassEnds | pkg/client/injection/reconciler/serving/v1alpha1/knativeserving/reconciler.go:175-186 | what the status write at the end leaves; a status equal up to transition times is not written |
| Convergence.ReachablyPlaced | pkg/client/listers/serving/v1alpha1/knativeserving.go:85-94 | every stored object of every run is placed as convergence asks, and syncing the cache is an edit of the environment |
| Refusals.ConvergesExactly | pkg/reconciler/knativeserving/knativeserving.go:95-158 | left alone, such an object has converged after two passes, and for good, exactly if its status does not blame dependencies and its generation is at least the one remembered, or it lacks nothing but K |
| Refusals.RefusedForGood | pkg/reconciler/knativeserving/knativeserving.go:105-120 | an object of a lower generation than the one remembered gets K and nothing else, however many passes follow |
| Refusals.BlamedForGood | pkg/reconciler/knativeserving/knativeserving.go:131-158 | a status that blames dependencies does so after any number of passes, although every stage succeeds |
| Recovery.NeverBlamed | pkg/reconciler/knativeserving/knativeserving.go:131-221 | in every run in which nobody else does, no status ever stored blames dependencies, whatever fails |
| Recovery.Recovers | pkg/reconciler/knativeserving/knativeserving.go:95-264 | after every such run, once every call succeeds and nobody interferes, an undeleted object that is admitted and can be rendered has both finalizers, the version and Ready True after two passes and for good |
| Inputs.RecreatedNeverConverges | pkg/reconciler/knativeserving/knativeserving.go:105-120 | a run from the empty store whose object, created anew under a remembered key, never converges |
| QuietCalls.RetryAt | pkg/client/injection/reconciler/serving/v1alpha1/knativeserving/reconciler.go:204-230 | without interference the loop stores the desired status by its second attempt |
| QuietCalls.UpdateStatusConflicts | pkg/reconciler/knativeserving/knativeserving.go:173-182 | a status write based on a version the operator itself replaced conflicts and changes nothing |
| Termination.TeardownTerminates | pkg/reconciler/knativeserving/knativeserving.go:267-295 | a deleted object is gone after at most as many synced passes as it has finalizers exactly if all of them are K and D |
| Termination.TeardownReleasesD | pkg/reconciler/knativeserving/knativeserving.go:267-295 | among any other finalizers and with any duplicates, D goes exactly if it leads the list or will once K is gone and the rest is sorted, within as many passes as there are finalizers, two if there are no duplicates; otherwise it never goes; K always goes |
| Termination.PassSheds | pkg/client/injection/reconciler/serving/v1alpha1/knativeserving/reconciler.go:163-186 | what one synced pass does to the stored list, and that the object is gone exactly when nothing is left |
| Termination.PassesShed | pkg/client/injection/reconciler/serving/v1alpha1/knativeserving/reconciler.go:163-186 | any number of passes |
| Termination.ShedShrinks | pkg/reconciler/knativeserving/knativeserving.go:270-292 | a pass shortens the list or no pass ever will |
| Termination.OwnFinalizersVanish | pkg/client/injection/reconciler/serving/v1alpha1/knativeserving/reconciler.go:314-339 | each pass strictly shrinks a list of K and D; any list empties exactly if it holds nothing else |
| Termination.DReleased | pkg/client/injection/reconciler/serving/v1alpha1/knativeserving/reconciler.go:262-269 | the condition on lists, duplicates included, for D to go |
| Termination.ForeignFinalizerKeepsD | pkg/client/injection/reconciler/serving/v1alpha1/knativeserving/reconciler.go:266-269 | on every list that D does not lead and that holds K, a foreign finalizer that precedes D by its characters keeps D, however many passes follow |
| Termination.FirstCharactersDecide | pkg/client/injection/reconciler/serving/v1alpha1/knativeserving/reconciler.go:266-269 | an object with K, another finalizer and D, in this order: D goes exactly if the other begins with a greater character, and the list stored after the first pass is given |
| Termination.StoredAscends | pkg/client/injection/reconciler/serving/v1alpha1/knativeserving/reconciler.go:267-269 | the list stored after a pass that D does not lead is the ascending one of the rest, of which there is but one |
| Text.LexLeqExactly | vendor/k8s.io/apimachinery/pkg/util/sets/string.go:165-177 | the comparison holds exactly of equals, of a beginning and its continuation, and where the first character that differs is the smaller |
| Text.SortedAscends | vendor/k8s.io/apimachinery/pkg/util/sets/string.go:170-177 | of any two places in the listing of a set the earlier precedes the later in that sense |
| Text.AscendingIsUnique | vendor/k8s.io/apimachinery/pkg/util/sets/string.go:170-177 | two ascending lists of the same elements are equal |
| Termination.ClearFinalizerConflicts | pkg/reconciler/knativeserving/knativeserving.go:288-293 | in a world left alone, after D went by way of the cache's object, clearing K changes nothing and leaves a zero object if K is there |
| Termination.ClearFinalizerLeaves | pkg/client/injection/reconciler/serving/v1alpha1/knativeserving/reconciler.go:314-339 | when D was not the head, K goes and the rest is listed in order |
| Termination.FinalizeKindLeaves | pkg/reconciler/knativeserving/knativeserving.go:79-91 | the hand-written half takes D exactly if it is the head |
| Releases.CutTakesHead | pkg/reconciler/knativeserving/knativeserving.go:287-292 | for every list fetched again, none and the empty one included: its head is cut, whichever it is; D is gone from it exactly if D is the head and occurs once, and a head that occurs again is not gone |
| Inputs.ReorderedListLosesOther | pkg/reconciler/knativeserving/knativeserving.go:287-293 | a run on which D led when the finalization began and another finalizer goes: the list was reordered before the second fetch, and D stays stored |
| Releases.StaleCopyNeverClears | pkg/client/injection/reconciler/serving/v1alpha1/knativeserving/reconciler.go:271-285 | a patch based on a replaced version is never accepted, whatever happens first |
| Releases.ClearsKExactly | pkg/client/injection/reconciler/serving/v1alpha1/knativeserving/reconciler.go:314-339 | under every script: K is cleared, and with it nothing the listed copy has, exactly if the object listed has K, its version is stored when the patch arrives, and the patch is not lost on its way; otherwise the step writes nothing |
| Releases.KGoesInTheSamePass | pkg/client/injection/reconciler/serving/v1alpha1/knativeserving/reconciler.go:314-339 | when nothing but news reaches the cache, once the update that cut D is in, K goes in the same pass exactly if the cache has heard of it when the generated half lists |
| Releases.FinalizationFails | pkg/reconciler/knativeserving/knativeserving.go:267-286 | without D at the head a finalization does nothing and ends well; with it, and no other key remembered, a deletion that is not acknowledged is its error, and nothing is released |
| Releases.FailedFinalizationKeepsK | pkg/client/injection/reconciler/serving/v1alpha1/knativeserving/reconciler.go:314-339 | a pass whose finalization failed ends with that error and does not take K |
| ZeroObject.ZeroKeyTracked | pkg/client/injection/reconciler/serving/v1alpha1/knativeserving/reconciler.go:156-162 | in every run of one process the zero object's key is among the generations exactly if it was, or in some pass over a live object the patch that adds K was due and was lost or refused |
| ZeroObject.ZeroInstance | pkg/client/injection/reconciler/serving/v1alpha1/knativeserving/reconciler.go:235-312 | the first step gives the zero object exactly if the object is listed again without K, and the patch is lost or refused |
| ZeroObject.NoTeardownWithZero | pkg/reconciler/knativeserving/knativeserving.go:87-90 | while it is, a pass that finds no live object leaves the cluster as it is |
| ZeroObject.ZeroObjectStopsTeardown | pkg/reconciler/knativeserving/knativeserving.go:275-286 | so after one such patch no finalization of that process deletes anything |
| Inputs.LastFinalizationDeletesNothing | pkg/reconciler/knativeserving/knativeserving.go:267-295 | a run on which the only object left is finalized and released, and the cluster stays as it is: the patch of another, since gone, was lost |
| Inputs.ConflictGivesZero | pkg/client/injection/reconciler/serving/v1alpha1/knativeserving/reconciler.go:279-294 | a run on which the patch is refused because somebody wrote to the object first |
| Inputs.VanishedIsRemembered | pkg/reconciler/knativeserving/knativeserving.go:105-120 | a run on which a key is remembered whose object is gone, without any zero object: it vanished between two listings of a pass |
| Tracking.RemembersArrivals | pkg/reconciler/knativeserving/knativeserving.go:79-129 | in every run, with crashes and restarts, a key is among the generations exactly if its last call since the process started was an arrival |
| Tracking.NoTeardownWithOther | pkg/reconciler/knativeserving/knativeserving.go:275-286 | while another key is, a pass that finds no live object leaves the cluster as it is, however it ends |
| Tracking.FinalizationDeletesIff | pkg/reconciler/knativeserving/knativeserving.go:79-286 | a finalization that D leads and that ends well deletes exactly what a teardown may if no other key is among the generations, and nothing otherwise |
| Tracking.LastFinalization | pkg/reconciler/knativeserving/knativeserving.go:79-286 | over every run: it deletes exactly if no other key's last call of that process was an arrival |
| StatusLoss.LivePassErases | pkg/client/injection/reconciler/serving/v1alpha1/knativeserving/reconciler.go:146-186 | a live pass whose finalizer patch failed replaces the object's whole status exactly if that differs from the zero object's and the version listed at the start is still stored when the write arrives; by the empty one exactly if the transforms did not fail |
| StatusLoss.DeletingPassErases | pkg/client/injection/reconciler/serving/v1alpha1/knativeserving/reconciler.go:163-186 | a finalizing pass whose patch failed empties the status under the same condition |
| StatusLoss.NamelessStatus | pkg/client/injection/reconciler/serving/v1alpha1/knativeserving/reconciler.go:204-230 | the status of an object without a name is sent once: fetching that again is refused, so the first attempt decides |
| Inputs.LostPatchErasesStatus | pkg/client/injection/reconciler/serving/v1alpha1/knativeserving/reconciler.go:146-186 | a run on which a live object nobody else touches loses its status |
| Generations.ReportsOverRuns | pkg/reconciler/knativeserving/knativeserving.go:95-129 | in every run of one process between two finalizations of a key: accepted generations ascend, one creation is in the log exactly if the first is 1, and as many edits as distinct accepted generations minus one, at most last minus first |
| Generations.BetweenFinalizations | pkg/reconciler/knativeserving/knativeserving.go:105-120 | the same of the gate, for every sequence of objects offered to it; edits are at most last minus first |
| Generations.RunTracks | pkg/reconciler/knativeserving/knativeserving.go:79-129 | the servings map and the reports of a run are those of the calls its passes make to the gate |
| Generations.PassTracks | pkg/reconciler/knativeserving/knativeserving.go:79-129 | a pass makes one call to the gate, or forgets one key |
| PassOutcomes.PassOutcome | pkg/reconciler/knativeserving/knativeserving.go:131-158 | from any status of the operator's conditions: a failed transform ends with Ready not True; a pass that reaches install ends with Ready True exactly if no apply failed, every Deployment was found available and dependencies were not blamed |
| PassOutcomes.InstallOutcome | pkg/reconciler/knativeserving/knativeserving.go:199-252 | the same from install on |
| PassOutcomes.ProbeMeaning | pkg/reconciler/knativeserving/knativeserving.go:224-252 | the check marks Deployments available exactly if each one, when asked about, was there with an Available condition that is True |
| Verdicts.PassReport | pkg/reconciler/knativeserving/knativeserving.go:131-252 | from any status of the operator's conditions and under every script, the three dependents after a pass: failed transforms or an apply not acknowledged leave the install False, the other two as they were and the version unset; otherwise the install is True, the version set, and Deployments True or False as each was available or not; dependencies are False only if they were |
| Verdicts.LateReport | pkg/reconciler/knativeserving/knativeserving.go:199-252 | the same from the install on, by the place of the first Deployment not available |
| Verdicts.LateOutcome | pkg/reconciler/knativeserving/knativeserving.go:199-327 | how the stages end: well exactly if every apply and the four deletions of leftovers were acknowledged and the first Deployment found wanting, if any, could be asked about |
| Verdicts.ProbeExactly | pkg/reconciler/knativeserving/knativeserving.go:238-252 | the first Deployment that is not available decides: one that cannot be asked about is an error, a missing one is not |
| PassOutcomes.ApplyPhasesCalls | pkg/reconciler/knativeserving/knativeserving.go:199-221 | an install makes a prefix of its phases' calls in sequence, up to the first not acknowledged, and succeeds exactly if all are |
| PassOutcomes.DeletePhasesCalls | pkg/reconciler/knativeserving/knativeserving.go:274-286 | a teardown likewise |
| PassOutcomes.PhasesAreOneApply | pkg/reconciler/knativeserving/knativeserving.go:206-217 | successive applies are one apply of their resources in sequence |
| Manifests.InstallOrder | pkg/reconciler/knativeserving/knativeserving.go:52-221 | for every manifest and wherever the calls stop: no binding before every role, nothing else before every binding, and all calls together apply everything |
| Manifests.InstallOrderByKind | pkg/reconciler/knativeserving/knativeserving.go:52-55 | the same by the names of the kinds |
| Manifests.InstallKeepsOrder | vendor/github.com/manifestival/manifestival/filter.go:15-25 | each phase lists its resources as they were shipped |
| Manifests.TeardownOrder | pkg/reconciler/knativeserving/knativeserving.go:274-286 | for every manifest and wherever the calls stop: CRDs are never deleted, Deployments go first, RBAC last, and all calls together cover exactly what may be deleted |
| Manifests.TeardownOrderByKind | pkg/reconciler/knativeserving/knativeserving.go:273-286 | the same by the names of the kinds |
| Manifests.DeletionGoesBackwards | vendor/github.com/manifestival/manifestival/manifestival.go:77-93 | of two pieces of a manifest the later is deleted first, each resource unless it is a Namespace the library did not create |
| Manifests.DeletionOrderMembers | vendor/github.com/manifestival/manifestival/manifestival.go:77-93 | a deletion covers the manifest but for Namespaces the library did not create |
| Manifests.WhereMembers | vendor/github.com/manifestival/manifestival/filter.go:15-25 | a filter keeps exactly what satisfies it |
| RoundTrip.InstallThenFinalize | pkg/reconciler/knativeserving/knativeserving.go:199-327 | a live pass whose reconciliation ends well, then any edits, restarts and passes that find no live object (finalizations that fail or crash half way included), then a pass whose finalization ends well, whatever becomes of K and the status: outside the manifest, the leftovers and what teardown deletes, the cluster is as before; of the manifest exactly that stays which neither covers |
| RoundTrip.RoundTripIff | pkg/reconciler/knativeserving/knativeserving.go:161-286 | nothing of the manifest but CRDs is left exactly if teardown deletes every other resource and knows it by the identity it was installed under; nothing a teardown may delete by name is left exactly if that holds of those |
| RoundTrip.RoundTripExactly | pkg/reconciler/knativeserving/knativeserving.go:161-286 | the same resource by resource |
| RoundTrip.OnlyMovedLeft | pkg/reconciler/knativeserving/knativeserving.go:199-327 | for every manifest, after install, waiting and last finalization: whatever of it is in the cluster is a CRD, a Namespace the library did not create, or was installed under another identity than it was shipped with; and everything outside is as before |
| RoundTrip.MovedResourceStays | vendor/github.com/manifestival/manifestival/transform.go:44-83 | a resource moved to where nothing of its name was shipped is deleted exactly if it is one of the leftovers of old versions |
| RoundTrip.ShippedBindingStays | cmd/manager/kodata/knative-serving/3-serving-hpa.yaml:104-108 | the RoleBinding shipped for `kube-system` is left behind in every other namespace, and teardown deletes `kube-system`'s own instead |
| RoundTrip.OtherNamespaceDeletesNothing | vendor/github.com/manifestival/manifestival/transform.go:44-83 | for an object in a namespace nothing was shipped for, teardown deletes an installed namespaced resource exactly if it is one of the leftovers of old versions |
| RoundTrip.ShippedNamespaceStays | vendor/github.com/manifestival/manifestival/manifestival.go:188-193 | nor is a shipped Namespace the library did not create, as the one of the operator's manifest |
| RoundTrip.LivePassInstalls | pkg/reconciler/knativeserving/knativeserving.go:131-158 | a live pass that ends well has put the rendered manifest into the cluster and removed the leftovers of old versions |
| RoundTrip.LeftoversGo | pkg/reconciler/knativeserving/knativeserving.go:298-327 | a live pass that ends well leaves the cluster as it was, with the rendered manifest laid over it, less four resources given by name |
| RoundTrip.PassShrinks | pkg/reconciler/knativeserving/knativeserving.go:267-295 | a pass that finds no live object changes the cluster only by deleting what a teardown may, however far it gets |
| RoundTrip.FinalPassDeletes | pkg/reconciler/knativeserving/knativeserving.go:274-286 | a last finalization that ends well has deleted exactly what a teardown may |
| RoundTrip.InstallPhasesPut | pkg/reconciler/knativeserving/knativeserving.go:203-217 | three phases leave the cluster as one apply of everything would |
| RoundTrip.RenderedIdentity | pkg/reconciler/knativeserving/common/extensions.go:34-56 | the rendered manifest has the shipped resources' identities, moved to the object's namespace |
| Lifecycle.EverySequenceOfMarks | pkg/apis/serving/v1alpha1/knativeserving_lifecycle.go:58-104 | after any marks, Ready is True exactly while all dependents are and False exactly while one is, and each dependent holds the verdict of the last mark about it |
| Lifecycle.DependenciesNeverFalse | pkg/apis/serving/v1alpha1/knativeserving_lifecycle.go:88-104 | without the marks that blame them, dependencies are never False |
| Lifecycle.EmptyStatusIsCoherent | pkg/apis/serving/v1alpha1/knativeserving_lifecycle.go:58-60 | the empty status is where both start |
| Lifecycle.MarkedVerdict | pkg/apis/serving/v1alpha1/knativeserving_lifecycle.go:58-104 | the verdict of one mark, without the list |
| Lifecycle.MarkedText | pkg/apis/serving/v1alpha1/knativeserving_lifecycle.go:62-104 | the reason and message a blaming mark shows on its dependent and on Ready; the others show none |
| Lifecycle.InstallSucceedingEffect | pkg/apis/serving/v1alpha1/knativeserving_lifecycle.go:69-75 | success makes dependencies True unless they were False |
| Lifecycle.SettledStays | pkg/apis/serving/v1alpha1/knativeserving_lifecycle.go:69-79 | marking success over success changes nothing, not even a time |
| Lifecycle.SuccessSettles | pkg/apis/serving/v1alpha1/knativeserving_lifecycle.go:69-79 | success over any status that does not blame dependencies makes everything True |
| Lifecycle.KnativeServingStatus.InitializeConditions | pkg/apis/serving/v1alpha1/knativeserving_lifecycle.go:58-60 | the new conditions |
| Lifecycle.KnativeServingStatus.MarkInstallFailed | pkg/apis/serving/v1alpha1/knativeserving_lifecycle.go:62-67 | the new conditions |
| Lifecycle.KnativeServingStatus.MarkInstallSucceeded | pkg/apis/serving/v1alpha1/knativeserving_lifecycle.go:69-75 | the new conditions, dependencies included when unknown |
| Lifecycle.KnativeServingStatus.MarkDeploymentsAvailable | pkg/apis/serving/v1alpha1/knativeserving_lifecycle.go:77-79 | the new conditions |
| Lifecycle.KnativeServingStatus.MarkDeploymentsNotReady | pkg/apis/serving/v1alpha1/knativeserving_lifecycle.go:81-86 | the new conditions |
| Lifecycle.KnativeServingStatus.MarkDependenciesInstalled | pkg/apis/serving/v1alpha1/knativeserving_lifecycle.go:88-90 | the new conditions |
| Lifecycle.KnativeServingStatus.MarkDependencyInstalling | pkg/apis/serving/v1alpha1/knativeserving_lifecycle.go:92-97 | the new conditions |
| Lifecycle.KnativeServingStatus.MarkDependencyMissing | pkg/apis/serving/v1alpha1/knativeserving_lifecycle.go:99-104 | the new conditions |
| Conditions.SetIsMapUpdate | vendor/knative.dev/pkg/apis/condition_set.go:182-204 | on any list, setting a condition changes what is read of its type and of no other; its type reads as set exactly unless a later entry of the type already says so while the first does not |
| Conditions.SetRecords | vendor/knative.dev/pkg/apis/condition_set.go:182-204 | on any list that does not have it already, setting a condition puts it there with the time, in place of all of its type, keeps the others, and leaves the list in the order of the names |
| Conditions.UnhappyExactly | vendor/knative.dev/pkg/apis/condition_set.go:298-345 | on any list, the search finds nothing exactly if there are three severe conditions besides Ready and all are True, and a False one exactly if one of them is |
| Conditions.RecomputeExactly | vendor/knative.dev/pkg/apis/condition_set.go:278-295 | on any list, recomputing makes Ready True or False exactly as those conditions are, or leaves a list alone whose second entry for Ready says so |
| Conditions.BlamedExactly | vendor/knative.dev/pkg/apis/condition_set.go:298-345 | the search finds the most recent False condition, or, if there is none, the most recent Unknown one |
| Conditions.ReadyGivesReason | vendor/knative.dev/pkg/apis/condition_set.go:278-287 | and Ready takes over its status, reason and message |
| Conditions.CoherentExactly | vendor/knative.dev/pkg/apis/condition_set.go:278-295 | so Ready follows its dependents exactly if the severe conditions agree with them |
| Conditions.ForeignConditionBlocksReady | vendor/knative.dev/pkg/apis/condition_set.go:305-332 | and beside a severe condition of another type that is not True, a mark of a dependent leaves Ready True only where it was, before such a second entry |
| Conditions.RecomputeCoherent | vendor/knative.dev/pkg/apis/condition_set.go:278-295 | recomputing makes Ready follow its dependents, whatever it was and whatever other conditions are there, as long as only Ready and its dependents are severe |
| Conditions.MarkTrueCoherent | vendor/knative.dev/pkg/apis/condition_set.go:253-262 | marking True leaves Ready following, and other dependents alone |
| Conditions.MarkFalseCoherent | vendor/knative.dev/pkg/apis/condition_set.go:390-409 | so does marking False |
| Conditions.InitializeEffect | vendor/knative.dev/pkg/apis/condition_set.go:411-432 | initializing fills gaps with Unknown, or True under a True Ready |
| Conditions.InitializeCoherent | vendor/knative.dev/pkg/apis/condition_set.go:411-432 | no verdict changes |
| Template.SubstitutionIsGluing | pkg/reconciler/knativeserving/common/images.go:162-164 | a template is variable-free pieces around the variable, and every substitution the same pieces around the name |
| Template.NoVariableLeftIff | pkg/reconciler/knativeserving/common/images.go:162-164 | a name leaves no variable, for all templates, exactly if it agrees with the variable on no overlap |
| Template.NoVariableLeft | pkg/reconciler/knativeserving/common/images.go:162-164 | for every template and label name (section 2.1 of RFC 1123), the result contains no variable |
| Template.SubstitutionIsIdempotent | pkg/reconciler/knativeserving/common/images.go:162-164 | after a name that leaves no variable, a second substitution changes nothing |
| Template.SubstitutedLength | pkg/reconciler/knativeserving/common/images.go:162-164 | the length grows by the name's length minus seven for each occurrence |
| Pipeline.OrderIrrelevant | pkg/reconciler/knativeserving/common/extensions.go:34-56 | every permutation of the six transformers that keeps config maps before HA gives the same manifest, or fails too |
| Pipeline.SwapMatters | pkg/reconciler/knativeserving/common/ha.go:49-63 | swapping those two changes a resource exactly if the spec sets HA's key of the leader election config map to another value |
| Pipeline.PipelineRefinesSpec | pkg/reconciler/knativeserving/common/extensions.go:34-56 | the sequence gives a resource the body the specification by kind says |
| Pipeline.Step | pkg/reconciler/knativeserving/common/extensions.go:36-45 | one more transformer takes the specification for those done to that for one more |
| Pipeline.TransformedManifest | pkg/reconciler/knativeserving/knativeserving.go:161-170 | the manifest of a pass is the shipped one, resource by resource, by that specification; it exists exactly if the certificates of the spec are usable or not asked for |
| Pipeline.ConfigMapPrecedence | pkg/reconciler/knativeserving/common/config_maps.go:25-50 | HA's key, then the spec's config, then what was shipped |
| Pipeline.AutoscalerMinimum | pkg/reconciler/knativeserving/common/ha.go:74-87 | an autoscaler's minimum is the larger of the shipped one and the replicas |
| Pipeline.WorkloadStep | pkg/reconciler/knativeserving/common/images.go:96-172 | on workloads, images, secrets, certificates, replicas and requirements are independent |
| Rendered.ManifestOfPass | pkg/reconciler/knativeserving/knativeserving.go:161-170 | the manifest of a pass is the shipped one, each resource moved to the namespace and rendered for the spec; it exists exactly if each can be |
| Rendered.MovedByKind | vendor/github.com/manifestival/manifestival/transform.go:47-83 | by the kinds shipped: a Namespace takes the name, cluster resources stay, the rest is moved |
| Rendered.WorkloadImages | pkg/reconciler/knativeserving/common/images.go:96-155 | each container of a Deployment or DaemonSet gets the override for its name if there is one that is not empty, else the default template's pieces glued with its name, else keeps the shipped image |
| Rendered.CachedImages | pkg/reconciler/knativeserving/common/images.go:118-155 | so does a cached image, by its own name |
| Rendered.DeploymentRequirements | pkg/reconciler/knativeserving/common/resources.go:32-73 | each key of a container's limits and requests reads as the first override for its name has it, else as shipped; without such an override the lists are the shipped ones |
| Rendered.DaemonSetRequirements | pkg/reconciler/knativeserving/common/resources.go:32-34 | those of a DaemonSet are |
| Rendered.ControllerCertificates | pkg/reconciler/knativeserving/common/certs.go:34-101 | the controller's Deployment gets the volume, from ConfigMap or Secret as asked, its first container the mount and the variable, nothing else does; there is no manifest exactly if the type is unknown or the name empty |
| Rendered.Replicas | pkg/reconciler/knativeserving/common/ha.go:34-72 | the five Deployments named get the replicas asked for, every other workload keeps its own |
| Rendered.AutoscalerReplicas | pkg/reconciler/knativeserving/common/ha.go:74-87 | a minimum not above the replicas asked for becomes them |
| Rendered.ConfigMapKeys | pkg/reconciler/knativeserving/common/config_maps.go:25-50 | each key of a ConfigMap, section and leader election by name |
| Rendered.GatewaySelectors | pkg/reconciler/knativeserving/common/gateway.go:26-48 | each of the two gateways gets its own selector of the spec, if not empty |
| Rendered.OthersAsShipped | pkg/reconciler/knativeserving/common/extensions.go:36-45 | everything else is applied as shipped |
| Transforms.RunKeepsIdentity | pkg/reconciler/knativeserving/common/extensions.go:36-45 | no transformer changes a resource's kind, name or namespace |
| InPlace.UpdateConfigMap | pkg/reconciler/knativeserving/common/config_maps.go:38-50 | in whatever order the overrides come, the data are the shipped ones with the overrides laid over |
| InPlace.UpdateImage | pkg/reconciler/knativeserving/common/images.go:106-116 | the loop gives each container its override, or what the template gives, or leaves it: by name, in the sense of the pieces glued |
| InPlace.UpdateRegistry | pkg/reconciler/knativeserving/common/images.go:96-103 | images chosen and secrets appended, the rest of the pod untouched |
| InPlace.UpdateCachingImage | pkg/reconciler/knativeserving/common/images.go:118-148 | the same for a cached image, whose status goes |
| InPlace.AddImagePullSecrets | pkg/reconciler/knativeserving/common/images.go:166-172 | the registry's secrets come after the shipped ones |
| InPlace.UpdateGateway | pkg/reconciler/knativeserving/common/gateway.go:41-48 | a selector replaces the shipped one, an empty one does not |
| InPlace.ConfigureCustomCerts | pkg/reconciler/knativeserving/common/certs.go:65-101 | volume, mount and environment are appended, the latter two to the first container, or the error is the source's |
| InPlace.TransformConfigMap | pkg/reconciler/knativeserving/common/config_maps.go:25-36 | the resource becomes what the function of that transform gives |
| InPlace.TransformImage | pkg/reconciler/knativeserving/common/images.go:42-57 | the resource becomes what the function of that transform gives |
| InPlace.TransformGateway | pkg/reconciler/knativeserving/common/gateway.go:26-39 | the resource becomes what the function of that transform gives |
| InPlace.TransformCustomCerts | pkg/reconciler/knativeserving/common/certs.go:40-63 | the resource becomes what the function gives, or is untouched by a failure |
| InPlace.TransformHighAvailability | pkg/reconciler/knativeserving/common/ha.go:43-91 | the resource becomes what the function of that transform gives |
| InPlace.TransformResourceRequirements | pkg/reconciler/knativeserving/common/resources.go:32-54 | the resource becomes what the function gives, without a write to the spec |
| InPlace.ApplyAll | vendor/github.com/manifestival/manifestival/transform.go:27-37 | the list on one resource, up to the first error |
| InPlace.TransformManifest | vendor/github.com/manifestival/manifestival/transform.go:24-39 | fresh copies are transformed; the shipped resources are not written, so nothing accumulates over passes |
| InPlace.RunTransformers | pkg/reconciler/knativeserving/knativeserving.go:161-170 | values in, values out, as the function says |
| ResourceLists.Merge | pkg/reconciler/knativeserving/common/resources.go:56-64 | the source laid over the target; an empty target becomes the source's own map |
| ResourceLists.FindOverride | pkg/reconciler/knativeserving/common/resources.go:66-73 | the override at the first place that has the container's name, or none if there is no such place |
| ResourceLists.ConstrainOne | pkg/reconciler/knativeserving/common/resources.go:41-44 | one container gets the first matching override laid over its lists, by sharing or by writing to its own |
| ResourceLists.ConstrainContainers | pkg/reconciler/knativeserving/common/resources.go:39-45 | all containers do, and the spec reads as before although maps of it are now shared |
| ResourceLists.ConstrainPod | pkg/reconciler/knativeserving/common/resources.go:34-48 | convert, constrain, convert back |
| DeepCopies.CopySpec | pkg/apis/serving/v1alpha1/zz_generated.deepcopy.go:145-181 | the copy of a spec reads the same, has nil where it had nil, and consists of new objects only |
| DeepCopies.CopyMeta | vendor/k8s.io/apimachinery/pkg/apis/meta/v1/zz_generated.deepcopy.go:647-693 | so does that of the metadata: maps, slices, pointers and plain values, nil where it had nil |
| DeepCopies.CopyOwners | vendor/k8s.io/apimachinery/pkg/apis/meta/v1/zz_generated.deepcopy.go:673-719 | the slice of owner references, each element's pointers included |
| DeepCopies.CopyCell | pkg/apis/serving/v1alpha1/zz_generated.deepcopy.go:168-172 | a pointer to a plain value |
| DeepCopies.ServingStruct.DeepCopy | pkg/apis/serving/v1alpha1/zz_generated.deepcopy.go:84-101 | the copy of an object, metadata, spec and conditions, reads the same, has nil where it had nil, and consists of new objects only |
| DeepCopies.CopyTable | pkg/apis/serving/v1alpha1/zz_generated.deepcopy.go:147-163 | the config's map of maps, rows included |
| DeepCopies.CopyRegistry | pkg/apis/serving/v1alpha1/zz_generated.deepcopy.go:211-226 | map and slice |
| DeepCopies.CopyGateway | pkg/apis/serving/v1alpha1/zz_generated.deepcopy.go:61-71 | the selector |
| DeepCopies.CopyOverrides | pkg/apis/serving/v1alpha1/zz_generated.deepcopy.go:173-179 | the slice, each element's lists included |
| DeepCopies.CopyOverride | pkg/apis/serving/v1alpha1/zz_generated.deepcopy.go:239-243 | one element |
| Isolation.LivePassOnGraph | pkg/client/injection/reconciler/serving/v1alpha1/knativeserving/reconciler.go:146-162 | the undeleted path on the graph, with no frame: copy, constrain containers sharing the copy's maps, edit finalizers, conditions and version; the cache's object and all it refers to read as before, and the copy as the pass leaves it |
| Isolation.ConstrainBy | pkg/reconciler/knativeserving/common/resources.go:39-45 | containers constrained by the copy's own overrides, which still read the same although containers may now hold their maps |
| Isolation.EditFinalizers | pkg/reconciler/knativeserving/knativeserving.go:255-261 | K inserted and sorted, D appended, into slices of the copy's own |
| Isolation.EditStatus | pkg/apis/serving/v1alpha1/knativeserving_lifecycle.go:58-79 | conditions and version of the copy, as a successful pass marks them |
| Operator.Reconciler.ReconcileKey | pkg/client/injection/reconciler/serving/v1alpha1/knativeserving/reconciler.go:112-202 | the program does what the function of a pass says; for an undeleted object it writes to no object of the cache, otherwise to finalizers only |
| Operator.Reconciler.LivePass | pkg/client/injection/reconciler/serving/v1alpha1/knativeserving/reconciler.go:147-162 | the undeleted path, whose frame excludes the cache's objects |
| Operator.Reconciler.DeletingPass | pkg/client/injection/reconciler/serving/v1alpha1/knativeserving/reconciler.go:163-173 | the finalizing path |
| Operator.Reconciler.SynchronizeStatus | pkg/client/injection/reconciler/serving/v1alpha1/knativeserving/reconciler.go:175-186 | the status write, from an original whose finalizers may have been edited meanwhile |
| Operator.RetryIgnoresFinalizers | pkg/reconciler/knativeserving/knativeserving.go:288-293 | why that edit of a shared object does no harm |
| Operator.Reconciler.UpdateStatusLoop | pkg/client/injection/reconciler/serving/v1alpha1/knativeserving/reconciler.go:204-230 | the loop does what the recursive function says |
| Operator.Reconciler.TryStatus | pkg/client/injection/reconciler/serving/v1alpha1/knativeserving/reconciler.go:206-229 | one attempt |
| Operator.Reconciler.UpdateFinalizers | pkg/client/injection/reconciler/serving/v1alpha1/knativeserving/reconciler.go:235-294 | list, decide, patch; a zero object after a failed patch |
| Operator.Reconciler.FinalizersDue | pkg/client/injection/reconciler/serving/v1alpha1/knativeserving/reconciler.go:248-269 | the list to send, if any: the cached one with K at its end, or the rest in ascending order |
| Operator.Reconciler.SetFinalizerIfFinalizer | pkg/client/injection/reconciler/serving/v1alpha1/knativeserving/reconciler.go:296-312 | asks for K |
| Operator.Reconciler.ClearFinalizerAfter | pkg/client/injection/reconciler/serving/v1alpha1/knativeserving/reconciler.go:314-339 | asks for K to go, unless finalizing failed |
| Operator.Reconciler.ReconcileGated | pkg/reconciler/knativeserving/knativeserving.go:95-129 | gate, report, reconcile |
| Operator.Reconciler.ReconcileStages | pkg/reconciler/knativeserving/knativeserving.go:131-158 | transform, then the stages |
| Operator.Reconciler.RunAllStages | pkg/reconciler/knativeserving/knativeserving.go:151-155 | the loop over the stages, up to the first error |
| Operator.Reconciler.TransformShipped | pkg/reconciler/knativeserving/knativeserving.go:161-170 | the manifest, afresh from the shipped one |
| Operator.Reconciler.EnsureFinalizerStage | pkg/reconciler/knativeserving/knativeserving.go:255-264 | searches for D, appends it, and ignores what the server returns |
| Operator.Reconciler.InitStatusStage | pkg/reconciler/knativeserving/knativeserving.go:173-196 | initializes an empty status and takes over what the server returns |
| Operator.Reconciler.InstallStage | pkg/reconciler/knativeserving/knativeserving.go:199-221 | three applies and their marks |
| Operator.Reconciler.CheckDeploymentsStage | pkg/reconciler/knativeserving/knativeserving.go:224-252 | the loop over the Deployments with its early exits |
| Operator.Reconciler.IsAvailable | pkg/reconciler/knativeserving/knativeserving.go:228-235 | the loop over a Deployment's conditions finds one of type Available and status True exactly if there is one |
| Operator.Reconciler.DeleteObsoleteStage | pkg/reconciler/knativeserving/knativeserving.go:298-327 | the four leftovers, up to the first error |
| Operator.Reconciler.Finalize | pkg/reconciler/knativeserving/knativeserving.go:79-91 | forgets the key, then deletes |
| Operator.Reconciler.DeleteManifest | pkg/reconciler/knativeserving/knativeserving.go:267-286 | nothing unless D leads; the three deletions only when no key is left |
| Operator.Reconciler.ReleaseFinalizer | pkg/reconciler/knativeserving/knativeserving.go:287-294 | edits the cache's own object through the lister's pointer, then sends it |
| Operator.Reconciler.ApplyManifest | vendor/github.com/manifestival/manifestival/manifestival.go:67-74 | one resource after another, the environment acting before each, up to the first error |
| Operator.Reconciler.ApplyResource | vendor/github.com/manifestival/manifestival/manifestival.go:95-121 | one call, which may be lost on its way there or its reply on the way back |
| Operator.Reconciler.DeleteResources | vendor/github.com/manifestival/manifestival/manifestival.go:77-93 | one resource after another, the environment acting before each, up to the first error |
| Operator.Reconciler.SendPatch | pkg/client/clientset/versioned/typed/serving/v1alpha1/knativeserving.go:180-191 | the call as the server's contract has it |
| Operator.Reconciler.SendUpdate | pkg/client/clientset/versioned/typed/serving/v1alpha1/knativeserving.go:124-136 | the call as the server's contract has it |
| Operator.Reconciler.SendStatus | pkg/client/clientset/versioned/typed/serving/v1alpha1/knativeserving.go:139-151 | the call as the server's contract has it |
| Operator.Reconciler.List | pkg/client/listers/serving/v1alpha1/knativeserving.go:85-94 | the cache's own pointer, not a copy |
| Operator.Cache.CutFinalizer | pkg/reconciler/knativeserving/knativeserving.go:292 | editing behind a pointer of the cache edits the cache |
| Operator.Reconciler.constructor | pkg/reconciler/knativeserving/controller.go:57-64 | a new process remembers no generation |
| Operator.KnativeServing.SetMark | pkg/apis/serving/v1alpha1/knativeserving_lifecycle.go:58-104 | a mark on the object's status and on nothing else |

## Left out

- Kubernetes clients, informers, work queues, injection, `main`, logging, event recording and metrics export: only their contracts are used. A status is a subresource (config/300-serving-v1alpha1-knativeserving-crd.yaml:38), a failed patch returns a zero object, the lister returns the cached pointer.
- Concurrent passes over different keys: the map of generations has no lock, and one worker is modelled.
- A script turn stands for everything the environment does before one call of the operator; applying a resource, which the library does by reading and then writing it, is one call.
- Users who edit D: the environment neither adds nor removes it, and creates objects without it. Whoever edits D decides about release and install, not the operator.
- Applying a resource replaces it whole; the library's three-way merge, its annotations and the garbage collection that follows owner references are not modelled. A call may be lost on its way, changing nothing, or its reply may be, after it took effect.
- `InjectOwner`, and what `InjectNamespace` does to subjects and webhooks: only the identities it gives are modelled. Platform transformers can only fail; the loop that appends them would add only easy members.
- Resources are typed; conversion to and from unstructured content, the clearing of creation timestamps and the syntax of quantities are not modelled.
- Inputs on which the code panics in a transformer are excluded by the type of manifests: ConfigMaps named in fewer than seven characters and a controller Deployment without containers. The panic of `delete` on an object fetched again without finalizers is modelled, as a crash of the process.
- Reconciler events: neither half of the operator returns one, so an error is an error.
- Keys are pairs of namespace and name; the string form and its parsing are not modelled.
- Transition times are integers taken from the environment's script. Among equally recent unhappy conditions the code's sort leaves the order open and the model takes the first in the list; only Ready's reason and message depend on it.
- Operator.Reconciler.LivePass: objects of this module hold maps and slices as values, so it shows which objects of the cache are written, not what their parts share; that is proved on graphs of references by `Isolation.LivePassOnGraph`.
- Operator.Reconciler.ReconcileKey: the same holds of it.
- Operator.Reconciler.ApplyManifest: a live resource is replaced, not merged into.
- Operator.Reconciler.ApplyResource: the library's read before the write, and the merge, are one replacing call.
- Isolation.LivePassOnGraph: the objects the server returns, which replace the copy midway, are left out; they share nothing with the cache.
- DeepCopies.ServingStruct.DeepCopy: managed fields are left out.
- Conditions.SetIsMapUpdate: sorting keeps entries of one type in order, as the code's sort does for up to twelve; for longer lists with two entries of a type the code leaves their order open.
- Conditions.MarkTrueCoherent: like `MarkFalseCoherent` and `RecomputeCoherent`, for lists with one entry a type in which only Ready and its dependents are severe; what happens on all others is `Conditions.CoherentExactly`.
