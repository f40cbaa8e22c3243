/** Optimistic locking at work: the finalizer patch as an atomic set operation,
    and the status retry loop under arbitrary interference. */
module Conflicts {
  import opened Calls
  import opened Invariant
  import opened Lifecycle
  import opened LivePath
  import opened Passes
  import opened Resources
  import opened Text
  import opened World
  import opened Writes

  // ----- the finalizer patch

  /** K added or removed, as the resource wants it. */
  function Wanted(resource: Serving, finalizers: set<string>): set<string> {
    if K in resource.finalizers then finalizers + {K} else finalizers - {K}
  }

  lemma DueElements(resource: Serving, existing: Serving)
    requires PatchDue(resource, existing).Some?
    ensures Elements(PatchDue(resource, existing).value) == Wanted(resource, Elements(existing.finalizers))
  {
    if K in resource.finalizers {
      assert PatchDue(resource, existing).value == existing.finalizers + [K];
    }
  }

  lemma SameOthers(resource: Serving, a: set<string>, b: set<string>)
    ensures Wanted(resource, a) == Wanted(resource, b) <==> a - {K} == b - {K}
  {
    assert a - {K} == (a + {K}) - {K} && b - {K} == (b + {K}) - {K};
    if a - {K} == b - {K} {
      assert a + {K} == (a - {K}) + {K} && b + {K} == (b - {K}) + {K};
    }
  }

  /** However old the cached copy the patch is built from, and whoever edited it:
      an accepted patch leaves the object as it was stored at that moment, but for
      its finalizers, which as a set are the copy's with K added or removed. That
      is the set operation on what was stored exactly if copy and store agree but
      for K, as they do unless the copied version was released. A refused or
      dropped patch changes nothing. */
  lemma PatchIsSetOperation(w: World, resource: Serving)
    requires Inv(w) && Listed(w, resource.key).Some?
    requires PatchDue(resource, Listed(w, resource.key).value).Some?
    ensures var existing := Listed(w, resource.key).value;
            var reply := Patch(w, resource.key, existing.rv, PatchDue(resource, existing).value);
            var before := TakeTurn(w);
            && (reply.result.Ok? ==>
                  && Stored(before, resource.key)
                  && var was, o := Live(before, resource.key), reply.result.value;
                     var copy, stored := Elements(existing.finalizers), Elements(was.finalizers);
                     && o == was.(rv := o.rv, finalizers := o.finalizers)
                     && Elements(o.finalizers) == Wanted(resource, copy)
                     && (Elements(o.finalizers) == Wanted(resource, stored) <==> copy - {K} == stored - {K})
                     && (existing.rv !in w.released ==> copy == stored)
                     && reply.w.versions[..|before.versions|] == before.versions
                     && |reply.w.versions| == |before.versions| + 1 && reply.w.versions[|before.versions|].obj == o)
            && (reply.result.Err? && NextTurn(w).fault != LostReply ==> reply.w == before)
  {
    hide Inv, TakeTurn, Env, PatchDue, Elements, Wanted;
    var key := resource.key;
    var existing := Listed(w, key).value;
    var due := PatchDue(resource, existing).value;
    var before := TakeTurn(w);
    TurnKeeps(w);
    EnvIsCalm(w, before);
    ListedIsSnap(w, key);
    SnapInRange(w, existing);
    assert before.versions[existing.rv] == w.versions[existing.rv];
    DueElements(resource, existing);
    if Refusal(before, key, existing.rv, due).None? {
      var stored := Live(before, key).finalizers;
      SameOthers(resource, Elements(existing.finalizers), Elements(stored));
      if existing.rv !in w.released {
        assert stored == existing.finalizers;
      }
    }
  }

  // ----- the status retry loop

  /** Version `n` of `key` was live at some moment between two worlds: at the
      start, or written since. */
  predicate LiveBetween(a: World, b: World, key: Key, n: nat) {
    && n < |b.versions| && b.versions[n].obj.key == key && !b.versions[n].gone
    && ((key in a.live && a.live[key] == n) || |a.versions| <= n)
  }

  lemma LiveWasBetween(a: World, b: World, key: Key)
    requires Inv(a) && Inv(b) && Grows(a, b) && key in b.live
    ensures LiveBetween(a, b, key, b.live[key])
  {
    var n := b.live[key];
    if n < |a.versions| {
      assert a.versions[n] == b.versions[n];
      assert Continued(a, n);
      forall s: nat | s < |a.versions| ensures a.versions[s].prev != n {
        assert VersionOK(a.versions, s) && b.versions[s] == a.versions[s];
      }
    }
  }

  /** What the operator itself wrote between two worlds changed nothing but the
      status, to the desired one. */
  ghost predicate OnlyStatusWritten(a: World, b: World, desired: Status) {
    forall j: nat | |a.log| <= j < |b.log| && b.log[j].Wrote? && b.log[j].own ::
      b.log[j].rv < |b.versions| && StatusOnly(b.versions, b.log[j].rv, desired)
  }

  predicate StatusOnly(vs: seq<Version>, n: nat, desired: Status)
    requires n < |vs|
  {
    0 <= vs[n].prev < n && vs[n].obj == vs[vs[n].prev].obj.(rv := n, status := desired)
  }

  lemma OnlyStatusTransitive(a: World, b: World, c: World, desired: Status)
    requires Inv(b) && Grows(a, b) && Grows(b, c)
    requires OnlyStatusWritten(a, b, desired) && OnlyStatusWritten(b, c, desired)
    ensures OnlyStatusWritten(a, c, desired)
  {
    forall j: nat | |a.log| <= j < |c.log| && c.log[j].Wrote? && c.log[j].own
      ensures c.log[j].rv < |c.versions| && StatusOnly(c.versions, c.log[j].rv, desired)
    {
      if j < |b.log| {
        assert c.log[j] == b.log[j];
        var n := b.log[j].rv;
        assert StatusOnly(b.versions, n, desired);
        assert c.versions[n] == b.versions[n] && c.versions[b.versions[n].prev] == b.versions[b.versions[n].prev];
      }
    }
  }

  lemma EnvWritesNone(a: World, b: World, desired: Status)
    requires Env(a, b)
    ensures OnlyStatusWritten(a, b, desired)
  {}

  lemma StatusCommit(w: World, obj: Serving, desired: Status)
    requires Inv(w) && Stored(w, obj.key) && obj == Live(w, obj.key).(status := desired)
    ensures OnlyStatusWritten(w, Commit(w, obj, true), desired)
  {}

  lemma UpdateStatusWrites(w0: World, sent: Serving)
    requires Inv(w0)
    ensures OnlyStatusWritten(w0, UpdateStatus(w0, sent).w, sent.status)
  {
    hide Inv, TakeTurn, Env, OnlyStatusWritten, Commit, Grows;
    var w := TakeTurn(w0);
    TurnKeeps(w0);
    EnvIsGrowth(w0, w);
    EnvWritesNone(w0, w, sent.status);
    var w' := UpdateStatus(w0, sent).w;
    if w' != w {
      LiveKey(w, sent.key);
      var obj := Live(w, sent.key).(status := sent.status);
      StatusLegal(w, sent.key, sent.status);
      StatusCommit(w, obj, sent.status);
      CommitKeeps(w, obj, true);
      OnlyStatusTransitive(w0, w, w', sent.status);
    }
  }

  /** An acknowledged status write put the desired status into the store. */
  lemma UpdateStatusStored(w0: World, sent: Serving)
    requires Inv(w0) && UpdateStatus(w0, sent).result.Ok?
    ensures var reply := UpdateStatus(w0, sent);
            exists n: nat :: LiveBetween(w0, reply.w, sent.key, n) && reply.w.versions[n].obj.status == sent.status
  {
    hide Inv, TakeTurn, Env;
    var w := TakeTurn(w0);
    TurnKeeps(w0);
    EnvIsCalm(w0, w);
    LiveKey(w, sent.key);
    LiveNotGone(w, sent.key);
    var n := |w.versions|;
    assert LiveBetween(w0, UpdateStatus(w0, sent).w, sent.key, n);
  }

  lemma LiveNotGone(w: World, key: Key)
    requires Inv(w) && Stored(w, key)
    ensures !(Live(w, key).deleting && Live(w, key).finalizers == [])
  {
    assert VersionOK(w.versions, w.live[key]);
  }

  lemma FetchGrows(w0: World, key: Key)
    requires Inv(w0)
    ensures var reply := Fetch(w0, key);
            && Inv(reply.w) && Grows(w0, reply.w) && OnlyStatusWritten(w0, reply.w, Status([], ""))
            && (reply.result.Ok? ==>
                  && reply.result.value.key == key
                  && exists n: nat :: LiveBetween(w0, reply.w, key, n) && reply.w.versions[n].obj == reply.result.value)
  {
    hide Inv, TakeTurn, Env, OnlyStatusWritten;
    var w := TakeTurn(w0);
    TurnKeeps(w0);
    EnvIsCalm(w0, w);
    EnvWritesNone(w0, w, Status([], ""));
    if Fetch(w0, key).result.Ok? {
      LiveKey(w, key);
      LiveWasBetween(w0, w, key);
    }
  }

  lemma FetchWritesNone(w0: World, key: Key, desired: Status)
    requires Inv(w0)
    ensures OnlyStatusWritten(w0, Fetch(w0, key).w, desired)
  {
    hide Inv, TakeTurn, Env, OnlyStatusWritten;
    TurnKeeps(w0);
    EnvWritesNone(w0, TakeTurn(w0), desired);
  }

  ghost predicate DesiredWasStored(a: World, b: World, key: Key, desired: Status) {
    exists n: nat :: LiveBetween(a, b, key, n) && b.versions[n].obj.status == desired
  }

  lemma DesiredLater(a: World, b: World, c: World, d: World, key: Key, desired: Status)
    requires Inv(a) && Inv(b) && Inv(c) && Inv(d) && Grows(a, b) && Grows(b, c) && Grows(c, d)
    requires DesiredWasStored(b, c, key, desired)
    ensures DesiredWasStored(a, d, key, desired)
  {
    var n: nat :| LiveBetween(b, c, key, n) && c.versions[n].obj.status == desired;
    assert d.versions[n] == c.versions[n];
    if key in b.live && b.live[key] == n {
      LiveWasBetween(a, b, key);
    }
    assert LiveBetween(a, d, key, n);
  }

  /** One attempt and those after it. */
  lemma {:induction false} RetryFrom(w0: World, attempt: nat, existing0: Serving, desired: Serving, key: Key)
    requires Inv(w0) && attempt < ATTEMPTS && (desired.key == key || desired.key.name == "")
    requires attempt == 0 ==> existing0.key == key
    requires attempt == 0 ==> existing0.status != desired.status
    ensures var p := UpdateStatusFrom(w0, attempt, existing0, desired);
            && OnlyStatusWritten(w0, p.w, desired.status)
            && (p.out == Fine ==> DesiredWasStored(w0, p.w, key, desired.status))
    decreases ATTEMPTS - attempt
  {
    hide Inv, Fetch, UpdateStatus, Grows, OnlyStatusWritten, DesiredWasStored, LiveBetween;
    var p := UpdateStatusFrom(w0, attempt, existing0, desired);
    var fetched := if attempt == 0 then Reply(w0, Ok(existing0)) else Fetch(w0, desired.key);
    AttemptStart(w0, attempt, desired);
    if fetched.result.Ok? {
      var existing := fetched.result.value;
      if existing.status == desired.status {
        FetchedDesired(w0, desired.key, desired.status);
      } else {
        var sent := existing.(status := desired.status);
        var reply := UpdateStatus(fetched.w, sent);
        UpdateStatusKeeps(fetched.w, sent);
        UpdateStatusWrites(fetched.w, sent);
        CalmIsGrowth(fetched.w, reply.w);
        GrowsTransitive(w0, fetched.w, reply.w);
        OnlyStatusTransitive(w0, fetched.w, reply.w, desired.status);
        if reply.result.Ok? {
          UpdateStatusStored(fetched.w, sent);
          GrowsReflexive(reply.w);
          WasStored(fetched.w, reply.w, sent.key, desired.status);
          DesiredLater(w0, fetched.w, reply.w, reply.w, key, desired.status);
        } else if reply.result.error == Conflict && attempt + 1 < ATTEMPTS {
          RetryFrom(reply.w, attempt + 1, existing, desired, key);
          UpdateStatusFromKeeps(reply.w, attempt + 1, existing, desired);
          CalmIsGrowth(reply.w, p.w);
          OnlyStatusTransitive(w0, reply.w, p.w, desired.status);
          if p.out == Fine {
            GrowsReflexive(p.w);
            DesiredLater(w0, reply.w, p.w, p.w, key, desired.status);
          }
        }
      }
    }
  }

  lemma AttemptStart(w0: World, attempt: nat, desired: Serving)
    requires Inv(w0)
    ensures var w := if attempt == 0 then w0 else Fetch(w0, desired.key).w;
            Inv(w) && Grows(w0, w) && OnlyStatusWritten(w0, w, desired.status)
    ensures attempt > 0 && Fetch(w0, desired.key).result.Ok? ==>
              desired.key.name != "" && Fetch(w0, desired.key).result.value.key == desired.key
  {
    hide Inv, Grows;
    GrowsReflexive(w0);
    if attempt != 0 {
      FetchGrows(w0, desired.key);
      FetchWritesNone(w0, desired.key, desired.status);
    }
  }

  lemma FetchedDesired(w0: World, key: Key, desired: Status)
    requires Inv(w0)
    ensures var reply := Fetch(w0, key);
            reply.result.Ok? && reply.result.value.status == desired ==> DesiredWasStored(w0, reply.w, key, desired)
  {
    hide Inv, Fetch, Grows, LiveBetween;
    FetchGrows(w0, key);
  }

  lemma WasStored(a: World, b: World, key: Key, desired: Status)
    requires exists n: nat :: LiveBetween(a, b, key, n) && b.versions[n].obj.status == desired
    ensures DesiredWasStored(a, b, key, desired)
  {}

  lemma GrowsReflexive(w: World)
    ensures Grows(w, w)
  {}

  /** The loop as a pass calls it, after finding the statuses different: under
      arbitrary edits between and within attempts, if it reports no error then
      the store held the desired status at some moment of the call, and no
      write of it touched anything but the status. This includes the zero object
      of a failed patch as the desired one, which cannot be fetched again. */
  lemma StatusRetry(w: World, original: Serving, desired: Serving)
    requires Inv(w) && (original.key == desired.key || desired.key.name == "")
    requires !SameStatus(original.status, desired.status)
    ensures var p := UpdateStatusFrom(w, 0, original, desired);
            && OnlyStatusWritten(w, p.w, desired.status)
            && (p.out == Fine ==> DesiredWasStored(w, p.w, original.key, desired.status))
  {
    hide Inv, UpdateStatusFrom;
    RetryFrom(w, 0, original, desired, original.key);
  }
}
