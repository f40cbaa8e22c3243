/** The operator's own calls keep the invariant, and what an accepted one did.
    */
module Calls {
  import opened Conditions
  import opened Invariant
  import opened Lifecycle
  import opened Passes
  import opened Resources
  import opened World
  import opened Writes

  // ----- the operator's own writes

  /** What the undeleted path and the client calls never do: release. */
  ghost predicate Calm(a: World, b: World) {
    Grows(a, b) && a.released == b.released
  }

  lemma CalmTransitive(a: World, b: World, c: World)
    requires Calm(a, b) && Calm(b, c)
    ensures Calm(a, c)
  {
    GrowsTransitive(a, b, c);
  }

  lemma CalmIsGrowth(a: World, b: World)
    requires Calm(a, b)
    ensures Grows(a, b)
  {}

  lemma SendKeeps(w: World, fault: Fault, refusal: Option<ApiError>, obj: Serving)
    requires Inv(w)
    requires refusal.None? ==> Legal(w, obj) && Careful(w, obj)
    ensures Inv(Send(w, fault, refusal, obj).w) && Calm(w, Send(w, fault, refusal, obj).w)
    ensures var reply := Send(w, fault, refusal, obj);
            reply.result.Ok? ==> refusal.None? && |reply.w.versions| == |w.versions| + 1 &&
                                 reply.w.versions[|w.versions|].obj == reply.result.value == obj.(rv := |w.versions|) &&
                                 reply.w.versions[|w.versions|].prev == LiveVersion(w, obj.key)
  {
    if refusal.None? {
      CommitKeeps(w, obj, true);
    }
    hide Inv;
  }

  /** What a write based on version `rv` may do to finalizers. */
  predicate MayFollow(w: World, rv: int, finalizers: seq<string>) {
    0 <= rv < |w.versions| ==>
      && (HasD(w.versions[rv]) && D !in finalizers ==> rv in w.released)
      && (!HasD(w.versions[rv]) && D in finalizers ==>
            Seen(w, w.versions[rv].obj.key, w.versions[rv].obj.uid))
      && AddsOwn(w.versions[rv].obj.finalizers, finalizers)
      && (KeepsOthers(w.versions[rv].obj.finalizers, finalizers) || rv in w.released)
  }

  lemma MayFollowGrows(a: World, b: World, rv: int, finalizers: seq<string>)
    requires Inv(a) && Inv(b) && Grows(a, b) && 0 <= rv < |a.versions| && MayFollow(a, rv, finalizers)
    ensures MayFollow(b, rv, finalizers)
  {
    assert b.versions[rv] == a.versions[rv];
    if !HasD(a.versions[rv]) && D in finalizers {
      SeenGrows(a, b, a.versions[rv].obj.key, a.versions[rv].obj.uid);
    }
  }

  /** An accepted write of new finalizers over version `rv`, live until then. */
  predicate Rewrote(w: World, rv: int, finalizers: seq<string>, o: Serving) {
    && 0 <= rv < o.rv < |w.versions| && w.versions[o.rv].obj == o && w.versions[o.rv].prev == rv
    && o.finalizers == finalizers
    && o == w.versions[rv].obj.(rv := o.rv, finalizers := finalizers)
    && FinalizersAllowed(w.versions[rv].obj, finalizers)
  }

  lemma LegalOverLive(w: World, key: Key, rv: int, finalizers: seq<string>, obj: Serving)
    requires Inv(w) && MayFollow(w, rv, finalizers) && Refusal(w, key, rv, finalizers).None?
    requires obj == Live(w, key).(finalizers := finalizers)
    ensures Legal(w, obj) && Careful(w, obj)
  {
    assert w.versions[w.live[key]].obj.key == key;
  }

  /** An accepted patch replaced the version it was based on, live until then,
      by the same object with other finalizers. */
  lemma PatchKeeps(w0: World, key: Key, rv: int, finalizers: seq<string>)
    requires Inv(w0) && 0 <= rv < |w0.versions| && MayFollow(w0, rv, finalizers)
    ensures Inv(Patch(w0, key, rv, finalizers).w) && Calm(w0, Patch(w0, key, rv, finalizers).w)
    ensures var reply := Patch(w0, key, rv, finalizers);
            reply.result.Ok? ==> Rewrote(reply.w, rv, finalizers, reply.result.value)
  {
    hide Inv, Legal, Careful, MayFollow, Env, TakeTurn;
    var w := TakeTurn(w0);
    TurnKeeps(w0);
    EnvIsCalm(w0, w);
    var refusal := Refusal(w, key, rv, finalizers);
    if key.name != "" {
      if refusal.None? {
        MayFollowGrows(w0, w, rv, finalizers);
        LiveKey(w, key);
        LegalOverLive(w, key, rv, finalizers, Live(w, key).(finalizers := finalizers));
      }
      var obj := if refusal.None? then Live(w, key).(finalizers := finalizers) else ZERO;
      SendKeeps(w, NextTurn(w0).fault, refusal, obj);
      CalmTransitive(w0, w, Patch(w0, key, rv, finalizers).w);
    }
  }

  lemma EnvIsCalm(a: World, b: World)
    requires Env(a, b)
    ensures Calm(a, b) && a.servings == b.servings && NoNewD(a, b)
  {}

  lemma UpdateKeeps(w0: World, sent: Serving)
    requires Inv(w0) && 0 <= sent.rv < |w0.versions| && MayFollow(w0, sent.rv, sent.finalizers)
    requires sent.labels == w0.versions[sent.rv].obj.labels && sent.spec == w0.versions[sent.rv].obj.spec
    ensures Inv(Update(w0, sent).w) && Calm(w0, Update(w0, sent).w)
    ensures Update(w0, sent).result.Ok? ==>
              Rewrote(Update(w0, sent).w, sent.rv, sent.finalizers, Update(w0, sent).result.value)
  {
    hide Inv, Legal, Careful, MayFollow, Env, TakeTurn;
    var w := TakeTurn(w0);
    TurnKeeps(w0);
    EnvIsCalm(w0, w);
    var refusal := Refusal(w, sent.key, sent.rv, sent.finalizers);
    if sent.key.name != "" {
      if refusal.None? {
        MayFollowGrows(w0, w, sent.rv, sent.finalizers);
        LiveKey(w, sent.key);
        LegalOverLive(w, sent.key, sent.rv, sent.finalizers, Rewritten(Live(w, sent.key), sent));
      }
      var obj := if refusal.None? then Rewritten(Live(w, sent.key), sent) else ZERO;
      SendKeeps(w, NextTurn(w0).fault, refusal, obj);
      CalmTransitive(w0, w, Update(w0, sent).w);
    }
  }

  /** An accepted status write replaced the version it was based on, live until
      then, by the same object with another status. */
  lemma UpdateStatusKeeps(w0: World, sent: Serving)
    requires Inv(w0)
    ensures Inv(UpdateStatus(w0, sent).w) && Calm(w0, UpdateStatus(w0, sent).w)
    ensures var reply := UpdateStatus(w0, sent);
            reply.result.Ok? ==>
              var o := reply.result.value;
              && 0 <= sent.rv < o.rv < |reply.w.versions|
              && reply.w.versions[o.rv].obj == o && reply.w.versions[o.rv].prev == sent.rv
              && o == reply.w.versions[sent.rv].obj.(rv := o.rv, status := sent.status)
              && o.key == sent.key
  {
    hide Inv, Env, TakeTurn, Legal, Careful;
    var w := TakeTurn(w0);
    TurnKeeps(w0);
    EnvIsCalm(w0, w);
    var refusal := Refusal(w, sent.key, sent.rv, []);
    if sent.key.name != "" {
      if refusal.None? {
        LiveKey(w, sent.key);
        StatusLegal(w, sent.key, sent.status);
      }
      var obj := if refusal.None? then Live(w, sent.key).(status := sent.status) else ZERO;
      SendKeeps(w, NextTurn(w0).fault, refusal, obj);
      CalmTransitive(w0, w, UpdateStatus(w0, sent).w);
    }
  }

  lemma StatusLegal(w: World, key: Key, status: Status)
    requires Stored(w, key) && Legal(w, Live(w, key)) && Live(w, key).key == key
    ensures Legal(w, Live(w, key).(status := status)) && Careful(w, Live(w, key).(status := status))
  {}

  lemma FetchKeeps(w0: World, key: Key)
    requires Inv(w0)
    ensures Inv(Fetch(w0, key).w) && Calm(w0, Fetch(w0, key).w)
  {
    hide Inv;
    TurnKeeps(w0);
    EnvIsCalm(w0, TakeTurn(w0));
  }

  lemma {:induction false} UpdateStatusFromKeeps(w0: World, attempt: nat, existing0: Serving, desired: Serving)
    requires Inv(w0) && attempt < ATTEMPTS
    ensures Inv(UpdateStatusFrom(w0, attempt, existing0, desired).w)
    ensures Calm(w0, UpdateStatusFrom(w0, attempt, existing0, desired).w)
    decreases ATTEMPTS - attempt
  {
    hide Inv, Fetch, UpdateStatus, Grows;
    var fetched := if attempt == 0 then Reply(w0, Ok(existing0)) else Fetch(w0, desired.key);
    if attempt != 0 {
      FetchKeeps(w0, desired.key);
    } else {
      CalmReflexive(w0);
    }
    if fetched.result.Ok? && fetched.result.value.status != desired.status {
      var existing := fetched.result.value;
      var sent := existing.(status := desired.status);
      var reply := UpdateStatus(fetched.w, sent);
      UpdateStatusKeeps(fetched.w, sent);
      CalmTransitive(w0, fetched.w, reply.w);
      if reply.result.Err? && reply.result.error == Conflict && attempt + 1 < ATTEMPTS {
        UpdateStatusFromKeeps(reply.w, attempt + 1, existing, desired);
        CalmTransitive(w0, reply.w, UpdateStatusFrom(reply.w, attempt + 1, existing, desired).w);
      }
    }
  }

  lemma CalmReflexive(w: World)
    ensures Calm(w, w)
  {}

  lemma SyncStatusKeeps(pass: Pass, original: Serving)
    requires Inv(pass.w)
    ensures Inv(SyncStatus(pass, original).w) && Calm(pass.w, SyncStatus(pass, original).w)
  {
    hide Inv, Calm, UpdateStatusFrom, SameStatus;
    CalmReflexive(pass.w);
    UpdateStatusFromKeeps(pass.w, 0, original, pass.obj);
  }
}
