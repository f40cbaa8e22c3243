/** The status retry loop under every script: which attempt decides, and what is
    stored in the end, read off the environment's turns alone. */
module Retries {
  import opened Conditions
  import opened Invariant
  import opened Lifecycle
  import opened PassOutcomes
  import opened Passes
  import opened Resources
  import opened World
  import opened Writes

  /** The world after `n` turns of the environment, the operator doing nothing. */
  function Turned(w: World, n: nat): World {
    if n == 0 then w else TakeTurn(Turned(w, n - 1))
  }

  datatype Attempt = Stores | AlreadyThere | Contested | Breaks

  /** The version the write of attempt `k` is based on: the caller's at first, the
      one fetched just before later. An attempt takes one turn for its write and,
      but for the first, one for fetching. */
  function Basis(w: World, original: Serving, k: nat): int
    requires k > 0 ==> original.key in Turned(w, 2 * k).live
  {
    if k == 0 then original.rv else Turned(w, 2 * k).live[original.key]
  }

  /** What fetching gives attempt `k`, the first having no need to. */
  predicate Fetched(w: World, key: Key, k: nat) {
    k > 0 ==> Ahead(w, 2 * k - 1).fault == NoFault && Stored(Turned(w, 2 * k), key)
  }

  /** How attempt `k` comes out if it is made: the object cannot be fetched; it has
      the status already; it was written between the basis and the write; the
      write or its reply is lost, or the object gone; or none of this. */
  function AttemptAt(w: World, original: Serving, status: Status, k: nat): Attempt {
    var key, at := original.key, Turned(w, 2 * k + 1);
    if !Fetched(w, key, k) then Breaks
    else if k > 0 && Live(Turned(w, 2 * k), key).status == status then AlreadyThere
    else if Ahead(w, 2 * k).fault != NoFault || !Stored(at, key) then Breaks
    else if at.live[key] != Basis(w, original, k) then Contested
    else Stores
  }

  /** The world after an attempt that decides. */
  function Decided(w: World, original: Serving, status: Status, k: nat): World {
    var key, at := original.key, Turned(w, 2 * k + 1);
    if !Fetched(w, key, k) || AttemptAt(w, original, status, k) == AlreadyThere then Turned(w, 2 * k)
    else if Ahead(w, 2 * k).fault != Dropped && Stored(at, key) && at.live[key] == Basis(w, original, k) then
      Commit(at, Live(at, key).(status := status), true)
    else at
  }

  // ----- whether the loop is entered

  /** The step at the end of a pass: statuses that differ in transition times at
      most are not written; otherwise the loop runs, and its error is the pass's. */
  lemma StatusStep(pass: Pass, original: Serving)
    ensures var a, b := original.status, pass.obj.status;
            var same := a.version == b.version && |a.conditions| == |b.conditions| &&
                        forall i | 0 <= i < |a.conditions| ::
                          && a.conditions[i].ctype == b.conditions[i].ctype
                          && a.conditions[i].status == b.conditions[i].status
                          && a.conditions[i].severity == b.conditions[i].severity
                          && a.conditions[i].reason == b.conditions[i].reason
                          && a.conditions[i].message == b.conditions[i].message;
            if same then SyncStatus(pass, original) == pass
            else
              var written, p := UpdateStatusFrom(pass.w, 0, original, pass.obj), SyncStatus(pass, original);
              && a != b && p.w == written.w && p.obj == pass.obj
              && (p.out == Fine <==> written.out == Fine && pass.out == Fine)
              && (written.out == Fine ==> p.out == pass.out)
  {
    hide UpdateStatusFrom;
    var a, b := original.status.conditions, pass.obj.status.conditions;
    if |a| == |b| {
      forall i | 0 <= i < |a|
        ensures Same(a[i], b[i]) <==>
                && a[i].ctype == b[i].ctype && a[i].status == b[i].status && a[i].severity == b[i].severity
                && a[i].reason == b[i].reason && a[i].message == b[i].message
      {}
    }
  }

  // ----- the turns

  lemma {:induction false} TurnedAhead(w: World, n: nat)
    ensures forall i: nat :: Ahead(Turned(w, n), i) == Ahead(w, n + i)
  {
    hide TakeTurn, Ahead;
    if n > 0 {
      TurnedAhead(w, n - 1);
      TurnAhead(Turned(w, n - 1));
    }
  }

  lemma {:induction false} TurnedKeeps(w: World, n: nat)
    requires Inv(w)
    ensures Inv(Turned(w, n))
  {
    hide Inv, TakeTurn;
    if n > 0 {
      TurnedKeeps(w, n - 1);
      TurnKeeps(Turned(w, n - 1));
    }
  }

  lemma NextAhead(w: World, n: nat)
    ensures NextTurn(Turned(w, n)) == Ahead(w, n)
    ensures TakeTurn(Turned(w, n)) == Turned(w, n + 1)
  {
    TurnedAhead(w, n);
    TurnAhead(Turned(w, n));
  }

  lemma LiveVersionIs(w: World, key: Key)
    requires Inv(w) && Stored(w, key)
    ensures Live(w, key).rv == w.live[key] && Live(w, key).key == key
  {
    assert VersionOK(w.versions, w.live[key]);
  }

  // ----- one attempt

  /** The write of an attempt, based on version `rv`. */
  lemma WriteAt(w: World, n: nat, sent: Serving)
    requires Inv(w) && sent.key.name != ""
    ensures var at, fault := Turned(w, n + 1), Ahead(w, n).fault;
            var hit := Stored(at, sent.key) && at.live[sent.key] == sent.rv;
            var reply := UpdateStatus(Turned(w, n), sent);
            && reply.w == (if fault != Dropped && hit then Commit(at, Live(at, sent.key).(status := sent.status), true)
                           else at)
            && (reply.result.Ok? <==> fault == NoFault && hit)
            && (reply.result == Err(Conflict) <==>
                fault == NoFault && Stored(at, sent.key) && at.live[sent.key] != sent.rv)
  {
    hide TakeTurn, Commit, Inv;
    NextAhead(w, n);
  }

  /** Fetching for an attempt. */
  lemma FetchAhead(w: World, key: Key, n: nat)
    requires Inv(w) && key.name != ""
    ensures var at, reply := Turned(w, n + 1), Fetch(Turned(w, n), key);
            && reply.w == at
            && (reply.result.Ok? <==> Ahead(w, n).fault == NoFault && Stored(at, key))
            && (reply.result.Ok? ==> reply.result.value == Live(at, key) && reply.result.value.key == key
                                     && reply.result.value.rv == at.live[key])
  {
    hide TakeTurn, Inv;
    NextAhead(w, n);
    TurnedKeeps(w, n + 1);
    if Stored(Turned(w, n + 1), key) {
      LiveVersionIs(Turned(w, n + 1), key);
    }
  }

  /** Where attempt `k` begins if all before it were contested: after the turns
      they took, with nothing written. */
  function Start(w: World, k: nat): World {
    Turned(w, if k == 0 then 0 else 2 * k - 1)
  }

  /** What the loop gives from attempt `k` on. */
  ghost predicate GoesOn(p: Pass, w: World, desired: Serving, k: nat)
    requires k < 5
  {
    exists existing: Serving :: p == UpdateStatusFrom(Start(w, k), k, existing, desired)
  }

  lemma Continues(p: Pass, w: World, desired: Serving, k: nat, existing: Serving)
    requires k < 5 && p == UpdateStatusFrom(Start(w, k), k, existing, desired)
    ensures GoesOn(p, w, desired, k)
  {}

  /** An attempt that is not contested decides; one that is gives way to the next,
      as long as there is one. */
  lemma OneAttempt(w: World, original: Serving, desired: Serving, existing: Serving, k: nat)
    requires Inv(w) && k < 5 && original.key == desired.key && desired.key.name != ""
    requires original.status != desired.status && (k == 0 ==> existing == original)
    ensures var p := UpdateStatusFrom(Start(w, k), k, existing, desired);
            var attempt := AttemptAt(w, original, desired.status, k);
            if attempt != Contested then
              && p.w == Decided(w, original, desired.status, k)
              && p.out == (if attempt == Breaks then Failing else Fine)
            else if k + 1 < 5 then
              GoesOn(p, w, desired, k + 1)
            else p.w == Turned(w, 9) && p.out == Failing
  {
    hide Inv, Fetch, UpdateStatus, Turned, Ahead, Commit;
    var key, status := original.key, desired.status;
    if k == 0 {
      StartIs(w);
      WriteAt(w, 0, original.(status := status));
      if AttemptAt(w, original, status, 0) == Contested {
        Continues(UpdateStatusFrom(Start(w, 0), 0, existing, desired), w, desired, 1, original);
      }
    } else {
      FetchAhead(w, key, 2 * k - 1);
      if Fetched(w, key, k) {
        var fetched := Live(Turned(w, 2 * k), key);
        if fetched.status != status {
          WriteAt(w, 2 * k, fetched.(status := status));
          if AttemptAt(w, original, status, k) == Contested && k + 1 < 5 {
            Continues(UpdateStatusFrom(Start(w, k), k, existing, desired), w, desired, k + 1, fetched);
          }
        }
      }
    }
  }

  lemma StartIs(w: World)
    ensures Turned(w, 0) == w
  {}

  // ----- the loop

  /** From attempt `k` on. */
  lemma {:induction false} RetriesFrom(w: World, original: Serving, desired: Serving, existing: Serving, k: nat, m: nat)
    requires Inv(w) && k <= m <= 5 && k < 5 && original.key == desired.key && desired.key.name != ""
    requires original.status != desired.status && (k == 0 ==> existing == original)
    requires forall i: nat | k <= i < m :: AttemptAt(w, original, desired.status, i) == Contested
    requires m < 5 ==> AttemptAt(w, original, desired.status, m) != Contested
    ensures var p := UpdateStatusFrom(Start(w, k), k, existing, desired);
            if m < 5 then
              && p.w == Decided(w, original, desired.status, m)
              && p.out == (if AttemptAt(w, original, desired.status, m) == Breaks then Failing else Fine)
            else p.w == Turned(w, 9) && p.out == Failing
    decreases 5 - k
  {
    hide Inv, AttemptAt, Decided, Start, Turned, UpdateStatusFrom;
    OneAttempt(w, original, desired, existing, k);
    if k < m && k + 1 < 5 {
      var next: Serving :| UpdateStatusFrom(Start(w, k), k, existing, desired) ==
                           UpdateStatusFrom(Start(w, k + 1), k + 1, next, desired);
      RetriesFrom(w, original, desired, next, k + 1, m);
    }
  }

  /** Under every script: the first of five attempts that is not contested decides,
      an error other than a conflict included; if all five are contested, nothing
      is written and the conflict is reported. */
  lemma RetriesExactly(w: World, original: Serving, desired: Serving, m: nat)
    requires Inv(w) && m <= 5 && original.key == desired.key && desired.key.name != ""
    requires original.status != desired.status
    requires forall i: nat | i < m :: AttemptAt(w, original, desired.status, i) == Contested
    requires m < 5 ==> AttemptAt(w, original, desired.status, m) != Contested
    ensures var p := UpdateStatusFrom(w, 0, original, desired);
            if m < 5 then
              && p.w == Decided(w, original, desired.status, m)
              && p.out == (if AttemptAt(w, original, desired.status, m) == Breaks then Failing else Fine)
            else p.w == Turned(w, 9) && p.out == Failing
  {
    hide Inv, AttemptAt, Decided, UpdateStatusFrom;
    RetriesFrom(w, original, desired, original, 0, m);
  }

  /** No call is lost, the object stays stored, and nobody gives it the desired
      status meanwhile. */
  predicate OnlyContested(w: World, key: Key, status: Status) {
    && (forall i: nat | i < 9 :: Ahead(w, i).fault == NoFault)
    && (forall n: nat | 1 <= n <= 9 :: OtherStatus(w, key, status, n))
  }

  predicate OtherStatus(w: World, key: Key, status: Status, n: nat) {
    Stored(Turned(w, n), key) && Live(Turned(w, n), key).status != status
  }

  /** Attempt `k`'s write is preceded by somebody else's. */
  predicate WrittenBefore(w: World, original: Serving, k: nat) {
    LiveVersion(Turned(w, 2 * k + 1), original.key) !=
    if k == 0 then original.rv else LiveVersion(Turned(w, 2 * k), original.key)
  }

  /** The status of what is stored in one world is replaced in the next. */
  predicate StatusReplaced(at: World, key: Key, status: Status, after: World) {
    Stored(at, key) && after == Commit(at, Live(at, key).(status := status), true)
  }

  /** Then the loop reports no error exactly if one of the first five attempts is
      not preceded by a write of somebody else's; the first such stores the desired
      status, over whatever the object is by then. */
  lemma FiveAttempts(w: World, original: Serving, desired: Serving)
    requires Inv(w) && original.key == desired.key && desired.key.name != "" && original.status != desired.status
    requires OnlyContested(w, original.key, desired.status)
    ensures var p, key := UpdateStatusFrom(w, 0, original, desired), original.key;
            && (p.out == Fine <==> exists k: nat :: k < 5 && !WrittenBefore(w, original, k))
            && (p.out == Fine ==> exists k: nat ::
                  && k < 5 && !WrittenBefore(w, original, k)
                  && (forall i: nat | i < k :: WrittenBefore(w, original, i))
                  && StatusReplaced(Turned(w, 2 * k + 1), key, desired.status, p.w))
            && (p.out != Fine ==> p.w == Turned(w, 9))
  {
    hide Inv, UpdateStatusFrom, Turned, Ahead, Commit;
    var status := desired.status;
    forall k: nat | k < 5
      ensures AttemptAt(w, original, status, k) == if WrittenBefore(w, original, k) then Contested else Stores
    {
      AttemptContested(w, original, status, k);
    }
    var m: nat := 0;
    while m < 5 && WrittenBefore(w, original, m)
      invariant m <= 5 && forall i: nat | i < m :: WrittenBefore(w, original, i)
    {
      m := m + 1;
    }
    RetriesExactly(w, original, desired, m);
    if m < 5 {
      assert !WrittenBefore(w, original, m);
      DecidedStores(w, original, status, m);
    }
  }

  lemma AttemptContested(w: World, original: Serving, status: Status, k: nat)
    requires OnlyContested(w, original.key, status) && k < 5
    ensures AttemptAt(w, original, status, k) == if WrittenBefore(w, original, k) then Contested else Stores
  {
    hide Turned, Ahead;
    assert OtherStatus(w, original.key, status, 2 * k + 1);
    assert k > 0 ==> OtherStatus(w, original.key, status, 2 * k);
  }

  lemma DecidedStores(w: World, original: Serving, status: Status, k: nat)
    requires AttemptAt(w, original, status, k) == Stores
    ensures StatusReplaced(Turned(w, 2 * k + 1), original.key, status, Decided(w, original, status, k))
  {
    hide Turned, Ahead, Commit;
  }
}
