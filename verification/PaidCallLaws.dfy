/** What every event keeps, and what that means for the money spent on provider calls. */
module PaidCallLaws {
  import opened Outcomes
  import opened Lifecycle
  import opened ReferencePreparation
  import opened PaidCalls

  // ----- the invariant -----

  ghost predicate Alike(c: Invocation, d: Invocation) {
    c.operation == d.operation && c.scope == d.scope && c.round == d.round
  }

  ghost predicate CallOk(calls: seq<Invocation>, round: nat, i: nat)
    requires i < |calls|
  {
    1 <= calls[i].round <= round && ScopeOk(calls[i].operation, calls[i].scope)
  }

  /** A retry repeats an earlier failed call of the same operation, unchanged. */
  ghost predicate LinkOk(calls: seq<Invocation>, i: nat)
    requires i < |calls|
  {
    calls[i].retryOf.Some? ==>
      var j := calls[i].retryOf.value;
      j < i && calls[j].status.Failed() && calls[j].operation == calls[i].operation && calls[j].scope == calls[i].scope
      && calls[j].identity == calls[i].identity && calls[j].idempotencyKey == calls[i].idempotencyKey
  }

  /** Of two calls for the same work in the same round, the earlier has failed. */
  ghost predicate EarlierFailed(calls: seq<Invocation>, i: nat, j: nat)
    requires i < |calls| && j < |calls|
  {
    i < j && Alike(calls[i], calls[j]) ==> calls[i].status.Failed()
  }

  /** An idempotency key names one request. */
  ghost predicate KeyNamesOne(calls: seq<Invocation>, i: nat, j: nat)
    requires i < |calls| && j < |calls|
  {
    calls[i].idempotencyKey == calls[j].idempotencyKey ==>
      && calls[i].operation == calls[j].operation && calls[i].scope == calls[j].scope
      && calls[i].identity == calls[j].identity
  }

  /** A shared result is paid for once. */
  ghost predicate SharedOnce(calls: seq<Invocation>, i: nat, j: nat)
    requires i < |calls| && j < |calls|
  {
    (calls[i].status == Succeeded && calls[j].status == Succeeded && calls[i].operation == calls[j].operation
     && StageOf(calls[i].operation) in SHARED_STAGES) ==> i == j
  }

  ghost predicate CallsOk(calls: seq<Invocation>, round: nat) {
    && (forall i: nat {:trigger CallOk(calls, round, i)} :: i < |calls| ==> CallOk(calls, round, i))
    && (forall i: nat {:trigger LinkOk(calls, i)} :: i < |calls| ==> LinkOk(calls, i))
    && (forall i: nat, j: nat {:trigger EarlierFailed(calls, i, j)} ::
          i < |calls| && j < |calls| ==> EarlierFailed(calls, i, j))
    && (forall i: nat, j: nat {:trigger KeyNamesOne(calls, i, j)} ::
          i < |calls| && j < |calls| ==> KeyNamesOne(calls, i, j))
    && (forall i: nat, j: nat {:trigger SharedOnce(calls, i, j)} ::
          i < |calls| && j < |calls| ==> SharedOnce(calls, i, j))
  }

  ghost predicate RowOk(checkpoints: map<CheckpointKey, Row>, round: nat, k: CheckpointKey)
    requires k in checkpoints
  {
    && checkpoints[k].digest == Digest(k.1, k.2, k.0)
    && checkpoints[k].artifact.kind == k.1 && checkpoints[k].artifact.scope == k.2
    && k.0 <= round && (k.0 == 0 <==> k.1 in SHARED_STAGES)
  }

  ghost predicate RowsOk(checkpoints: map<CheckpointKey, Row>, round: nat) {
    round >= 1 && forall k {:trigger RowOk(checkpoints, round, k)} :: k in checkpoints ==> RowOk(checkpoints, round, k)
  }

  function KeyOf(c: Invocation): CheckpointKey {
    KeyIn(c.round, StageOf(c.operation), c.scope)
  }

  /** A success has its checkpoint. */
  ghost predicate SuccessKept(r: Run, i: nat)
    requires i < |r.calls|
  {
    r.calls[i].status == Succeeded ==> KeyOf(r.calls[i]) in r.checkpoints
  }

  ghost predicate SuccessesKept(r: Run) {
    forall i: nat {:trigger SuccessKept(r, i)} :: i < |r.calls| ==> SuccessKept(r, i)
  }

  /** A call that the process waits for is open, belongs to this round, and has no result yet. */
  ghost predicate Flies(r: Run, i: nat) {
    && i < |r.calls| && r.calls[i].status.Open() && r.calls[i].round == r.round
    && KeyOf(r.calls[i]) !in r.checkpoints
  }

  ghost predicate ProcessOk(r: Run) {
    && (forall i {:trigger Flies(r, i)} :: i in r.inflight ==> Flies(r, i))
    && (r.again.Some? ==>
          var i := r.again.value;
          i < |r.calls| && r.calls[i].status == ExplicitFailure && r.calls[i].round == r.round
          && KeyOf(r.calls[i]) !in r.checkpoints
          && Latest(r.calls, r.calls[i].operation, r.calls[i].scope, r.round) == Some(i))
    && (r.executing ==> r.status == Running)
    && (!r.executing ==> r.inflight == {} && r.again.None?)
  }

  ghost predicate Core(r: Run) {
    CallsOk(r.calls, r.round) && RowsOk(r.checkpoints, r.round) && SuccessesKept(r) && ProcessOk(r)
  }

  /** The rows of prepared references: never changed, and only for captured references of rounds that have begun. */
  ghost predicate PreparationsOk(r: Run) {
    && Immutable(r.preparations) && UpTo(r.preparations, r.round)
    && (forall k :: k in r.preparations ==> r.intake.Some? && k.1 < r.intake.value.references)
  }

  /** The references of this round are all prepared, and bound to its job input. */
  ghost predicate ReferencesFixed(r: Run) {
    RoundPrepared(r) && JobIsEffective(r)
  }

  ghost predicate CallHasReferences(r: Run, i: nat)
    requires i < |r.calls|
  {
    r.calls[i].round == r.round && NeedsReferences(r.calls[i].operation) ==> ReferencesFixed(r)
  }

  ghost predicate PhaseOk(r: Run) {
    && (r.phase == Correcting ==> ReferencesFixed(r))
    && (r.phase == Rebinding ==> RoundPrepared(r) && !JobBound(r))
    && AllPrepared(r.preparations, r.round, r.prepared)
    && (!r.executing ==> r.phase == Opening && r.prepared == 0)
  }

  const PAID_BELOW_JOB: set<Stage> := {CorrectionTranscript, SelectionResult, AtaResponse}

  /** What the corrections and everything after them have produced comes with the job input of the round. */
  ghost predicate ResultsHaveJob(checkpoints: map<CheckpointKey, Row>) {
    forall k :: k in checkpoints && k.1 in PAID_BELOW_JOB ==> JobKey(k.0) in checkpoints
  }

  ghost predicate ReferencesOk(r: Run) {
    && PreparationsOk(r) && PhaseOk(r) && ResultsHaveJob(r.checkpoints)
    && (forall i: nat {:trigger CallHasReferences(r, i)} :: i < |r.calls| ==> CallHasReferences(r, i))
  }

  ghost predicate Inv(r: Run) {
    Core(r) && ReferencesOk(r)
  }

  lemma {:induction false} FreshIsSound()
    ensures Inv(FRESH)
  {
  }

  // ----- how calls age -----

  ghost predicate CallAged(c: Invocation, d: Invocation) {
    && Alike(c, d) && d.identity == c.identity && d.idempotencyKey == c.idempotencyKey && d.retryOf == c.retryOf
    && (!c.status.Open() ==> d.status == c.status)
  }

  /** Calls are only added, and a settled call keeps its outcome. */
  ghost predicate Settles(r: Run, t: Run) {
    |r.calls| <= |t.calls| && forall i: nat {:trigger CallAged(r.calls[i], t.calls[i])} ::
      i < |r.calls| ==> CallAged(r.calls[i], t.calls[i])
  }

  lemma {:induction false} SettlesItself(r: Run)
    ensures Settles(r, r)
  {
  }

  // ----- a new call -----

  /** The calls of a key all have failed when the retry identity is granted. */
  lemma {:induction false} GrantedAfterFailures(r: Run, op: Operation, scope: Scope, explicit: Option<nat>)
    requires CallsOk(r.calls, r.round) && RetryIdentity(r, op, scope, explicit).Ok?
    ensures forall i: nat :: i < |r.calls| && IsCall(r.calls[i], op, scope, r.round) ==> r.calls[i].status.Failed()
    ensures var retry := RetryIdentity(r, op, scope, explicit).value;
            retry.Some? ==> retry.value < |r.calls| && IsCall(r.calls[retry.value], op, scope, r.round)
                            && r.calls[retry.value].status.Failed()
  {
    var latest := Latest(r.calls, op, scope, r.round);
    forall i: nat | i < |r.calls| && IsCall(r.calls[i], op, scope, r.round)
      ensures r.calls[i].status.Failed()
    {
      if i != latest.value {
        assert EarlierFailed(r.calls, i, latest.value);
      }
    }
  }

  /** What is known of the invocation that a new one retries. */
  ghost predicate Repeats(calls: seq<Invocation>, c: Invocation) {
    c.retryOf.Some? ==>
      var j := c.retryOf.value;
      j < |calls| && calls[j].status.Failed() && calls[j].operation == c.operation && calls[j].scope == c.scope
      && calls[j].identity == c.identity && calls[j].idempotencyKey == c.idempotencyKey
  }

  lemma {:induction false} AppendKeepsCalls(calls: seq<Invocation>, c: Invocation, round: nat)
    requires CallsOk(calls, round) && 1 <= c.round <= round && ScopeOk(c.operation, c.scope) && c.status == Created
    requires Repeats(calls, c) && (c.retryOf.None? ==> KeyIsNew(calls, c.idempotencyKey))
    requires forall i: nat :: i < |calls| && Alike(calls[i], c) ==> calls[i].status.Failed()
    ensures CallsOk(calls + [c], round)
  {
    var longer, n := calls + [c], |calls|;
    forall i: nat | i < |longer|
      ensures CallOk(longer, round, i) && LinkOk(longer, i)
    {
      if i < n {
        assert CallOk(calls, round, i) && LinkOk(calls, i);
      }
    }
    forall i: nat, j: nat | i < |longer| && j < |longer|
      ensures EarlierFailed(longer, i, j) && SharedOnce(longer, i, j)
    {
      if i < n && j < n {
        assert EarlierFailed(calls, i, j) && SharedOnce(calls, i, j);
      }
    }
    forall i: nat, j: nat | i < |longer| && j < |longer|
      ensures KeyNamesOne(longer, i, j)
    {
      var a := if i < n then i else if c.retryOf.Some? then c.retryOf.value else i;
      var b := if j < n then j else if c.retryOf.Some? then c.retryOf.value else j;
      if a < n && b < n {
        assert KeyNamesOne(calls, a, b);
      }
    }
  }

  lemma {:induction false} NewCallRepeats(
    r: Run, op: Operation, scope: Scope, identity: Identity, retry: Option<nat>, drawn: string)
    requires CallsOk(r.calls, r.round) && ScopeOk(op, scope)
    requires retry.Some? ==>
               var c := retry.value;
               c < |r.calls| && r.calls[c].status.Failed() && r.calls[c].operation == op && r.calls[c].scope == scope
    requires NewInvocation(r, op, scope, identity, retry, drawn).Ok?
    ensures var t := NewInvocation(r, op, scope, identity, retry, drawn).value;
            var c := t.calls[|r.calls|];
            && t == r.(calls := r.calls + [c], inflight := r.inflight + {|r.calls|})
            && c.operation == op && c.scope == scope && c.round == r.round && c.status == Created
            && c.identity == identity
            && Repeats(r.calls, c) && (c.retryOf.None? ==> c.idempotencyKey == drawn)
  {
    var target := RetryTarget(r, op, identity, retry);
    if target.Some? {
      assert CallOk(r.calls, r.round, target.value);
    }
  }

  /** A new call keeps the invariant when its key has no open call, no success, and no result in this round. */
  lemma {:induction false} NewCallKeeps(r: Run, c: Invocation)
    requires Core(r)
    requires r.executing && r.again.None? && c.round == r.round && ScopeOk(c.operation, c.scope) && c.status == Created
    requires Repeats(r.calls, c) && (c.retryOf.None? ==> KeyIsNew(r.calls, c.idempotencyKey))
    requires forall i: nat :: i < |r.calls| && Alike(r.calls[i], c) ==> r.calls[i].status.Failed()
    requires KeyOf(c) !in r.checkpoints
    ensures Core(r.(calls := r.calls + [c], inflight := r.inflight + {|r.calls|}))
    ensures Settles(r, r.(calls := r.calls + [c], inflight := r.inflight + {|r.calls|}))
  {
    var t := r.(calls := r.calls + [c], inflight := r.inflight + {|r.calls|});
    AppendKeepsCalls(r.calls, c, r.round);
    forall i | i in t.inflight
      ensures Flies(t, i)
    {
      if i in r.inflight {
        assert Flies(r, i);
      }
    }
    forall i: nat | i < |t.calls|
      ensures SuccessKept(t, i)
    {
      assert i < |r.calls| ==> SuccessKept(r, i);
    }
  }

  lemma {:induction false} StartKeeps(
    r: Run, op: Operation, scope: Scope, explicit: Option<nat>, identity: Identity, drawn: string)
    requires Core(r) && May(r, Start(op, scope, explicit, identity, drawn))
    requires DoStart(r, op, scope, explicit, identity, drawn).Ok?
    ensures Core(DoStart(r, op, scope, explicit, identity, drawn).value)
    ensures Settles(r, DoStart(r, op, scope, explicit, identity, drawn).value)
  {
    if Get(r, StageOf(op), scope) == Ok(None) {
      GrantedAfterFailures(r, op, scope, explicit);
      var retry := RetryIdentity(r, op, scope, explicit).value;
      NewCallRepeats(r, op, scope, identity, retry, drawn);
      NewCallKeeps(r, NewInvocation(r, op, scope, identity, retry, drawn).value.calls[|r.calls|]);
    }
  }

  lemma {:induction false} ResubmitKeeps(r: Run, identity: Identity)
    requires Core(r) && May(r, Resubmit(identity)) && DoResubmit(r, identity).Ok?
    ensures Core(DoResubmit(r, identity).value) && Settles(r, DoResubmit(r, identity).value)
  {
    var i := r.again.value;
    var c := r.calls[i];
    var ready := r.(again := None, second := r.second + {|r.calls|});
    assert CallOk(r.calls, r.round, i);
    forall j: nat | j < |r.calls| && IsCall(r.calls[j], c.operation, c.scope, r.round)
      ensures r.calls[j].status.Failed()
    {
      assert j == i || EarlierFailed(r.calls, j, i);
    }
    forall j | j in ready.inflight
      ensures Flies(ready, j)
    {
      assert Flies(r, j);
    }
    forall j: nat | j < |r.calls|
      ensures SuccessKept(ready, j)
    {
      assert SuccessKept(r, j);
    }
    NewCallRepeats(ready, c.operation, c.scope, identity, Some(i), "");
    NewCallKeeps(ready, DoResubmit(r, identity).value.calls[|r.calls|]);
  }

  // ----- the status of a flying call -----

  lemma {:induction false} StatusKeepsCalls(r: Run, i: nat, status: Status)
    requires CallsOk(r.calls, r.round) && i < |r.calls| && r.calls[i].status.Open() && status != Created
    requires status == Succeeded && StageOf(r.calls[i].operation) in SHARED_STAGES ==>
               forall j: nat :: j < |r.calls| && r.calls[j].operation == r.calls[i].operation ==>
                 r.calls[j].status != Succeeded
    ensures CallsOk(WithStatus(r, i, status).calls, r.round)
  {
    var calls, after := r.calls, WithStatus(r, i, status).calls;
    forall a: nat | a < |calls|
      ensures CallOk(after, r.round, a) && LinkOk(after, a)
    {
      assert CallOk(calls, r.round, a) && LinkOk(calls, a);
    }
    forall a: nat, b: nat | a < |calls| && b < |calls|
      ensures EarlierFailed(after, a, b) && KeyNamesOne(after, a, b) && SharedOnce(after, a, b)
    {
      assert EarlierFailed(calls, a, b) && KeyNamesOne(calls, a, b) && SharedOnce(calls, a, b);
    }
  }

  lemma {:induction false} StatusSettles(r: Run, i: nat, status: Status)
    requires i < |r.calls| && r.calls[i].status.Open()
    ensures Settles(r, WithStatus(r, i, status))
  {
  }

  /** The latest call of a key depends only on keys and order, not on statuses. */
  lemma {:induction false} LatestIgnoresStatus(
    calls: seq<Invocation>, after: seq<Invocation>, op: Operation, scope: Scope, round: nat)
    requires |calls| == |after| && forall i :: 0 <= i < |calls| ==> Alike(calls[i], after[i])
    ensures Latest(after, op, scope, round) == Latest(calls, op, scope, round)
  {
    assert forall i :: 0 <= i < |calls| ==>
        (IsCall(calls[i], op, scope, round) <==> IsCall(after[i], op, scope, round));
  }

  lemma {:induction false} SendKeeps(r: Run, i: nat)
    requires Core(r) && May(r, Send(i))
    ensures Core(WithStatus(r, i, Sending)) && Settles(r, WithStatus(r, i, Sending))
  {
    var t := WithStatus(r, i, Sending);
    StatusKeepsCalls(r, i, Sending);
    StatusSettles(r, i, Sending);
    forall j | j in r.inflight
      ensures Flies(t, j)
    {
      assert Flies(r, j);
    }
    forall j: nat | j < |t.calls|
      ensures SuccessKept(t, j)
    {
      assert SuccessKept(r, j);
    }
    if r.again.Some? {
      var c := r.calls[r.again.value];
      LatestIgnoresStatus(r.calls, t.calls, c.operation, c.scope, r.round);
    }
  }

  /** The calls that still fly, and the call that may be submitted again. */
  lemma {:induction false} FailKeepsProcess(r: Run, i: nat, failure: Failure)
    requires Core(r) && May(r, Fail(i, failure))
    ensures ProcessOk(DoFail(r, i, failure))
  {
    hide CallsOk, RowsOk, SuccessesKept;
    var t := DoFail(r, i, failure);
    assert Flies(r, i);
    forall j | j in t.inflight
      ensures Flies(t, j)
    {
      assert Flies(r, j);
    }
    if t.again.Some? {
      var c := r.calls[t.again.value];
      LatestIgnoresStatus(r.calls, t.calls, c.operation, c.scope, r.round);
      OpenIsLatest(r, i);
    }
  }

  lemma {:induction false} FailKeeps(r: Run, i: nat, failure: Failure)
    requires Core(r) && May(r, Fail(i, failure))
    ensures Core(DoFail(r, i, failure)) && Settles(r, DoFail(r, i, failure))
  {
    hide CallsOk, RowsOk;
    var status, t := FailureStatus(failure), DoFail(r, i, failure);
    assert Flies(r, i);
    StatusKeepsCalls(r, i, status);
    StatusSettles(r, i, status);
    FailKeepsProcess(r, i, failure);
    forall j: nat | j < |t.calls|
      ensures SuccessKept(t, j)
    {
      assert SuccessKept(r, j);
    }
  }

  /** An open call is the latest of its key in its round. */
  lemma {:induction false} OpenIsLatest(r: Run, i: nat)
    requires CallsOk(r.calls, r.round) && i < |r.calls| && !r.calls[i].status.Failed()
    ensures Latest(r.calls, r.calls[i].operation, r.calls[i].scope, r.calls[i].round) == Some(i)
  {
    var latest := Latest(r.calls, r.calls[i].operation, r.calls[i].scope, r.calls[i].round);
    if latest.None? {
      assert IsCall(r.calls[i], r.calls[i].operation, r.calls[i].scope, r.calls[i].round);
    } else {
      assert EarlierFailed(r.calls, i, latest.value);
    }
  }

  /** The call that waits to be submitted again is not the one that just settled. */
  lemma {:induction false} KeysDiffer(r: Run, i: nat, j: nat)
    requires Core(r) && i < |r.calls| && j < |r.calls| && i != j
    requires r.calls[i].round == r.round && r.calls[j].round == r.round
    requires Latest(r.calls, r.calls[i].operation, r.calls[i].scope, r.round) == Some(i)
    requires Latest(r.calls, r.calls[j].operation, r.calls[j].scope, r.round) == Some(j)
    ensures KeyOf(r.calls[i]) != KeyOf(r.calls[j])
  {
    assert CallOk(r.calls, r.round, i) && CallOk(r.calls, r.round, j);
  }

  lemma {:induction false} SharedHasNoOtherSuccess(r: Run, i: nat)
    requires Core(r) && Flies(r, i) && StageOf(r.calls[i].operation) in SHARED_STAGES
    ensures forall j: nat :: j < |r.calls| && r.calls[j].operation == r.calls[i].operation ==>
              r.calls[j].status != Succeeded
  {
    forall j: nat | j < |r.calls| && r.calls[j].operation == r.calls[i].operation
      ensures r.calls[j].status != Succeeded
    {
      assert CallOk(r.calls, r.round, i) && CallOk(r.calls, r.round, j) && SuccessKept(r, j);
      assert KeyOf(r.calls[j]) == KeyOf(r.calls[i]);
    }
  }

  /** The calls that still fly, and the one that waits to be submitted again, are for other keys. */
  lemma {:induction false} SuccessLeavesOthers(r: Run, i: nat, j: nat, id: string)
    requires Core(r) && May(r, Succeed(i, id)) && DoSucceed(r, i, id).Ok? && i != j
    ensures j in r.inflight ==> Flies(DoSucceed(r, i, id).value, j)
    ensures r.again == Some(j) ==> KeyOf(r.calls[j]) != KeyOf(r.calls[i])
  {
    hide CallsOk, RowsOk, SuccessesKept;
    assert Flies(r, i);
    OpenIsLatest(r, i);
    if j in r.inflight {
      assert Flies(r, j);
      OpenIsLatest(r, j);
      KeysDiffer(r, i, j);
    }
    if r.again == Some(j) {
      KeysDiffer(r, i, j);
    }
  }

  lemma {:induction false} SucceedKeeps(r: Run, i: nat, id: string)
    requires Core(r) && May(r, Succeed(i, id)) && DoSucceed(r, i, id).Ok?
    ensures Core(DoSucceed(r, i, id).value) && Settles(r, DoSucceed(r, i, id).value)
  {
    hide CallsOk, KeyOf;
    var t := DoSucceed(r, i, id).value;
    assert Flies(r, i);
    if StageOf(r.calls[i].operation) in SHARED_STAGES {
      SharedHasNoOtherSuccess(r, i);
    }
    StatusKeepsCalls(r, i, Succeeded);
    StatusSettles(r, i, Succeeded);
    forall j | j in t.inflight
      ensures Flies(t, j)
    {
      SuccessLeavesOthers(r, i, j, id);
    }
    SuccessWrites(r, i, id);
    if r.again.Some? {
      var c := r.calls[r.again.value];
      LatestIgnoresStatus(r.calls, t.calls, c.operation, c.scope, r.round);
      SuccessLeavesOthers(r, i, r.again.value, id);
    }
  }

  /** The checkpoint of the success is the only row that it adds. */
  lemma {:induction false} SuccessWrites(r: Run, i: nat, id: string)
    requires Core(r) && May(r, Succeed(i, id)) && DoSucceed(r, i, id).Ok?
    ensures var t := DoSucceed(r, i, id).value;
      && SuccessesKept(t) && RowsOk(t.checkpoints, t.round)
      && forall k :: k in t.checkpoints ==> k in r.checkpoints || k == KeyOf(r.calls[i])
  {
    hide CallsOk;
    var t := DoSucceed(r, i, id).value;
    assert Flies(r, i);
    forall j: nat | j < |t.calls|
      ensures SuccessKept(t, j)
    {
      assert SuccessKept(r, j);
    }
    forall k | k in t.checkpoints
      ensures RowOk(t.checkpoints, t.round, k)
    {
      if k != KeyOf(r.calls[i]) {
        assert RowOk(r.checkpoints, r.round, k);
      }
    }
  }

  lemma {:induction false} RemoteJobKeepsCalls(r: Run, i: nat)
    requires CallsOk(r.calls, r.round) && i < |r.calls|
    ensures CallsOk(r.calls[i := r.calls[i].(remoteJob := true)], r.round)
  {
    var calls, after := r.calls, r.calls[i := r.calls[i].(remoteJob := true)];
    forall a: nat | a < |calls|
      ensures CallOk(after, r.round, a) && LinkOk(after, a)
    {
      assert CallOk(calls, r.round, a) && LinkOk(calls, a);
    }
    forall a: nat, b: nat | a < |calls| && b < |calls|
      ensures EarlierFailed(after, a, b) && KeyNamesOne(after, a, b) && SharedOnce(after, a, b)
    {
      assert EarlierFailed(calls, a, b) && KeyNamesOne(calls, a, b) && SharedOnce(calls, a, b);
    }
  }

  lemma {:induction false} RemoteJobKeeps(r: Run, i: nat)
    requires Core(r) && May(r, RemoteJob(i))
    ensures var t := r.(calls := r.calls[i := r.calls[i].(remoteJob := true)]); Core(t) && Settles(r, t)
  {
    hide CallsOk, RowsOk;
    var t := r.(calls := r.calls[i := r.calls[i].(remoteJob := true)]);
    RemoteJobKeepsCalls(r, i);
    forall a: nat | a < |t.calls|
      ensures SuccessKept(t, a)
    {
      assert SuccessKept(r, a);
    }
    forall j | j in t.inflight
      ensures Flies(t, j)
    {
      assert Flies(r, j);
    }
    if r.again.Some? {
      var c := r.calls[r.again.value];
      LatestIgnoresStatus(r.calls, t.calls, c.operation, c.scope, r.round);
    }
  }

  // ----- checkpoints -----

  lemma {:induction false} BindKeeps(r: Run, artifact: Artifact)
    requires Core(r) && !Paid(artifact.kind) && Bound(r, artifact).Ok?
    ensures Core(Bound(r, artifact).value) && Settles(r, Bound(r, artifact).value)
  {
    var t := Bound(r, artifact).value;
    forall k | k in t.checkpoints
      ensures RowOk(t.checkpoints, t.round, k)
    {
      if k != KeyIn(r.round, artifact.kind, artifact.scope) {
        assert RowOk(r.checkpoints, r.round, k);
      }
    }
    forall j | j in t.inflight
      ensures Flies(t, j)
    {
      assert Flies(r, j);
    }
    forall j: nat | j < |t.calls|
      ensures SuccessKept(t, j)
    {
      assert SuccessKept(r, j);
    }
  }

  /** What lies below the job input: the stages of the operations that need the references, and no other's. */
  lemma {:induction false} DroppedByOperation(op: Operation)
    ensures StageOf(op) in Dropped() <==> NeedsReferences(op)
    ensures StageOf(op) in PAID_BELOW_JOB <==> NeedsReferences(op)
    ensures StageOf(op) in SHARED_STAGES <==> !NeedsReferences(op)
  {
    var graph, roots := DOWNSTREAM, {JobInput};
    JobInputReachesNoSharedStage();
    OneEdge(graph, roots, JobInput, CorrectionTranscript);
    OneEdge(graph, roots, CorrectionTranscript, MergePlan);
    OneEdge(graph, roots, MergePlan, SelectionBatch);
    OneEdge(graph, roots, SelectionBatch, SelectionResult);
    OneEdge(graph, roots, MergePlan, EditResolution);
    OneEdge(graph, roots, EditResolution, Transcript);
    OneEdge(graph, roots, Transcript, AtaResponse);
    DescendantsAreReached(graph, roots);
  }

  /** Nothing that was paid for in this round is below a job input with other references. */
  lemma {:induction false} NothingToStrand(r: Run, i: nat)
    requires Inv(r) && !ReferencesFixed(r) && i < |r.calls| && StageOf(r.calls[i].operation) in Dropped()
    ensures r.calls[i].round != r.round
  {
    DroppedByOperation(r.calls[i].operation);
    assert CallHasReferences(r, i);
  }

  lemma {:induction false} InvalidateKeeps(r: Run)
    requires Inv(r) && May(r, Invalidate)
    ensures Core(DoInvalidate(r)) && Settles(r, DoInvalidate(r))
  {
    hide Dropped;
    var t := DoInvalidate(r);
    forall k | k in t.checkpoints
      ensures RowOk(t.checkpoints, t.round, k)
    {
      assert RowOk(r.checkpoints, r.round, k);
    }
    forall j: nat | j < |t.calls|
      ensures SuccessKept(t, j)
    {
      assert SuccessKept(r, j) && CallOk(r.calls, r.round, j);
      if StageOf(r.calls[j].operation) in Dropped() {
        DroppedByOperation(r.calls[j].operation);
        NothingToStrand(r, j);
      }
    }
  }

  // ----- the process, and new rounds -----

  /** The fields of the process and of the references play no part in the rest. */
  lemma {:induction false} ProcessFieldsKeep(r: Run, t: Run)
    requires Core(r) && t.round == r.round && t.calls == r.calls && t.checkpoints == r.checkpoints
    requires (t.inflight == r.inflight && t.again == r.again) || (t.inflight == {} && t.again.None?)
    requires (t.executing ==> t.status == Running) && (!t.executing ==> t.inflight == {} && t.again.None?)
    ensures Core(t) && Settles(r, t)
  {
    forall j: nat | j < |t.calls|
      ensures SuccessKept(t, j)
    {
      assert SuccessKept(r, j);
    }
    forall j | j in t.inflight
      ensures Flies(t, j)
    {
      assert Flies(r, j);
    }
  }

  lemma {:induction false} SettleKeeps(r: Run, id: string)
    requires Inv(r) && May(r, Settle(id)) && DoSettle(r, id).Ok?
    ensures Core(DoSettle(r, id).value) && Settles(r, DoSettle(r, id).value)
  {
    ProcessFieldsKeep(r, r.(phase := Correcting));
    if r.phase == Rebinding {
      BindKeeps(r.(phase := Correcting), Artifact(JobInput, "global", id, EffectiveReferences(r)));
    }
  }

  lemma {:induction false} RecoverKeeps(r: Run)
    requires Core(r) && May(r, Recover)
    ensures Core(DoRecover(r)) && Settles(r, DoRecover(r))
  {
    var t := DoRecover(r);
    forall a: nat | a < |t.calls|
      ensures CallOk(t.calls, r.round, a) && LinkOk(t.calls, a) && SuccessKept(t, a)
    {
      assert CallOk(r.calls, r.round, a) && LinkOk(r.calls, a) && SuccessKept(r, a);
    }
    forall a: nat, b: nat | a < |t.calls| && b < |t.calls|
      ensures EarlierFailed(t.calls, a, b) && KeyNamesOne(t.calls, a, b) && SharedOnce(t.calls, a, b)
    {
      assert EarlierFailed(r.calls, a, b) && KeyNamesOne(r.calls, a, b) && SharedOnce(r.calls, a, b);
    }
  }

  lemma {:induction false} BeginRetryKeeps(r: Run)
    requires Core(r) && May(r, BeginRetry) && DoBeginRetry(r).Ok?
    ensures Core(DoBeginRetry(r).value) && Settles(r, DoBeginRetry(r).value)
  {
    var t := DoBeginRetry(r).value;
    forall a: nat | a < |t.calls|
      ensures CallOk(t.calls, t.round, a) && SuccessKept(t, a)
    {
      assert CallOk(r.calls, r.round, a) && SuccessKept(r, a);
    }
    forall k | k in t.checkpoints
      ensures RowOk(t.checkpoints, t.round, k)
    {
      if k in CarriedRows(r) {
        assert RowOk(r.checkpoints, r.round, (r.round, k.1, k.2));
      } else {
        assert RowOk(r.checkpoints, r.round, k);
      }
    }
  }

  /** Intake, the begin and the end of a process, the references, and cancellation. */
  lemma {:induction false} OthersKeepCore(r: Run, e: Event)
    requires Core(r) && May(r, e) && Apply(r, e).Ok?
    requires e.TakeIn? || e.Begin? || e.Prepare? || e.RequestCancel? || e.End? || e.Crash?
    ensures Core(Apply(r, e).value) && Settles(r, Apply(r, e).value)
  {
    hide CallsOk, RowsOk, SuccessesKept, WithPreparation, Quiet;
    ProcessFieldsKeep(r, Apply(r, e).value);
  }

  /** The calls and the checkpoints after every event. */
  lemma {:induction false} StepKeepsCore(r: Run, e: Event)
    requires Inv(r)
    ensures Core(After(r, e)) && Settles(r, After(r, e))
  {
    hide Core, ReferencesOk, DoStart, DoResubmit, DoFail, DoSucceed, DoInvalidate, DoBeginRetry, DoRecover;
    SettlesItself(r);
    if May(r, e) && Apply(r, e).Ok? {
      match e
      case Recover => RecoverKeeps(r);
      case BindJob => BindKeeps(r, Artifact(JobInput, "global", r.intake.value.jobId, []));
      case Invalidate => InvalidateKeeps(r);
      case Settle(id) => SettleKeeps(r, id);
      case Start(op, scope, explicit, identity, drawn) => StartKeeps(r, op, scope, explicit, identity, drawn);
      case Resubmit(identity) => ResubmitKeeps(r, identity);
      case Send(i) => SendKeeps(r, i);
      case RemoteJob(i) => RemoteJobKeeps(r, i);
      case Fail(i, failure) => FailKeeps(r, i, failure);
      case Succeed(i, id) => SucceedKeeps(r, i, id);
      case Bind(stage, scope, id) => BindKeeps(r, Artifact(stage, scope, id, []));
      case BeginRetry => BeginRetryKeeps(r);
      case _ => OthersKeepCore(r, e);
    }
  }

  // ----- the references of the round -----

  ghost predicate SameJob(r: Run, t: Run) {
    && (JobKey(r.round) in t.checkpoints <==> JobBound(r))
    && (JobBound(r) ==> t.checkpoints[JobKey(r.round)] == r.checkpoints[JobKey(r.round)])
  }

  /** Events that leave the job input alone; a new call that needs the references comes after they are settled. */
  lemma {:induction false} ReferencesStay(r: Run, t: Run)
    requires ReferencesOk(r) && t.round == r.round && t.intake == r.intake && t.preparations == r.preparations
    requires SameJob(r, t) && ResultsHaveJob(t.checkpoints)
    requires (t.executing && t.phase == r.phase && t.prepared == r.prepared) || (t.phase == Opening && t.prepared == 0)
    requires forall i: nat :: i < |t.calls| && t.calls[i].round == r.round && NeedsReferences(t.calls[i].operation) ==>
               r.phase == Correcting || (i < |r.calls| && Alike(r.calls[i], t.calls[i]))
    ensures ReferencesOk(t)
  {
    assert ReferencesFixed(r) <==> ReferencesFixed(t);
    forall i: nat | i < |t.calls|
      ensures CallHasReferences(t, i)
    {
      if i < |r.calls| {
        assert CallHasReferences(r, i);
      }
    }
  }

  lemma {:induction false} StartKeepsReferences(
    r: Run, op: Operation, scope: Scope, explicit: Option<nat>, identity: Identity, drawn: string)
    requires Inv(r) && May(r, Start(op, scope, explicit, identity, drawn))
    requires DoStart(r, op, scope, explicit, identity, drawn).Ok?
    ensures ReferencesOk(DoStart(r, op, scope, explicit, identity, drawn).value)
  {
    if Get(r, StageOf(op), scope) == Ok(None) {
      GrantedAfterFailures(r, op, scope, explicit);
      NewCallRepeats(r, op, scope, identity, RetryIdentity(r, op, scope, explicit).value, drawn);
      ReferencesStay(r, DoStart(r, op, scope, explicit, identity, drawn).value);
    }
  }

  lemma {:induction false} ResubmitKeepsReferences(r: Run, identity: Identity)
    requires Inv(r) && May(r, Resubmit(identity)) && DoResubmit(r, identity).Ok?
    ensures ReferencesOk(DoResubmit(r, identity).value)
  {
    var t, c := DoResubmit(r, identity).value, r.calls[r.again.value];
    var ready := r.(again := None, second := r.second + {|r.calls|});
    assert CallOk(r.calls, r.round, r.again.value);
    NewCallRepeats(ready, c.operation, c.scope, identity, r.again, "");
    assert ReferencesFixed(r) <==> ReferencesFixed(t);
    forall i: nat | i < |t.calls|
      ensures CallHasReferences(t, i)
    {
      assert CallHasReferences(r, if i < |r.calls| then i else r.again.value);
    }
  }

  lemma {:induction false} SucceedKeepsReferences(r: Run, i: nat, id: string)
    requires Inv(r) && May(r, Succeed(i, id)) && DoSucceed(r, i, id).Ok?
    ensures ReferencesOk(DoSucceed(r, i, id).value)
  {
    assert Flies(r, i) && CallHasReferences(r, i);
    DroppedByOperation(r.calls[i].operation);
    ReferencesStay(r, DoSucceed(r, i, id).value);
  }

  lemma {:induction false} BindKeepsReferences(r: Run, stage: Stage, scope: Scope, id: string)
    requires Inv(r) && May(r, Bind(stage, scope, id)) && Bound(r, Artifact(stage, scope, id, [])).Ok?
    ensures ReferencesOk(Bound(r, Artifact(stage, scope, id, [])).value)
  {
    hide Core, PreparationsOk, CallHasReferences;
    assert StageOf(QwenCorrection) != stage && StageOf(GlmSelection) != stage && StageOf(Ata) != stage;
    ReferencesStay(r, Bound(r, Artifact(stage, scope, id, [])).value);
  }

  /** Without its job input, or with other references, the round has no call that needs them. */
  lemma {:induction false} NoCallYet(r: Run, t: Run)
    requires ReferencesOk(r) && !ReferencesFixed(r) && t.round == r.round && t.calls == r.calls
    ensures forall i: nat :: i < |t.calls| ==> CallHasReferences(t, i)
  {
    forall i: nat | i < |t.calls|
      ensures CallHasReferences(t, i)
    {
      assert CallHasReferences(r, i);
    }
  }

  lemma {:induction false} BindJobKeepsReferences(r: Run)
    requires Inv(r) && May(r, BindJob) && Apply(r, BindJob).Ok?
    ensures ReferencesOk(Apply(r, BindJob).value)
  {
    NoCallYet(r, Apply(r, BindJob).value);
  }

  lemma {:induction false} PrepareKeepsReferences(r: Run, attempt: Option<string>)
    requires Inv(r) && May(r, Prepare(attempt)) && DoPrepare(r, attempt).Ok?
    ensures ReferencesOk(DoPrepare(r, attempt).value)
  {
    hide Immutable, ResultsHaveJob;
    var t := DoPrepare(r, attempt).value;
    PreparingKeeps(r.preparations, r.round, r.prepared, attempt);
    if ReferencesFixed(r) {
      EffectiveIsFixed(r.preparations, t.preparations, r.round, r.intake.value.references);
      assert ReferencesFixed(t);
    } else {
      NoCallYet(r, t);
    }
    forall i: nat | i < |t.calls|
      ensures CallHasReferences(t, i)
    {
      assert CallHasReferences(r, i);
    }
  }

  lemma {:induction false} InvalidateKeepsReferences(r: Run)
    requires Inv(r) && May(r, Invalidate)
    ensures ReferencesOk(DoInvalidate(r))
  {
    var t := DoInvalidate(r);
    NoCallYet(r, t);
    DroppedByOperation(QwenCorrection);
    DroppedByOperation(GlmSelection);
    DroppedByOperation(Ata);
    forall k | k in t.checkpoints && k.1 in PAID_BELOW_JOB
      ensures JobKey(k.0) in t.checkpoints
    {
      assert k in r.checkpoints && k.0 != r.round;
    }
  }

  lemma {:induction false} SettleKeepsReferences(r: Run, id: string)
    requires Inv(r) && May(r, Settle(id)) && DoSettle(r, id).Ok?
    ensures ReferencesOk(DoSettle(r, id).value)
  {
    var t := DoSettle(r, id).value;
    assert ReferencesFixed(t);
    forall i: nat | i < |t.calls|
      ensures CallHasReferences(t, i)
    {
    }
  }

  /** No stage leads to the job input, so a retry always carries it over. */
  lemma {:induction false} JobIsCarried(r: Run)
    requires Core(r) && JobBound(r)
    ensures Carried(r, JobInput, "global") && JobKey(r.round + 1) in CarriedRows(r)
  {
    hide CallsOk, SuccessesKept, ProcessOk, Reaches;
    forall roots: set<Stage>
      ensures JobInput !in DescendantsOf(DOWNSTREAM, roots)
    {
      assert JobInput !in Targets(DOWNSTREAM);
    }
    assert JobKey(r.round) in CarriedKeys(r);
  }

  lemma {:induction false} CarriedComesFrom(r: Run, k: CheckpointKey)
    requires Core(r) && k in CarriedRows(r)
    ensures k.0 == r.round + 1 && (r.round, k.1, k.2) in r.checkpoints
  {
    var c :| c in CarriedKeys(r) && k == KeyIn(r.round + 1, c.1, c.2);
    assert RowOk(r.checkpoints, r.round, c);
  }

  lemma {:induction false} BeginRetryKeepsReferences(r: Run)
    requires Inv(r) && May(r, BeginRetry) && DoBeginRetry(r).Ok?
    ensures ReferencesOk(DoBeginRetry(r).value)
  {
    hide CarriedRows, AllReadable, Carried, CarriedKeys;
    var t := DoBeginRetry(r).value;
    forall i: nat | i < |t.calls|
      ensures CallHasReferences(t, i)
    {
      assert CallOk(r.calls, r.round, i);
    }
    forall k | k in t.checkpoints && k.1 in PAID_BELOW_JOB
      ensures JobKey(k.0) in t.checkpoints
    {
      if k in CarriedRows(r) {
        CarriedComesFrom(r, k);
        JobIsCarried(r);
      }
    }
  }

  /** A change of statuses and remote jobs, or of the process, leaves the references as they are. */
  lemma {:induction false} SameWorkKeepsReferences(r: Run, t: Run)
    requires ReferencesOk(r) && t.round == r.round && t.intake == r.intake && t.preparations == r.preparations
    requires t.checkpoints == r.checkpoints && |t.calls| == |r.calls|
    requires (t.executing && t.phase == r.phase && t.prepared == r.prepared) || (t.phase == Opening && t.prepared == 0)
    requires forall i: nat :: i < |r.calls| ==> Alike(r.calls[i], t.calls[i])
    ensures ReferencesOk(t)
  {
    hide PreparationsOk, ReferencesFixed, ResultsHaveJob;
    ReferencesStay(r, t);
  }

  lemma {:induction false} RecoveryKeepsReferences(r: Run)
    requires Inv(r) && May(r, Recover)
    ensures ReferencesOk(DoRecover(r))
  {
    hide Core, PreparationsOk, ResultsHaveJob;
    SameWorkKeepsReferences(r, DoRecover(r));
  }

  /** An event of one call changes that call, and adds at most its own checkpoint. */
  ghost predicate OnlyCalls(r: Run, t: Run) {
    && t.preparations == r.preparations && t.intake == r.intake && t.round == r.round && |t.calls| == |r.calls|
    && t.executing == r.executing && t.phase == r.phase && t.prepared == r.prepared
    && (forall i: nat :: i < |r.calls| ==> Alike(r.calls[i], t.calls[i]))
    && (forall k :: k in r.checkpoints ==>
          k in t.checkpoints && (k.1 == JobInput ==> t.checkpoints[k] == r.checkpoints[k]))
  }

  lemma {:induction false} FailTouchesCalls(r: Run, i: nat, failure: Failure)
    requires i < |r.calls|
    ensures OnlyCalls(r, DoFail(r, i, failure)) && DoFail(r, i, failure).checkpoints == r.checkpoints
  {
  }

  lemma {:induction false} SuccessTouchesCalls(r: Run, i: nat, id: string)
    requires i < |r.calls| && DoSucceed(r, i, id).Ok?
    ensures OnlyCalls(r, DoSucceed(r, i, id).value)
  {
  }

  lemma {:induction false} FailKeepsReferences(r: Run, i: nat, failure: Failure)
    requires Inv(r) && May(r, Fail(i, failure))
    ensures ReferencesOk(DoFail(r, i, failure))
  {
    hide CallsOk, RowsOk, SuccessesKept, ReferencesOk, DoFail;
    FailTouchesCalls(r, i, failure);
    assert r.executing;
    SameWorkKeepsReferences(r, DoFail(r, i, failure));
  }

  /** Events of one call, and the ends of a process. */
  lemma {:induction false} OthersKeepReferences(r: Run, e: Event)
    requires Inv(r) && May(r, e) && Apply(r, e).Ok?
    requires e.Begin? || e.Send? || e.RemoteJob? || e.RequestCancel? || e.End? || e.Crash?
    ensures ReferencesOk(Apply(r, e).value)
  {
    hide CallsOk, RowsOk, SuccessesKept, PreparationsOk, ResultsHaveJob, Quiet, JobIsEffective, KeyIsNew;
    SameWorkKeepsReferences(r, Apply(r, e).value);
  }

  lemma {:induction false} StepKeepsReferences(r: Run, e: Event)
    requires Inv(r)
    ensures ReferencesOk(After(r, e))
  {
    hide Core, ReferencesOk, May;
    if May(r, e) && Apply(r, e).Ok? {
      match e
      case TakeIn(references, jobId) => TakeInKeepsReferences(r, references, jobId);
      case BindJob => BindJobKeepsReferences(r);
      case Prepare(attempt) => PrepareKeepsReferences(r, attempt);
      case Invalidate => InvalidateKeepsReferences(r);
      case Settle(id) => SettleKeepsReferences(r, id);
      case Start(op, scope, explicit, identity, drawn) => StartKeepsReferences(r, op, scope, explicit, identity, drawn);
      case Resubmit(identity) => ResubmitKeepsReferences(r, identity);
      case Succeed(i, id) => SucceedKeepsReferences(r, i, id);
      case Bind(stage, scope, id) => BindKeepsReferences(r, stage, scope, id);
      case BeginRetry => BeginRetryKeepsReferences(r);
      case Recover => RecoveryKeepsReferences(r);
      case Fail(i, failure) => FailKeepsReferences(r, i, failure);
      case _ => OthersKeepReferences(r, e);
    }
  }

  lemma {:induction false} TakeInKeepsReferences(r: Run, references: nat, jobId: string)
    requires Inv(r) && May(r, TakeIn(references, jobId)) && r.intake.None?
    ensures ReferencesOk(r.(intake := Some(Intake(references, jobId))))
  {
    NoCallYet(r, r.(intake := Some(Intake(references, jobId))));
  }

  /** Every event keeps the invariant, and no settled call changes its outcome. */
  lemma {:induction false} StepKeeps(r: Run, e: Event)
    requires Inv(r)
    ensures Inv(After(r, e)) && Settles(r, After(r, e))
  {
    StepKeepsCore(r, e);
    StepKeepsReferences(r, e);
  }
}
