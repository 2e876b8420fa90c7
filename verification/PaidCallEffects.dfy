/**
 * What each event on the paid calls of a Run does and when it is refused, told by the calls and the checkpoints
 * (src/cueflow/run_runtime.py, src/cueflow/registry.py, src/cueflow/lifecycle.py).
 */
module PaidCallEffects {
  import opened Outcomes
  import opened Lifecycle
  import opened ReferencePreparation
  import opened PaidCalls
  import opened PaidCallLaws
  import opened PaidCallRuns

  // ----- which call a new one retries -----

  /** The last call for this work in this round. */
  ghost predicate LastCall(r: Run, op: Operation, scope: Scope, i: nat) {
    && i < |r.calls| && r.calls[i].operation == op && r.calls[i].scope == scope && r.calls[i].round == r.round
    && forall j: nat :: i < j < |r.calls| && r.calls[j].operation == op && r.calls[j].scope == scope ==>
                        r.calls[j].round != r.round
  }

  /** A remote job that may still be running. */
  ghost predicate Lingers(c: Invocation) {
    c.remoteJob && c.status == DeliveryAmbiguous
  }

  /** The last lingering remote job of the operation, of any round. */
  ghost predicate LastJob(r: Run, op: Operation, i: nat) {
    && i < |r.calls| && r.calls[i].operation == op && Lingers(r.calls[i])
    && forall j: nat :: i < j < |r.calls| && r.calls[j].operation == op ==> !Lingers(r.calls[j])
  }

  /** What a first call of its round takes over: the last lingering job of a transcription or alignment, if the same. */
  ghost predicate TakenOver(r: Run, op: Operation, identity: Identity, target: Option<nat>) {
    match target
    case Some(i) => (op == QwenAsr || op == DoubaoAsr || op == Ata) && LastJob(r, op, i)
                    && r.calls[i].identity.inputs == identity.inputs
    case None => op == QwenAsr || op == DoubaoAsr || op == Ata ==>
                   forall i: nat :: LastJob(r, op, i) ==> r.calls[i].identity.inputs != identity.inputs
  }

  /** One created call more, which the process waits for. */
  ghost predicate Adds(r: Run, t: Run, c: Invocation) {
    && t.calls == r.calls + [c] && t.inflight == r.inflight + {|r.calls|} && c.status == Created && !c.remoteJob
    && t.checkpoints == r.checkpoints && t.preparations == r.preparations && t.intake == r.intake
    && t.round == r.round && t.status == r.status && t.cancelled == r.cancelled
  }

  /** Unless the round is cancelled or the request is another one, a call with the key of what it retries is added. */
  ghost predicate Submits(
    r: Run, result: Result<Run>, op: Operation, scope: Scope, identity: Identity, target: Option<nat>, drawn: string)
  {
    if r.cancelled then result == Err(CancelledError)
    else
      match target
      case None =>
        result.Ok? && Adds(r, result.value, Invocation(op, scope, r.round, Created, identity, drawn, None, false))
      case Some(i) =>
        && i < |r.calls|
        && if r.calls[i].identity != identity then result == Err(IntegrityError)
           else result.Ok? && Adds(r, result.value, Invocation(op, scope, r.round, Created, identity,
                                                                r.calls[i].idempotencyKey, Some(i), false))
  }

  /** A call `i` of this round is retried when it has failed and is named, or when it lingers. */
  ghost predicate Retries(r: Run, e: Event, i: nat, result: Result<Run>)
    requires e.Start? && i < |r.calls|
  {
    if e.explicit != Some(i) && !Lingers(r.calls[i]) then result == Err(ProviderError)
    else if r.calls[i].status.Open() then result == Err(ContractError)
    else Submits(r, result, e.op, e.scope, e.identity, Some(i), e.drawn)
  }

  /** A result is not bought twice, a failed call is not repeated silently, and a lingering job is taken over. */
  ghost predicate Starts(r: Run, e: Event, result: Result<Run>)
    requires e.Start?
  {
    if KeyIn(r.round, StageOf(e.op), e.scope) in r.checkpoints then result == Ok(r)
    else if i: nat :| LastCall(r, e.op, e.scope, i) then Retries(r, e, i, result)
    else exists target :: TakenOver(r, e.op, e.identity, target)
                          && Submits(r, result, e.op, e.scope, e.identity, target, e.drawn)
  }

  lemma {:induction false} LatestIsLast(r: Run, op: Operation, scope: Scope)
    ensures match Latest(r.calls, op, scope, r.round)
            case Some(i) => LastCall(r, op, scope, i) && forall j: nat :: LastCall(r, op, scope, j) ==> j == i
            case None => forall j: nat :: !LastCall(r, op, scope, j)
  {
    var latest := Latest(r.calls, op, scope, r.round);
    if latest.Some? {
      forall j: nat | latest.value < j < |r.calls| && r.calls[j].operation == op && r.calls[j].scope == scope
        ensures r.calls[j].round != r.round
      {
        assert !IsCall(r.calls[j], op, scope, r.round);
      }
      forall j: nat | LastCall(r, op, scope, j)
        ensures j == latest.value
      {
        assert IsCall(r.calls[j], op, scope, r.round);
      }
    } else {
      forall j: nat
        ensures !LastCall(r, op, scope, j)
      {
        assert j < |r.calls| ==> !IsCall(r.calls[j], op, scope, r.round);
      }
    }
  }

  lemma {:induction false} AdoptedIsTakenOver(r: Run, op: Operation, identity: Identity)
    ensures TakenOver(r, op, identity, RetryTarget(r, op, identity, None))
  {
    forall i: nat
      ensures LastJob(r, op, i) <==> LastAdoptable(r.calls, op, i)
    {
      assert forall j: nat {:trigger r.calls[j]} :: j < |r.calls| ==>
               (Adoptable(r.calls[j], op) <==> r.calls[j].operation == op && Lingers(r.calls[j]));
    }
  }

  lemma {:induction false} NewCallSubmits(
    r: Run, op: Operation, scope: Scope, identity: Identity, retry: Option<nat>, drawn: string)
    requires retry.Some? ==> retry.value < |r.calls|
    ensures Submits(r, NewInvocation(r, op, scope, identity, retry, drawn), op, scope, identity,
                    RetryTarget(r, op, identity, retry), drawn)
  {
  }

  lemma {:induction false} NotStranded(r: Run, op: Operation, scope: Scope)
    requires Inv(r) && KeyIn(r.round, StageOf(op), scope) !in r.checkpoints
    requires Latest(r.calls, op, scope, r.round).Some?
    ensures r.calls[Latest(r.calls, op, scope, r.round).value].status != Succeeded
  {
    assert SuccessKept(r, Latest(r.calls, op, scope, r.round).value);
  }

  lemma {:induction false} StartAnswers(r: Run, e: Event)
    requires Inv(r) && e.Start? && May(r, e)
    ensures Starts(r, e, Apply(r, e))
  {
    hide Inv, Latest, LastCall, NewInvocation, Adopted, Submits, TakenOver, Get, May;
    var latest := Latest(r.calls, e.op, e.scope, r.round);
    GetIsSound(r, StageOf(e.op), e.scope);
    LatestIsLast(r, e.op, e.scope);
    if KeyIn(r.round, StageOf(e.op), e.scope) in r.checkpoints {
    } else if latest.Some? {
      NotStranded(r, e.op, e.scope);
      NewCallSubmits(r, e.op, e.scope, e.identity, latest, e.drawn);
    } else {
      AdoptedIsTakenOver(r, e.op, e.identity);
      NewCallSubmits(r, e.op, e.scope, e.identity, None, e.drawn);
    }
  }

  /** What starting a stage does in every reachable state. */
  lemma {:induction false} StartIsAnswered(events: seq<Event>, e: Event)
    requires e.Start? && May(RunAll(events), e)
    ensures Starts(RunAll(events), e, Apply(RunAll(events), e))
  {
    RunsAreSound(events);
    StartAnswers(RunAll(events), e);
  }

  /**
   * A start that adds a call although the round has one for this work: the last one has failed, the new call retries
   * it, and it was named, or it is a remote job that may still be running.
   */
  lemma {:induction false} NoSilentRetry(events: seq<Event>, e: Event, j: nat)
    requires e.Start? && |After(RunAll(events), e).calls| > |RunAll(events).calls|
    requires var r := RunAll(events);
             && j < |r.calls| && r.calls[j].operation == e.op && r.calls[j].scope == e.scope
             && r.calls[j].round == r.round
    ensures var r, t := RunAll(events), After(RunAll(events), e);
            exists i: nat :: && LastCall(r, e.op, e.scope, i) && r.calls[i].status.Failed()
                             && t.calls[|r.calls|].retryOf == Some(i) && (e.explicit == Some(i) || Lingers(r.calls[i]))
  {
    hide RunFrom, May, Apply, Latest, Inv;
    var r := RunAll(events);
    RunsAreSound(events);
    StartIsAnswered(events, e);
    LatestIsLast(r, e.op, e.scope);
    var latest := Latest(r.calls, e.op, e.scope, r.round);
    assert latest.None? ==> !IsCall(r.calls[j], e.op, e.scope, r.round);
    if KeyIn(r.round, StageOf(e.op), e.scope) !in r.checkpoints {
      NotStranded(r, e.op, e.scope);
    }
  }

  /** Without a named call, a failed one that does not linger is not repeated. */
  lemma {:induction false} PlainResumeIsRefused(events: seq<Event>, e: Event, i: nat)
    requires e.Start? && May(RunAll(events), e) && e.explicit.None?
    requires LastCall(RunAll(events), e.op, e.scope, i) && !Lingers(RunAll(events).calls[i])
    ensures After(RunAll(events), e) == RunAll(events)
    ensures var r := RunAll(events);
            Apply(r, e) == if KeyIn(r.round, StageOf(e.op), e.scope) in r.checkpoints then Ok(r) else Err(ProviderError)
  {
    hide RunFrom, May, Apply, Latest;
    StartIsAnswered(events, e);
    LatestIsLast(RunAll(events), e.op, e.scope);
  }

  // ----- the second attempt -----

  /** A response that could not be used is asked for once more: the same call, with its key. */
  lemma {:induction false} ResubmitAnswers(events: seq<Event>, identity: Identity)
    requires May(RunAll(events), Resubmit(identity))
    ensures var r := RunAll(events);
            var i, result := r.again.value, Apply(r, Resubmit(identity));
            && LastCall(r, r.calls[i].operation, r.calls[i].scope, i) && r.calls[i].status == ExplicitFailure
            && Submits(r, result, r.calls[i].operation, r.calls[i].scope, identity, Some(i), "")
            && (result.Ok? ==> result.value.again.None? && |r.calls| in result.value.second)
  {
    hide RunFrom, Latest, LastCall, CallsOk, RowsOk, SuccessesKept, ReferencesOk;
    RunsAreSound(events);
    var r := RunAll(events);
    var c := r.calls[r.again.value];
    LatestIsLast(r, c.operation, c.scope);
  }

  // ----- the outcome of a call -----

  /** Only this call changes, and only its status. */
  ghost predicate Becomes(r: Run, t: Run, i: nat, status: Status)
    requires i < |r.calls|
  {
    && |t.calls| == |r.calls| && t.calls[i] == r.calls[i].(status := status)
    && (forall j: nat :: j < |r.calls| && j != i ==> t.calls[j] == r.calls[j])
    && t.round == r.round && t.preparations == r.preparations && t.intake == r.intake && t.status == r.status
  }

  /** The provider was not reached, has answered, or may have received the request. */
  lemma {:induction false} FailureIsRecorded(events: seq<Event>, i: nat, failure: Failure)
    requires May(RunAll(events), Fail(i, failure))
    ensures var r, t := RunAll(events), After(RunAll(events), Fail(i, failure));
            && i < |r.calls| && i !in t.inflight && t.checkpoints == r.checkpoints
            && Becomes(r, t, i, if failure.Unavailable? then DefinitelyNotSent
                                else if failure.Ambiguous? || failure.Other? then DeliveryAmbiguous
                                else ExplicitFailure)
  {
    RunsAreSound(events);
    assert Flies(RunAll(events), i);
  }

  /** A first unusable response of a correction or a selection is asked for once more, and no other failure is. */
  lemma {:induction false} OneSecondAttempt(events: seq<Event>, i: nat, failure: Failure)
    requires May(RunAll(events), Fail(i, failure))
    ensures var r, t := RunAll(events), After(RunAll(events), Fail(i, failure));
            var op := r.calls[i].operation;
            if failure == CompletedResponse && i !in r.second
               && (op == QwenCorrection || op == KimiCorrection || op == GlmSelection)
            then t.again == Some(i) else t.again == r.again
  {
    RunsAreSound(events);
    assert Flies(RunAll(events), i);
  }

  /** A response to a call that was sent is its success; a call that was not sent cannot succeed. */
  lemma {:induction false} SuccessIsRecorded(events: seq<Event>, i: nat, id: string)
    requires May(RunAll(events), Succeed(i, id))
    ensures var r := RunAll(events);
            i < |r.calls| && if r.calls[i].status == Created then Apply(r, Succeed(i, id)) == Err(IntegrityError)
                             else Apply(r, Succeed(i, id)).Ok? && Becomes(r, After(r, Succeed(i, id)), i, Succeeded)
  {
    RunsAreSound(events);
    assert Flies(RunAll(events), i);
  }

  /** A call is sent once, from `created`. */
  lemma {:induction false} SendIsRecorded(r: Run, i: nat)
    requires May(r, Send(i))
    ensures r.calls[i].status == Created && Becomes(r, After(r, Send(i)), i, Sending)
  {
  }

  /** A lost process leaves no call open: what was sent may have been delivered, what was not sent was not. */
  lemma {:induction false} RecoverySettles(r: Run)
    requires May(r, Recover)
    ensures var t := After(r, Recover);
            && |t.calls| == |r.calls|
            && (r.status == Running ==>
                  t.status == Interrupted && forall i: nat :: i < |r.calls| ==>
                    t.calls[i] == if r.calls[i].status == Created then r.calls[i].(status := DefinitelyNotSent)
                                  else if r.calls[i].status == Sending then r.calls[i].(status := DeliveryAmbiguous)
                                  else r.calls[i])
            && (r.status != Running ==> t == r)
            && t.checkpoints == r.checkpoints && t.preparations == r.preparations && t.round == r.round
  {
  }

  // ----- cancellation, references, rounds -----

  /** A cancellation is too late exactly when the round has ended. */
  lemma {:induction false} CancelIsRecorded(r: Run)
    ensures var t := After(r, RequestCancel);
            && (t.cancelled <==> r.cancelled || r.status in {Queued, Running, NeedsReview})
            && t == r.(cancelled := t.cancelled)
  {
  }

  /** Exactly the job input of this round and everything below it is dropped. */
  lemma {:induction false} InvalidationDrops(events: seq<Event>, k: CheckpointKey)
    requires May(RunAll(events), Invalidate)
    ensures var r, t := RunAll(events), After(RunAll(events), Invalidate);
            && (k in t.checkpoints <==>
                  k in r.checkpoints
                  && !(k.0 == r.round && (k.1 == JobInput || Reaches(DOWNSTREAM, {JobInput}, k.1))))
            && (k in t.checkpoints ==> t.checkpoints[k] == r.checkpoints[k]) && t.calls == r.calls
  {
    hide RunFrom, Inv;
    DescendantsAreReached(DOWNSTREAM, {JobInput});
    JobInputReachesNoSharedStage();
  }

  /** After the references are settled, the job input of the round holds exactly those prepared for it. */
  lemma {:induction false} SettlingBinds(events: seq<Event>, id: string)
    requires May(RunAll(events), Settle(id))
    ensures var r, t := RunAll(events), After(RunAll(events), Settle(id));
            && t.phase == Correcting && JobKey(r.round) in t.checkpoints
            && t.checkpoints[JobKey(r.round)].artifact.references == EffectiveReferences(r)
            && (forall k :: k in r.checkpoints ==> k in t.checkpoints && t.checkpoints[k] == r.checkpoints[k])
            && (r.phase == Rebinding ==> t.checkpoints[JobKey(r.round)].artifact.id == id)
            && (r.phase == Opening ==> t.checkpoints == r.checkpoints)
  {
    hide RunFrom, Core, Effective;
    RunsAreSound(events);
  }

  /** A retry is refused before intake and while the round goes on; otherwise a new round is queued. */
  lemma {:induction false} RetryIsAnswered(events: seq<Event>)
    ensures var r, result := RunAll(events), DoBeginRetry(RunAll(events));
            if r.intake.None? || r.status in {Queued, Running} then result == Err(ContractError)
            else result.Ok? && result.value.round == r.round + 1 && result.value.status == Queued
                 && !result.value.cancelled && result.value.preparations == r.preparations
  {
    hide RunFrom, AllReadable, CarriedRows, Inv;
    RunsAreSound(events);
    AlwaysReadable(RunAll(events));
  }

  /** A reference is prepared in its turn, unless the round is cancelled. */
  lemma {:induction false} PrepareIsRecorded(events: seq<Event>, attempt: Option<string>)
    requires May(RunAll(events), Prepare(attempt))
    ensures var r, result := RunAll(events), Apply(RunAll(events), Prepare(attempt));
            && (r.cancelled ==> result == Err(CancelledError))
            && (!r.cancelled ==>
                  && result.Ok? && result.value.prepared == r.prepared + 1
                  && Extends(r.preparations, result.value.preparations)
                  && (r.round, r.prepared) in result.value.preparations
                  && result.value.calls == r.calls && result.value.checkpoints == r.checkpoints)
  {
    hide RunFrom, Core;
    RunsAreSound(events);
    var r := RunAll(events);
    PreparingKeeps(r.preparations, r.round, r.prepared, attempt);
  }

  /** A loss of the process loses no row: only what the process itself knew. */
  lemma {:induction false} CrashLosesNothing(r: Run)
    requires May(r, Crash)
    ensures var t := After(r, Crash);
            && t.calls == r.calls && t.checkpoints == r.checkpoints && t.preparations == r.preparations
            && t.round == r.round && t.status == r.status && t.cancelled == r.cancelled && t.intake == r.intake
            && !t.executing && t.inflight == {} && t.again.None?
  {
  }

  /** A published artifact becomes the checkpoint of its kind and scope, and changes no other. */
  lemma {:induction false} BindingWrites(events: seq<Event>, stage: Stage, scope: Scope, id: string, k: CheckpointKey)
    requires May(RunAll(events), Bind(stage, scope, id))
    ensures var r, t := RunAll(events), After(RunAll(events), Bind(stage, scope, id));
            var written := if stage in SHARED_STAGES then (0, stage, scope) else (r.round, stage, scope);
            && written in t.checkpoints && t.checkpoints[written].artifact == Artifact(stage, scope, id, [])
            && (k != written ==> (k in t.checkpoints <==> k in r.checkpoints)
                                 && (k in r.checkpoints ==> t.checkpoints[k] == r.checkpoints[k]))
  {
    hide RunFrom, CallsOk, SuccessesKept, ReferencesOk;
    RunsAreSound(events);
    var r := RunAll(events);
    var key := KeyIn(r.round, stage, scope);
    assert key in r.checkpoints ==> RowOk(r.checkpoints, r.round, key);
  }
}
