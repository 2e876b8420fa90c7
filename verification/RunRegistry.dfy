/** The tables of one Run and the process that works on it, updated in place. */
module RunRegistry {
  import opened Outcomes
  import opened Lifecycle
  import opened ReferencePreparation
  import opened PaidCalls
  import opened PaidCallLaws
  import PaidCallRuns

  /** The failures of begin_retry: for each operation key, the last invocation of the round. */
  ghost predicate Tabulates(calls: seq<Invocation>, round: nat, latest: map<(Operation, Scope), nat>) {
    forall op: Operation, scope: Scope {:trigger Latest(calls, op, scope, round)} ::
      Latest(calls, op, scope, round) == if (op, scope) in latest then Some(latest[(op, scope)]) else None
  }

  lemma {:induction false} TableGrows(calls: seq<Invocation>, n: nat, round: nat, latest: map<(Operation, Scope), nat>)
    requires n < |calls| && Tabulates(calls[..n], round, latest)
    ensures Tabulates(calls[..n + 1], round,
                      if calls[n].round == round then latest[(calls[n].operation, calls[n].scope) := n] else latest)
  {
    assert calls[..n + 1][..n] == calls[..n];
    forall op, scope
      ensures Latest(calls[..n + 1], op, scope, round)
           == if IsCall(calls[n], op, scope, round) then Some(n) else Latest(calls[..n], op, scope, round)
    {
    }
  }

  lemma {:induction false} TableListsFailures(r: Run, latest: map<(Operation, Scope), nat>)
    requires Tabulates(r.calls, r.round, latest)
    ensures forall k :: k in latest ==> latest[k] < |r.calls| && IsCall(r.calls[latest[k]], k.0, k.1, r.round)
    ensures Failures(r) == set k | k in latest && r.calls[latest[k]].status != Succeeded :: latest[k]
  {
    forall k | k in latest
      ensures latest[k] < |r.calls| && IsCall(r.calls[latest[k]], k.0, k.1, r.round)
      ensures Latest(r.calls, k.0, k.1, r.round) == Some(latest[k])
    {
      assert Latest(r.calls, k.0, k.1, r.round) == Some(latest[(k.0, k.1)]);
    }
    forall i | i in Failures(r)
      ensures (r.calls[i].operation, r.calls[i].scope) in latest
      ensures latest[(r.calls[i].operation, r.calls[i].scope)] == i
    {
      assert Latest(r.calls, r.calls[i].operation, r.calls[i].scope, r.round) == Some(i);
    }
  }

  lemma {:induction false} LatestOnePast(calls: seq<Invocation>, n: nat, op: Operation, scope: Scope, round: nat)
    requires n < |calls|
    ensures Latest(calls[..n + 1], op, scope, round)
         == if IsCall(calls[n], op, scope, round) then Some(n) else Latest(calls[..n], op, scope, round)
  {
    assert calls[..n + 1][..n] == calls[..n];
  }

  /** The new rows, once all old rows but `prior` have been looked at. */
  ghost predicate CarriedSoFar(r: Run, prior: set<CheckpointKey>, carried: map<CheckpointKey, Row>) {
    && (forall k :: k in carried <==>
          k.0 == r.round + 1 && (r.round, k.1, k.2) !in prior && Carried(r, k.1, k.2))
    && (forall k :: k in carried ==>
          carried[k] == Row(DigestIn(r.round + 1, k.1, k.2), r.checkpoints[(r.round, k.1, k.2)].artifact))
  }

  lemma {:induction false} CarryStarts(r: Run)
    ensures CarriedSoFar(r, set k | k in r.checkpoints && k.0 == r.round, map[])
  {
  }

  lemma {:induction false} CarryStep(
    r: Run, prior: set<CheckpointKey>, k: CheckpointKey, carried: map<CheckpointKey, Row>)
    requires RowsOk(r.checkpoints, r.round) && k in prior && k in r.checkpoints && k.0 == r.round
    requires CarriedSoFar(r, prior, carried)
    ensures CarriedSoFar(r, prior - {k},
              if Carried(r, k.1, k.2)
              then carried[KeyIn(r.round + 1, k.1, k.2) :=
                  Row(DigestIn(r.round + 1, k.1, k.2), r.checkpoints[k].artifact)]
              else carried)
  {
    assert RowOk(r.checkpoints, r.round, k);
    assert k == (r.round, k.1, k.2);
  }

  lemma {:induction false} AllCarried(r: Run, carried: map<CheckpointKey, Row>)
    requires Inv(r) && CarriedSoFar(r, {}, carried)
    ensures carried == CarriedRows(r)
  {
    hide Inv, Carried;
    forall k
      ensures k in carried <==> k in CarriedRows(r)
    {
      PaidCallRuns.CarriedRowsAreKeys(r, k.1, k.2);
      assert k.0 == r.round + 1 ==> k == (r.round + 1, k.1, k.2);
    }
  }

  lemma {:induction false} WithoutNothing(checkpoints: map<CheckpointKey, Row>, round: nat)
    ensures Without(checkpoints, round, {}) == checkpoints
  {
  }

  lemma {:induction false} WithoutOneMore(
    checkpoints: map<CheckpointKey, Row>, round: nat, dropped: set<Stage>, stage: Stage)
    ensures Without(Without(checkpoints, round, dropped), round, {stage}) ==
        Without(checkpoints, round, dropped + {stage})
  {
  }

  lemma {:induction false} JobIsDropped(checkpoints: map<CheckpointKey, Row>, round: nat)
    ensures JobKey(round) !in Without(checkpoints, round, Dropped())
  {
  }

  lemma {:induction false} TurnsAllowed(r: Run)
    requires Inv(r)
    ensures Immutable(r.preparations) && UpTo(r.preparations, r.round)
  {
  }

  class Registry {
    var status: RunStatus
    var round: nat
    var cancelled: bool
    var intake: Option<Intake>
    var preparations: Preparations
    var calls: seq<Invocation>
    var checkpoints: map<CheckpointKey, Row>
    var executing: bool
    var phase: Phase
    var prepared: nat
    var inflight: set<nat>
    var again: Option<nat>
    var second: set<nat>

    ghost function View(): Run
      reads this
    {
      Run(status, round, cancelled, intake, preparations, calls, checkpoints,
          executing, phase, prepared, inflight, again, second)
    }

    constructor ()
      ensures View() == FRESH
    {
      status, round, cancelled, intake, preparations, calls, checkpoints := Queued, 1, false, None, map[], [], map[];
      executing, phase, prepared, inflight, again, second := false, Opening, 0, {}, None, {};
    }

    // ----- reading -----

    method Checkpoint(stage: Stage, scope: Scope) returns (r: Result<Option<Artifact>>)
      ensures r == Get(View(), stage, scope)
    {
      var key := KeyIn(round, stage, scope);
      if key !in checkpoints {
        return Ok(None);
      }
      var row := checkpoints[key];
      if row.digest != DigestIn(round, stage, scope) || row.artifact.kind != stage || row.artifact.scope != scope {
        return Err(IntegrityError);
      }
      return Ok(Some(row.artifact));
    }

    /** _retry_identity: filters the invocations of the key and round, and judges the last one. */
    method RetryIdentityOf(op: Operation, scope: Scope, explicit: Option<nat>) returns (r: Result<Option<nat>>)
      ensures r == RetryIdentity(View(), op, scope, explicit)
    {
      var rows: seq<nat> := [];
      var n := 0;
      while n < |calls|
        invariant 0 <= n <= |calls|
        invariant forall i :: 0 <= i < |rows| ==> rows[i] < n
        invariant Latest(calls[..n], op, scope, round) == if rows == [] then None else Some(rows[|rows| - 1])
      {
        LatestOnePast(calls, n, op, scope, round);
        if IsCall(calls[n], op, scope, round) {
          rows := rows + [n];
        }
        n := n + 1;
      }
      assert calls[..n] == calls;
      if rows == [] {
        return Ok(None);
      }
      var latest := rows[|rows| - 1];
      if calls[latest].status == Succeeded {
        return Err(IntegrityError);
      }
      var resumable := calls[latest].remoteJob && calls[latest].status == DeliveryAmbiguous;
      if Some(latest) != explicit && !resumable {
        return Err(ProviderError);
      }
      if !calls[latest].status.Failed() {
        return Err(ContractError);
      }
      return Ok(Some(latest));
    }

    /** `for candidate in reversed(candidates)`: the last ambiguous remote job decides. */
    method Adopt(op: Operation, inputs: seq<(string, string)>) returns (r: Option<nat>)
      ensures r == Adopted(calls, op, inputs)
    {
      var n := |calls|;
      assert calls[..n] == calls;
      while n > 0
        invariant 0 <= n <= |calls|
        invariant Adopted(calls, op, inputs) == Adopted(calls[..n], op, inputs)
      {
        assert calls[..n][..n - 1] == calls[..n - 1];
        n := n - 1;
        if Adoptable(calls[n], op) {
          return if calls[n].identity.inputs == inputs then Some(n) else None;
        }
      }
      return None;
    }

    // ----- calls -----

    /** _new_invocation without its last statement, which is Send. */
    method CreateInvocation(op: Operation, scope: Scope, identity: Identity, retry: Option<nat>, drawn: string)
      returns (r: Result<nat>)
      requires retry.Some? ==> retry.value < |calls|
      modifies this`calls, this`inflight
      ensures match NewInvocation(old(View()), op, scope, identity, retry, drawn)
              case Ok(after) => r == Ok(|old(calls)|) && View() == after
              case Err(e) => r == Err(e) && View() == old(View())
    {
      if cancelled {
        return Err(CancelledError);
      }
      var retryOf, key := retry, drawn;
      if retry.None? && TakesOver(op) {
        retryOf := Adopt(op, identity.inputs);
      }
      if retryOf.Some? {
        var original := calls[retryOf.value];
        if original.identity != identity {
          return Err(IntegrityError);
        }
        key := original.idempotencyKey;
      }
      var id := |calls|;
      calls := calls + [Invocation(op, scope, round, Created, identity, key, retryOf, false)];
      inflight := inflight + {id};
      return Ok(id);
    }

    /** _stage: the checkpoint when there is one, otherwise a new call. */
    method StartStage(op: Operation, scope: Scope, explicit: Option<nat>, identity: Identity, drawn: string)
      returns (r: Result<()>)
      modifies this`calls, this`inflight
      ensures match DoStart(old(View()), op, scope, explicit, identity, drawn)
              case Ok(after) => r == Ok(()) && View() == after
              case Err(e) => r == Err(e) && View() == old(View())
    {
      var complete := Checkpoint(StageOf(op), scope);
      if complete.Err? {
        return Err(complete.error);
      }
      if complete.value.Some? {
        return Ok(());
      }
      var retry := RetryIdentityOf(op, scope, explicit);
      if retry.Err? {
        return Err(retry.error);
      }
      var made := CreateInvocation(op, scope, identity, retry.value, drawn);
      return if made.Ok? then Ok(()) else Err(made.error);
    }

    method Send(i: nat)
      requires May(View(), Event.Send(i))
      modifies this`calls
      ensures View() == WithStatus(old(View()), i, Sending)
    {
      calls := calls[i := calls[i].(status := Sending)];
    }

    method RecordInvocationFailure(i: nat, failure: Failure)
      requires May(View(), Fail(i, failure))
      modifies this`calls, this`inflight, this`again
      ensures View() == DoFail(old(View()), i, failure)
    {
      hide KeyIsNew, NeedsReferences, JobBound, JobIsEffective, Quiet;
      inflight := inflight - {i};
      if calls[i].status == Succeeded {
        return;
      }
      var outcome := DeliveryAmbiguous;
      if failure == Unavailable {
        outcome := DefinitelyNotSent;
      } else if failure == Provider || failure == CompletedResponse || failure == Contract {
        outcome := ExplicitFailure;
      }
      calls := calls[i := calls[i].(status := outcome)];
      if failure == CompletedResponse && i !in second && Resubmits(calls[i].operation) {
        again := Some(i);
      }
    }

    /** The second attempt of a correction arm or a selection batch. */
    method SubmitAgain(identity: Identity) returns (r: Result<()>)
      requires May(View(), Resubmit(identity))
      modifies this`calls, this`inflight, this`again, this`second
      ensures match DoResubmit(old(View()), identity)
              case Ok(after) => r == Ok(()) && View() == after
              case Err(e) => r == Err(e) && View() == old(View())
    {
      var i, ids := again.value, |calls|;
      var secondBefore := second;
      again, second := None, second + {ids};
      var made := CreateInvocation(calls[i].operation, calls[i].scope, identity, Some(i), "");
      if made.Err? {
        again, second := Some(i), secondBefore;
        return Err(made.error);
      }
      return Ok(());
    }

    /** _succeed_with_metadata: publish_artifact commits the checkpoint and the success together, or neither. */
    method SucceedWithMetadata(i: nat, id: string) returns (r: Result<()>)
      requires May(View(), Succeed(i, id))
      modifies this`calls, this`checkpoints, this`inflight
      ensures match DoSucceed(old(View()), i, id)
              case Ok(after) => r == Ok(()) && View() == after
              case Err(e) => r == Err(e) && View() == old(View())
    {
      var stage, scope := StageOf(calls[i].operation), calls[i].scope;
      var key, digest := KeyIn(round, stage, scope), DigestIn(round, stage, scope);
      if key in checkpoints && checkpoints[key].digest != digest {
        return Err(IntegrityError);
      }
      if calls[i].status != Sending {
        return Err(IntegrityError);
      }
      checkpoints := checkpoints[key := Row(digest, Artifact(stage, scope, id, []))];
      calls := calls[i := calls[i].(status := Succeeded)];
      inflight := inflight - {i};
      return Ok(());
    }

    // ----- the Run -----

    method RecoverRunningSourceRuns()
      modifies this`calls, this`status
      ensures View() == DoRecover(old(View()))
    {
      if status != Running {
        return;
      }
      ghost var before := calls;
      var n := 0;
      while n < |calls|
        invariant 0 <= n <= |calls| == |before|
        invariant View() == old(View()).(calls := calls)
        invariant forall i :: 0 <= i < n ==> calls[i] == Recovered(before[i])
        invariant forall i :: n <= i < |calls| ==> calls[i] == before[i]
      {
        if calls[n].status == Created {
          calls := calls[n := calls[n].(status := DefinitelyNotSent)];
        } else if calls[n].status == Sending {
          calls := calls[n := calls[n].(status := DeliveryAmbiguous)];
        }
        n := n + 1;
      }
      status := Interrupted;
      assert calls == DoRecover(old(View())).calls;
    }

    /** Deletes the checkpoints stage by stage, each in its own round. */
    method DeleteCheckpoints(stages: set<Stage>)
      modifies this`checkpoints
      ensures checkpoints == Without(old(checkpoints), round, stages)
    {
      ghost var before := checkpoints;
      var rest := stages;
      WithoutNothing(checkpoints, round);
      while rest != {}
        invariant rest <= stages && checkpoints == Without(before, round, stages - rest)
        decreases rest
      {
        var stage :| stage in rest;
        WithoutOneMore(before, round, stages - rest, stage);
        assert stages - (rest - {stage}) == (stages - rest) + {stage};
        checkpoints := Without(checkpoints, round, {stage});
        rest := rest - {stage};
      }
    }

    /** invalidate(context, {"job_input"}) */
    method Invalidate()
      modifies this`checkpoints, this`phase
      ensures View() == DoInvalidate(old(View()))
    {
      var below := Descendants(DOWNSTREAM, {JobInput});
      DeleteCheckpoints({JobInput} + below);
      phase := Rebinding;
    }

    method BindArtifact(artifact: Artifact) returns (r: Result<()>)
      modifies this`checkpoints
      ensures match Bound(old(View()), artifact)
              case Ok(after) => r == Ok(()) && View() == after
              case Err(e) => r == Err(e) && View() == old(View())
    {
      var key, digest := KeyIn(round, artifact.kind, artifact.scope), DigestIn(round, artifact.kind, artifact.scope);
      if key in checkpoints && checkpoints[key].digest != digest {
        return Err(IntegrityError);
      }
      checkpoints := checkpoints[key := Row(digest, artifact)];
      return Ok(());
    }

    // ----- intake and references -----

    /** _initialize_inputs: the inputs of a Run are bound once, with a job input that has no references yet. */
    method InitializeInputs(references: nat, jobId: string) returns (r: Result<()>)
      requires Inv(View()) && !executing
      modifies this`intake, this`checkpoints
      ensures match Apply(old(View()), TakeIn(references, jobId))
              case Err(e) => r == Err(e) && View() == old(View())
              case Ok(taken) => r.Ok? && Bound(taken, Artifact(JobInput, "global", jobId, [])) == Ok(View())
    {
      if intake.Some? {
        return Err(ContractError);
      }
      ghost var before := View();
      intake := Some(Intake(references, jobId));
      assert JobKey(round) in checkpoints ==> RowOk(before.checkpoints, round, JobKey(round));
      r := BindArtifact(Artifact(JobInput, "global", jobId, []));
    }

    /** prepare_references where no request arrives in between; the events Prepare and RequestCancel interleave. */
    method PrepareAll(attempts: seq<Option<string>>) returns (r: Result<seq<Reference>>)
      requires intake.Some? && intake.value.references <= |attempts| && prepared == 0
      requires Immutable(preparations) && UpTo(preparations, round)
      modifies this`preparations, this`prepared
      ensures var n := intake.value.references;
        if cancelled && n > 0 then r == Err(CancelledError) && View() == old(View())
        else && r == Ok(EffectiveReferences(View()))
             && View() == old(View()).(preparations := PrepareFirst(old(preparations), round, n, attempts),
                                       prepared := n)
    {
      if cancelled && intake.value.references > 0 {
        return Err(CancelledError);
      }
      var rows, references := PrepareReferences(preparations, round, intake.value.references, attempts);
      preparations, prepared := rows, intake.value.references;
      return Ok(references);
    }

    /** The references of _execute: prepared, compared with the job input, and bound to it when they differ. */
    method SettleReferences(attempts: seq<Option<string>>, id: string) returns (r: Result<()>)
      requires Inv(View()) && Quiet(View()) && phase == Opening && prepared == 0
      requires intake.value.references <= |attempts|
      modifies this`preparations, this`prepared, this`checkpoints, this`phase
      ensures var n := intake.value.references;
        if cancelled && n > 0 then r == Err(CancelledError) && View() == old(View())
        else
          var ready := old(View()).(preparations := PrepareFirst(old(preparations), round, n, attempts), prepared := n);
          r == Ok(()) && Ok(View()) == DoSettle(if JobIsEffective(ready) then ready else DoInvalidate(ready), id)
      ensures r.Ok? ==> RoundPrepared(View()) && JobIsEffective(View())
    {
      hide Inv, Immutable, UpTo, Dropped, Without, PreparedFor, Effective;
      var job := checkpoints[JobKey(round)].artifact;
      TurnsAllowed(View());
      var references := PrepareAll(attempts);
      if references.Err? {
        return Err(references.error);
      }
      TurnsKeep(old(preparations), round, intake.value.references, attempts);
      if job.references != references.value {
        Invalidate();
        JobIsDropped(old(checkpoints), round);
        r := BindArtifact(Artifact(JobInput, "global", id, references.value));
      }
      phase := Correcting;
      return Ok(());
    }

    /** request_cancel: whether the request was in time. */
    method Cancel() returns (accepted: bool)
      modifies this`cancelled
      ensures View() == DoRequestCancel(old(View()))
      ensures accepted <==> Active(status) || status == NeedsReview
    {
      if status == RunSucceeded || status == RunFailed || status == Cancelled || status == Interrupted {
        return false;
      }
      cancelled := true;
      return true;
    }

    // ----- begin_retry -----

    method LatestFailures() returns (failures: set<nat>)
      ensures failures == Failures(View())
    {
      var latest: map<(Operation, Scope), nat> := map[];
      var n := 0;
      while n < |calls|
        invariant 0 <= n <= |calls|
        invariant Tabulates(calls[..n], round, latest)
      {
        TableGrows(calls, n, round, latest);
        if calls[n].round == round {
          latest := latest[(calls[n].operation, calls[n].scope) := n];
        }
        n := n + 1;
      }
      assert calls[..n] == calls;
      TableListsFailures(View(), latest);
      failures := set k | k in latest && calls[latest[k]].status != Succeeded :: latest[k];
    }

    method ExcludedStages(failures: set<nat>) returns (excluded: set<Stage>)
      requires failures == Failures(View())
      ensures excluded == Excluded(View())
    {
      var roots := set i | i in failures :: StageOf(calls[i].operation);
      assert roots == FailedStages(View());
      excluded := Descendants(DOWNSTREAM, roots);
      var failedReferences := exists k :: k in preparations && k.0 == round && preparations[k].None?;
      if failures == {} && !failedReferences && status == RunSucceeded {
        var below := Descendants(DOWNSTREAM, {CorrectionTranscript});
        excluded := excluded + ({CorrectionTranscript} + below);
      }
    }

    method KeysOf(failures: set<nat>) returns (failedKeys: set<(Stage, Scope)>)
      requires failures == Failures(View())
      ensures failedKeys == FailedKeys(View())
    {
      failedKeys := set i | i in failures :: (StageOf(calls[i].operation), calls[i].scope);
    }

    /** The checkpoints of the new round, one by one. */
    method CarryOver(excluded: set<Stage>, failedKeys: set<(Stage, Scope)>) returns (carried: map<CheckpointKey, Row>)
      requires Inv(View())
      requires excluded == Excluded(View()) && failedKeys == FailedKeys(View())
      ensures carried == CarriedRows(View())
    {
      hide CarriedSoFar, CarriedRows, Excluded, FailedKeys;
      ghost var r := View();
      carried := map[];
      var prior := set k | k in checkpoints && k.0 == round;
      CarryStarts(r);
      while prior != {}
        invariant prior <= checkpoints.Keys && forall k :: k in prior ==> k.0 == round
        invariant CarriedSoFar(r, prior, carried)
        decreases prior
      {
        var k :| k in prior;
        CarryStep(r, prior, k, carried);
        if k.1 !in excluded && (k.1, k.2) !in failedKeys {
          carried := carried[KeyIn(round + 1, k.1, k.2) := Row(DigestIn(round + 1, k.1, k.2), checkpoints[k].artifact)];
        }
        prior := prior - {k};
      }
      AllCarried(r, carried);
    }

    method PriorIsReadable() returns (ok: bool)
      ensures ok <==> AllReadable(View())
    {
      var prior := set k | k in checkpoints && k.0 == round;
      while prior != {}
        invariant forall k :: k in prior ==> k in checkpoints && k.0 == round
        invariant forall k :: k in checkpoints && k.0 == round && k !in prior ==> Get(View(), k.1, k.2).Ok?
        decreases prior
      {
        var k :| k in prior;
        var readable := Checkpoint(k.1, k.2);
        if readable.Err? {
          return false;
        }
        prior := prior - {k};
      }
      return true;
    }

    method BeginRetry() returns (e: Option<Error>)
      requires Inv(View())
      modifies this`round, this`status, this`cancelled, this`checkpoints
      ensures match DoBeginRetry(old(View()))
              case Ok(after) => e == None && View() == after
              case Err(error) => e == Some(error) && View() == old(View())
    {
      hide Inv, Excluded, FailedKeys, CarriedRows, AllReadable;
      if intake.None? || Active(status) {
        return Some(ContractError);
      }
      var readable := PriorIsReadable();
      if !readable {
        return Some(IntegrityError);
      }
      var failures := LatestFailures();
      var excluded := ExcludedStages(failures);
      var failedKeys := KeysOf(failures);
      var carried := CarryOver(excluded, failedKeys);
      round, status, cancelled := round + 1, Queued, false;
      checkpoints := checkpoints + carried;
      return None;
    }
  }
}
