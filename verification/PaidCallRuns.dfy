/** Safety of paid calls over every run with crashes, recoveries, retries, and new rounds. */
module PaidCallRuns {
  import opened Outcomes
  import opened Lifecycle
  import opened ReferencePreparation
  import opened PaidCalls
  import opened PaidCallLaws

  lemma {:induction false} RunsAreSound(events: seq<Event>)
    ensures Inv(RunAll(events))
    decreases |events|
  {
    if events == [] {
      FreshIsSound();
    } else {
      var n := |events| - 1;
      RunsAreSound(events[..n]);
      StepKeeps(RunAll(events[..n]), events[n]);
    }
  }

  lemma {:induction false} SettlesFurther(r: Run, t: Run, u: Run)
    requires Settles(r, t) && Settles(t, u)
    ensures Settles(r, u)
  {
    forall i: nat | i < |r.calls|
      ensures CallAged(r.calls[i], u.calls[i])
    {
      assert CallAged(r.calls[i], t.calls[i]) && CallAged(t.calls[i], u.calls[i]);
    }
  }

  /** Calls are never removed or rewritten, and an outcome is final. */
  lemma {:induction false} OutcomesAreFinal(events: seq<Event>, n: nat)
    requires n <= |events|
    ensures Settles(RunAll(events[..n]), RunAll(events))
    decreases |events|
  {
    if n == |events| {
      assert events[..n] == events;
    } else {
      var last := |events| - 1;
      OutcomesAreFinal(events[..last], n);
      assert events[..last][..n] == events[..n];
      RunsAreSound(events[..last]);
      StepKeeps(RunAll(events[..last]), events[last]);
      SettlesFurther(RunAll(events[..n]), RunAll(events[..last]), RunAll(events));
    }
  }

  // ----- how often a call is made -----

  /**
   * Among the calls for one operation key in one round, a call that has not failed is the last:
   * at most one is open, at most one succeeds, and nothing is sent after a success.
   */
  lemma {:induction false} OneLiveCallPerRound(events: seq<Event>, i: nat)
    requires i < |RunAll(events).calls| && !RunAll(events).calls[i].status.Failed()
    ensures var calls := RunAll(events).calls;
            forall j: nat :: j < |calls| && j != i && Alike(calls[j], calls[i]) ==> j < i && calls[j].status.Failed()
  {
    RunsAreSound(events);
    var calls := RunAll(events).calls;
    forall j: nat | j < |calls| && j != i && Alike(calls[j], calls[i])
      ensures j < i && calls[j].status.Failed()
    {
      assert EarlierFailed(calls, i, j) && EarlierFailed(calls, j, i);
    }
  }

  /** A shared stage is paid for at most once in the whole life of the Run. */
  lemma {:induction false} SharedStagesSucceedOnce(events: seq<Event>, i: nat, j: nat)
    requires var calls := RunAll(events).calls;
             && i < |calls| && j < |calls| && calls[i].status == Succeeded && calls[j].status == Succeeded
             && calls[i].operation == calls[j].operation && StageOf(calls[i].operation) in SHARED_STAGES
    ensures i == j
    ensures KeyOf(RunAll(events).calls[i]) in RunAll(events).checkpoints
  {
    RunsAreSound(events);
    var r := RunAll(events);
    assert SharedOnce(r.calls, i, j) && SuccessKept(r, i);
  }

  lemma {:induction false} NewCallIsNoSuccess(r: Run, e: Event, i: nat)
    requires May(r, e) && Apply(r, e).Ok? && (e.Start? || e.Resubmit?)
    requires i < |r.calls| && r.calls[i].status != Succeeded
    ensures i < |Apply(r, e).value.calls| && Apply(r, e).value.calls[i] == r.calls[i]
  {
    hide May, Get, RetryIdentity, RetryTarget;
  }

  lemma {:induction false} RecoveryIsNoSuccess(r: Run, i: nat)
    requires i < |r.calls| && r.calls[i].status != Succeeded
    ensures i < |DoRecover(r).calls| && DoRecover(r).calls[i].status != Succeeded
  {
  }

  lemma {:induction false} FailureIsNoSuccess(r: Run, e: Event, i: nat)
    requires May(r, e) && Apply(r, e).Ok? && (e.Fail? || e.Send? || e.RemoteJob?)
    requires i < |r.calls| && r.calls[i].status != Succeeded
    ensures i < |Apply(r, e).value.calls| && Apply(r, e).value.calls[i].status != Succeeded
  {
  }

  lemma {:induction false} OnlySuccessSucceeds(r: Run, e: Event, i: nat)
    requires !e.Succeed? && i < |r.calls| && r.calls[i].status != Succeeded
    ensures i < |After(r, e).calls| && After(r, e).calls[i].status != Succeeded
  {
    hide May, DoStart, DoResubmit, DoFail, DoRecover, DoSucceed, WithPreparation;
    if May(r, e) && Apply(r, e).Ok? {
      match e
      case Start(_, _, _, _, _) => NewCallIsNoSuccess(r, e, i);
      case Resubmit(_) => NewCallIsNoSuccess(r, e, i);
      case Fail(_, _) => FailureIsNoSuccess(r, e, i);
      case Recover => RecoveryIsNoSuccess(r, i);
      case Send(_) => FailureIsNoSuccess(r, e, i);
      case RemoteJob(_) => FailureIsNoSuccess(r, e, i);
      case _ =>
    }
  }

  /** A call becomes successful only in the transaction that also writes its checkpoint. */
  lemma {:induction false} SuccessCommitsItsCheckpoint(events: seq<Event>, e: Event, i: nat)
    requires var r := RunAll(events);
             && i < |r.calls| && r.calls[i].status != Succeeded
             && i < |After(r, e).calls| && After(r, e).calls[i].status == Succeeded
    ensures var r, t := RunAll(events), After(RunAll(events), e);
            && e.Succeed? && e.i == i && r.calls[i].status == Sending
            && KeyOf(r.calls[i]) !in r.checkpoints
            && t.checkpoints == r.checkpoints[KeyOf(r.calls[i]) := Row(
                 Digest(StageOf(r.calls[i].operation), r.calls[i].scope, KeyOf(r.calls[i]).0),
                 Artifact(StageOf(r.calls[i].operation), r.calls[i].scope, e.id, []))]
  {
    hide RunFrom, CallsOk, RowsOk, SuccessesKept, ReferencesOk;
    RunsAreSound(events);
    var r := RunAll(events);
    if e.Succeed? {
      assert e.i == i;
      assert Flies(r, i);
    } else {
      OnlySuccessSucceeds(r, e, i);
    }
  }

  // ----- what a retry repeats -----

  /** `a` is `i`, or the call that `i` retries, and so on. */
  ghost predicate Ancestor(calls: seq<Invocation>, a: nat, i: nat)
    decreases i
  {
    a == i
    || (i < |calls| && calls[i].retryOf.Some? && calls[i].retryOf.value < i
        && Ancestor(calls, a, calls[i].retryOf.value))
  }

  lemma {:induction false} AncestrySharesTheRequest(events: seq<Event>, a: nat, i: nat)
    requires i < |RunAll(events).calls| && Ancestor(RunAll(events).calls, a, i)
    ensures var calls := RunAll(events).calls;
            && a <= i
            && calls[a].operation == calls[i].operation && calls[a].scope == calls[i].scope
            && calls[a].identity == calls[i].identity && calls[a].idempotencyKey == calls[i].idempotencyKey
            && (a < i ==> calls[a].status.Failed())
    decreases i
  {
    RunsAreSound(events);
    var calls := RunAll(events).calls;
    if a != i {
      assert LinkOk(calls, i);
      AncestrySharesTheRequest(events, a, calls[i].retryOf.value);
    }
  }

  /** One idempotency key never names two different requests. */
  lemma {:induction false} IdempotencyKeyNamesOneRequest(events: seq<Event>, i: nat, j: nat)
    requires var calls := RunAll(events).calls;
             i < |calls| && j < |calls| && calls[i].idempotencyKey == calls[j].idempotencyKey
    ensures var calls := RunAll(events).calls;
            && calls[i].operation == calls[j].operation && calls[i].scope == calls[j].scope
            && calls[i].identity == calls[j].identity
  {
    RunsAreSound(events);
    assert KeyNamesOne(RunAll(events).calls, i, j);
  }

  // ----- the references of a round -----

  lemma {:induction false} StartLeavesRows(r: Run, e: Event)
    requires May(r, e) && Apply(r, e).Ok? && (e.Start? || e.Resubmit?)
    ensures var t := Apply(r, e).value;
      t.preparations == r.preparations && t.intake == r.intake && t.round == r.round
  {
    hide May, Get, RetryIdentity, RetryTarget;
  }

  lemma {:induction false} CallsLeaveRows(r: Run, e: Event)
    requires May(r, e) && Apply(r, e).Ok? && (e.Send? || e.RemoteJob? || e.Fail? || e.Succeed?)
    ensures OnlyCalls(r, Apply(r, e).value)
  {
    hide DoFail, DoSucceed;
    match e
    case Fail(i, failure) => FailTouchesCalls(r, i, failure);
    case Succeed(i, id) => SuccessTouchesCalls(r, i, id);
    case _ =>
  }

  lemma {:induction false} RecoveryLeavesRows(r: Run)
    ensures var t := DoRecover(r); t.preparations == r.preparations && t.intake == r.intake && t.round == r.round
  {
  }

  lemma {:induction false} StepExtends(r: Run, e: Event)
    requires Inv(r)
    ensures var t := After(r, e);
      Extends(r.preparations, t.preparations) && (r.intake.Some? ==> t.intake == r.intake) && r.round <= t.round
  {
    hide Core, PhaseOk, ResultsHaveJob, CallHasReferences, Immutable, WithPreparation, May;
    hide DoStart, DoFail, DoResubmit, DoSucceed, PutCheckpoint, DoRecover;
    if May(r, e) && Apply(r, e).Ok? {
      match e
      case Prepare(attempt) => PreparingKeeps(r.preparations, r.round, r.prepared, attempt);
      case Start(_, _, _, _, _) => StartLeavesRows(r, e);
      case Resubmit(_) => StartLeavesRows(r, e);
      case Send(_) => CallsLeaveRows(r, e);
      case RemoteJob(_) => CallsLeaveRows(r, e);
      case Fail(_, _) => CallsLeaveRows(r, e);
      case Succeed(_, _) => CallsLeaveRows(r, e);
      case Recover => RecoveryLeavesRows(r);
      case _ =>
    }
  }

  lemma {:induction false} RowsOnlyGrow(r: Run, events: seq<Event>)
    requires Inv(r)
    ensures var t := RunFrom(r, events);
      && Inv(t) && Extends(r.preparations, t.preparations) && (r.intake.Some? ==> t.intake == r.intake)
      && r.round <= t.round
    decreases |events|
  {
    hide Inv, After;
    if events != [] {
      var n := |events| - 1;
      RowsOnlyGrow(r, events[..n]);
      StepKeeps(RunFrom(r, events[..n]), events[n]);
      StepExtends(RunFrom(r, events[..n]), events[n]);
    }
  }

  /** Once the references of a round are all prepared, they stay the same in every continuation of the run. */
  lemma {:induction false} RoundReferencesAreFixed(before: seq<Event>, after: seq<Event>, round: nat)
    requires var r := RunAll(before);
      r.intake.Some? && AllPrepared(r.preparations, round, r.intake.value.references)
    ensures var r, t := RunAll(before), RunFrom(RunAll(before), after);
      && t.intake == r.intake && AllPrepared(t.preparations, round, r.intake.value.references)
      && Effective(t.preparations, round, r.intake.value.references)
         == Effective(r.preparations, round, r.intake.value.references)
  {
    hide Inv, After, RunFrom;
    var r := RunAll(before);
    RunsAreSound(before);
    RowsOnlyGrow(r, after);
    EffectiveIsFixed(r.preparations, RunFrom(r, after).preparations, round, r.intake.value.references);
  }

  /** Every call that needs them is made with the job input of its round holding exactly the prepared references. */
  lemma {:induction false} CallsSeeTheReferences(events: seq<Event>, i: nat)
    requires var r := RunAll(events);
      i < |r.calls| && r.calls[i].round == r.round && NeedsReferences(r.calls[i].operation)
    ensures var r := RunAll(events);
      && RoundPrepared(r) && JobBound(r)
      && r.checkpoints[JobKey(r.round)].artifact.references == EffectiveReferences(r)
  {
    RunsAreSound(events);
    assert CallHasReferences(RunAll(events), i);
  }

  /** When the job input is invalidated, nothing below it has been paid for in this round: results were carried over. */
  lemma {:induction false} InvalidationWastesNoCall(events: seq<Event>, i: nat)
    requires May(RunAll(events), Invalidate) && i < |RunAll(events).calls|
    requires StageOf(RunAll(events).calls[i].operation) in Dropped()
    ensures RunAll(events).calls[i].round < RunAll(events).round
  {
    RunsAreSound(events);
    NothingToStrand(RunAll(events), i);
    assert CallOk(RunAll(events).calls, RunAll(events).round, i);
  }

  // ----- a success has its checkpoint -----

  lemma {:induction false} GetIsSound(r: Run, stage: Stage, scope: Scope)
    requires Inv(r)
    ensures Get(r, stage, scope).Ok?
    ensures Get(r, stage, scope) == Ok(None) <==> KeyIn(r.round, stage, scope) !in r.checkpoints
    ensures var key := KeyIn(r.round, stage, scope);
            key in r.checkpoints ==> Get(r, stage, scope) == Ok(Some(r.checkpoints[key].artifact))
  {
    if KeyIn(r.round, stage, scope) in r.checkpoints {
      assert RowOk(r.checkpoints, r.round, KeyIn(r.round, stage, scope));
    }
  }

  /** In every reachable state every success, of any round, still has its checkpoint. */
  lemma {:induction false} SuccessHasItsCheckpoint(events: seq<Event>, i: nat)
    requires i < |RunAll(events).calls| && RunAll(events).calls[i].status == Succeeded
    ensures KeyOf(RunAll(events).calls[i]) in RunAll(events).checkpoints
  {
    RunsAreSound(events);
    assert SuccessKept(RunAll(events), i);
  }

  /** "successful invocation is missing its atomic checkpoint" is never raised. */
  lemma {:induction false} NeverStranded(events: seq<Event>, op: Operation, scope: Scope, explicit: Option<nat>)
    requires Get(RunAll(events), StageOf(op), scope) == Ok(None)
    ensures RetryIdentity(RunAll(events), op, scope, explicit) != Err(IntegrityError)
  {
    var r := RunAll(events);
    RunsAreSound(events);
    GetIsSound(r, StageOf(op), scope);
    var latest := Latest(r.calls, op, scope, r.round);
    if latest.Some? {
      assert SuccessKept(r, latest.value);
    }
  }

  // ----- new rounds -----

  lemma {:induction false} ReachesFromOne(roots: set<Stage>, stage: Stage)
    ensures Reaches(DOWNSTREAM, roots, stage) <==> exists root :: root in roots && Reaches(DOWNSTREAM, {root}, stage)
  {
    if Reaches(DOWNSTREAM, roots, stage) {
      var path :| Joins(DOWNSTREAM, roots, path, stage);
      assert Joins(DOWNSTREAM, {path[0]}, path, stage);
    }
    if root :| root in roots && Reaches(DOWNSTREAM, {root}, stage) {
      var path :| Joins(DOWNSTREAM, {root}, path, stage);
      assert Joins(DOWNSTREAM, roots, path, stage);
    }
  }

  /** The failed call `i` spoils this result: it is its own result, or depends on its stage. */
  ghost predicate Spoils(r: Run, i: nat, stage: Stage, scope: Scope)
    requires i < |r.calls|
  {
    (StageOf(r.calls[i].operation) == stage && r.calls[i].scope == scope)
    || Reaches(DOWNSTREAM, {StageOf(r.calls[i].operation)}, stage)
  }

  lemma {:induction false} FailuresAreListed(r: Run, stage: Stage, scope: Scope)
    ensures (stage, scope) in FailedKeys(r) <==>
            exists i :: i in Failures(r) && StageOf(r.calls[i].operation) == stage && r.calls[i].scope == scope
    ensures Reaches(DOWNSTREAM, FailedStages(r), stage) <==>
            exists i :: i in Failures(r) && Reaches(DOWNSTREAM, {StageOf(r.calls[i].operation)}, stage)
  {
    ReachesFromOne(FailedStages(r), stage);
    if i :| i in Failures(r) && Reaches(DOWNSTREAM, {StageOf(r.calls[i].operation)}, stage) {
      assert StageOf(r.calls[i].operation) in FailedStages(r);
    }
  }

  lemma {:induction false} CarriedUnlessSpoiled(r: Run, stage: Stage, scope: Scope)
    requires Failures(r) != {}
    ensures Carried(r, stage, scope) <==>
            (r.round, stage, scope) in r.checkpoints && forall i :: i in Failures(r) ==> !Spoils(r, i, stage, scope)
  {
    DescendantsAreReached(DOWNSTREAM, FailedStages(r));
    FailuresAreListed(r, stage, scope);
    assert stage in Excluded(r) <==> Reaches(DOWNSTREAM, FailedStages(r), stage);
  }

  lemma {:induction false} CarriedRowsAreKeys(r: Run, stage: Stage, scope: Scope)
    requires Inv(r)
    ensures (r.round + 1, stage, scope) in CarriedRows(r) <==> Carried(r, stage, scope)
    ensures forall k :: k in CarriedRows(r) ==> k.0 == r.round + 1 && k.1 !in SHARED_STAGES
  {
    hide Excluded, FailedKeys;
    forall c | c in CarriedKeys(r)
      ensures c.1 !in SHARED_STAGES && KeyIn(r.round + 1, c.1, c.2) == (r.round + 1, c.1, c.2)
    {
      assert RowOk(r.checkpoints, r.round, c);
    }
    if Carried(r, stage, scope) {
      assert (r.round, stage, scope) in CarriedKeys(r);
    }
  }

  /** The last call for its work in this round, and it did not succeed. */
  ghost predicate LastFailed(r: Run, i: nat) {
    && i < |r.calls| && r.calls[i].round == r.round && r.calls[i].status != Succeeded
    && forall j: nat :: i < j < |r.calls| ==> !Alike(r.calls[j], r.calls[i])
  }

  lemma {:induction false} FailuresAreLast(r: Run, i: nat)
    ensures i in Failures(r) <==> LastFailed(r, i)
  {
    if i < |r.calls| {
      var latest := Latest(r.calls, r.calls[i].operation, r.calls[i].scope, r.round);
      if r.calls[i].round == r.round {
        assert IsCall(r.calls[i], r.calls[i].operation, r.calls[i].scope, r.round);
        assert latest.value > i ==> Alike(r.calls[latest.value], r.calls[i]);
        assert latest.value == i ==> forall j: nat :: i < j < |r.calls| ==>
            (Alike(r.calls[j], r.calls[i])
             <==> IsCall(r.calls[j], r.calls[i].operation, r.calls[i].scope, r.round));
      }
    }
  }

  /** A round that ended well: a retry makes the corrections anew. */
  ghost predicate EndedWell(r: Run) {
    r.status == RunSucceeded && forall k :: k in r.preparations && k.0 == r.round ==> r.preparations[k].Some?
  }

  /** A retry without a failed call makes everything from the corrections on anew when the round ended well. */
  lemma {:induction false} CarriedWithoutFailure(r: Run, stage: Stage, scope: Scope)
    requires Failures(r) == {}
    ensures Carried(r, stage, scope) <==>
            (r.round, stage, scope) in r.checkpoints
            && !(EndedWell(r) && (stage == CorrectionTranscript || Reaches(DOWNSTREAM, {CorrectionTranscript}, stage)))
  {
    DescendantsAreReached(DOWNSTREAM, {CorrectionTranscript});
    DescendantsAreReached(DOWNSTREAM, FailedStages(r));
    FailuresAreListed(r, stage, scope);
    assert !Reaches(DOWNSTREAM, FailedStages(r), stage);
    assert FailedReferences(r) <==> !forall k :: k in r.preparations && k.0 == r.round ==> r.preparations[k].Some?;
  }

  /** The round after `r` starts with exactly the results of `r` that no failed call spoils; the past stays. */
  ghost predicate CarriesExactly(r: Run, t: Run, stage: Stage, scope: Scope) {
    var before, after := (r.round, stage, scope), (r.round + 1, stage, scope);
    && t.round == r.round + 1 && t.calls == r.calls
    && (forall k :: k in r.checkpoints ==> k in t.checkpoints && t.checkpoints[k] == r.checkpoints[k])
    && (after in t.checkpoints <==> Carried(r, stage, scope))
    && (after in t.checkpoints ==>
          before in r.checkpoints && t.checkpoints[after].artifact == r.checkpoints[before].artifact)
    && (Failures(r) != {} ==>
          (after in t.checkpoints <==>
             before in r.checkpoints && forall i :: i in Failures(r) ==> !Spoils(r, i, stage, scope)))
    && (Failures(r) == {} ==>
          (after in t.checkpoints <==>
             before in r.checkpoints
             && !(EndedWell(r)
                  && (stage == CorrectionTranscript || Reaches(DOWNSTREAM, {CorrectionTranscript}, stage)))))
  }

  lemma {:induction false} AlwaysReadable(r: Run)
    requires Inv(r)
    ensures AllReadable(r)
  {
    forall k | k in r.checkpoints && k.0 == r.round
      ensures Get(r, k.1, k.2).Ok?
    {
      GetIsSound(r, k.1, k.2);
    }
  }

  lemma {:induction false} PastIsApart(r: Run)
    requires Inv(r)
    ensures forall k :: k in r.checkpoints ==> k !in CarriedRows(r)
  {
    hide CarriedRows, Carried;
    forall k | k in r.checkpoints
      ensures k !in CarriedRows(r)
    {
      assert RowOk(r.checkpoints, r.round, k);
      CarriedRowsAreKeys(r, k.1, k.2);
    }
  }

  lemma {:induction false} NothingNewYet(r: Run, stage: Stage, scope: Scope)
    requires Inv(r)
    ensures (r.round + 1, stage, scope) !in r.checkpoints
  {
    var k := (r.round + 1, stage, scope);
    assert k in r.checkpoints ==> RowOk(r.checkpoints, r.round, k);
  }

  lemma {:induction false} RetryCarries(r: Run, stage: Stage, scope: Scope)
    requires Inv(r) && r.intake.Some? && !Active(r.status)
    ensures DoBeginRetry(r).Ok?
    ensures CarriesExactly(r, DoBeginRetry(r).value, stage, scope)
  {
    hide AllReadable, Excluded, Failures, Spoils, FailedKeys, CarriedKeys, Inv, Get, EndedWell, Reaches;
    AlwaysReadable(r);
    PastIsApart(r);
    NothingNewYet(r, stage, scope);
    CarriedRowsAreKeys(r, stage, scope);
    if Failures(r) != {} {
      CarriedUnlessSpoiled(r, stage, scope);
    } else {
      CarriedWithoutFailure(r, stage, scope);
    }
  }

  /** A retry after the round has ended never fails, and carries over exactly what it should. */
  lemma {:induction false} RetryCarriesExactly(events: seq<Event>, stage: Stage, scope: Scope)
    requires RunAll(events).intake.Some? && !Active(RunAll(events).status)
    ensures var r, retry := RunAll(events), DoBeginRetry(RunAll(events));
            retry.Ok? && CarriesExactly(r, retry.value, stage, scope)
  {
    hide RunFrom, DoBeginRetry, CarriesExactly, Inv;
    RunsAreSound(events);
    RetryCarries(RunAll(events), stage, scope);
  }

  /** When one correction arm failed and nothing before it did, the transcript of the other arm is carried over. */
  lemma {:induction false} SiblingArmSurvives(r: Run, scope: Scope)
    requires Failures(r) != {} && (r.round, CorrectionTranscript, scope) in r.checkpoints
    requires forall i :: i in Failures(r) ==>
               StageOf(r.calls[i].operation) == CorrectionTranscript && r.calls[i].scope != scope
    ensures Carried(r, CorrectionTranscript, scope)
  {
    CarriedUnlessSpoiled(r, CorrectionTranscript, scope);
    CorrectionIsNotItsOwnDescendant();
    DescendantsAreReached(DOWNSTREAM, {CorrectionTranscript});
  }

  // ----- carried results are not paid for again -----

  /** The carried result and the carried job input are there, and no call was made for that result in this round. */
  ghost predicate HasForFree(r: Run, round: nat, op: Operation, scope: Scope, job: Artifact) {
    && KeyIn(round, StageOf(op), scope) in r.checkpoints
    && JobKey(round) in r.checkpoints && r.checkpoints[JobKey(round)].artifact == job
    && (forall i: nat :: i < |r.calls| ==> !IsCall(r.calls[i], op, scope, round))
  }

  /** The references prepared for the round are not those of the carried job input. */
  ghost predicate ReferencesChanged(r: Run, round: nat, job: Artifact) {
    && r.intake.Some? && AllPrepared(r.preparations, round, r.intake.value.references)
    && Effective(r.preparations, round, r.intake.value.references) != job.references
  }

  lemma {:induction false} ChangeIsFinal(r: Run, e: Event, round: nat, job: Artifact)
    requires Inv(r) && ReferencesChanged(r, round, job)
    ensures ReferencesChanged(After(r, e), round, job)
  {
    hide Inv, After;
    StepExtends(r, e);
    EffectiveIsFixed(r.preparations, After(r, e).preparations, round, r.intake.value.references);
  }

  lemma {:induction false} StartKeepsForFree(r: Run, e: Event, round: nat, op: Operation, scope: Scope, job: Artifact)
    requires Inv(r) && HasForFree(r, round, op, scope, job) && round <= r.round && e.Start?
    ensures HasForFree(After(r, e), round, op, scope, job)
  {
    if May(r, e) && Apply(r, e).Ok? {
      GetIsSound(r, StageOf(e.op), e.scope);
      if Get(r, StageOf(e.op), e.scope) == Ok(None) {
        GrantedAfterFailures(r, e.op, e.scope, e.explicit);
        NewCallRepeats(r, e.op, e.scope, e.identity, RetryIdentity(r, e.op, e.scope, e.explicit).value, e.drawn);
      }
    }
  }

  lemma {:induction false} ResubmitKeepsForFree(
    r: Run, e: Event, round: nat, op: Operation, scope: Scope, job: Artifact)
    requires Inv(r) && HasForFree(r, round, op, scope, job) && round <= r.round && e.Resubmit?
    ensures HasForFree(After(r, e), round, op, scope, job)
  {
    if May(r, e) && Apply(r, e).Ok? {
      var c := r.calls[r.again.value];
      assert CallOk(r.calls, r.round, r.again.value);
      var ready := r.(again := None, second := r.second + {|r.calls|});
      NewCallRepeats(ready, c.operation, c.scope, e.newIdentity, r.again, "");
    }
  }

  lemma {:induction false} InvalidateKeepsForFree(
    r: Run, round: nat, op: Operation, scope: Scope, job: Artifact)
    requires Inv(r) && HasForFree(r, round, op, scope, job) && round <= r.round && May(r, Invalidate)
    ensures HasForFree(DoInvalidate(r), round, op, scope, job) || ReferencesChanged(DoInvalidate(r), round, job)
  {
    if round != r.round {
      JobInputReachesNoSharedStage();
    }
  }

  lemma {:induction false} SettleKeepsForFree(
    r: Run, id: string, round: nat, op: Operation, scope: Scope, job: Artifact)
    requires Inv(r) && HasForFree(r, round, op, scope, job) && round <= r.round && May(r, Settle(id))
    ensures HasForFree(After(r, Settle(id)), round, op, scope, job)
  {
    if r.phase == Rebinding {
      assert !JobBound(r) && round < r.round;
    }
  }

  lemma {:induction false} RetryKeepsForFree(
    r: Run, round: nat, op: Operation, scope: Scope, job: Artifact)
    requires Inv(r) && HasForFree(r, round, op, scope, job) && round <= r.round
    ensures HasForFree(After(r, BeginRetry), round, op, scope, job)
  {
    hide CarriedRows, AllReadable, Inv;
    PastIsApart(r);
  }

  lemma {:induction false} RecoveryKeepsForFree(
    r: Run, round: nat, op: Operation, scope: Scope, job: Artifact)
    requires HasForFree(r, round, op, scope, job)
    ensures HasForFree(After(r, Recover), round, op, scope, job)
  {
  }

  lemma {:induction false} SameCallsForFree(r: Run, t: Run, round: nat, op: Operation, scope: Scope, job: Artifact)
    requires HasForFree(r, round, op, scope, job) && OnlyCalls(r, t)
    ensures HasForFree(t, round, op, scope, job)
  {
  }

  lemma {:induction false} CallKeepsForFree(r: Run, e: Event, round: nat, op: Operation, scope: Scope, job: Artifact)
    requires HasForFree(r, round, op, scope, job) && (e.Send? || e.RemoteJob? || e.Fail? || e.Succeed?)
    ensures HasForFree(After(r, e), round, op, scope, job)
  {
    hide IsCall, HasForFree, Apply, May;
    if May(r, e) && Apply(r, e).Ok? {
      CallsLeaveRows(r, e);
      SameCallsForFree(r, Apply(r, e).value, round, op, scope, job);
    }
  }

  lemma {:induction false} OthersKeepForFree(r: Run, e: Event, round: nat, op: Operation, scope: Scope, job: Artifact)
    requires HasForFree(r, round, op, scope, job)
    requires e.TakeIn? || e.BindJob? || e.Begin? || e.Prepare? || e.Bind? || e.RequestCancel? || e.End? || e.Crash?
    ensures HasForFree(After(r, e), round, op, scope, job)
  {
    hide WithPreparation;
  }

  lemma {:induction false} StepKeepsForFree(r: Run, e: Event, round: nat, op: Operation, scope: Scope, job: Artifact)
    requires Inv(r) && HasForFree(r, round, op, scope, job) && round <= r.round
    ensures HasForFree(After(r, e), round, op, scope, job) || ReferencesChanged(After(r, e), round, job)
  {
    hide ReferencesChanged, Inv, May, HasForFree;
    match e
    case Recover => RecoveryKeepsForFree(r, round, op, scope, job);
    case Start(_, _, _, _, _) => StartKeepsForFree(r, e, round, op, scope, job);
    case Resubmit(_) => ResubmitKeepsForFree(r, e, round, op, scope, job);
    case Invalidate => if May(r, e) { InvalidateKeepsForFree(r, round, op, scope, job); }
    case Settle(id) => if May(r, e) { SettleKeepsForFree(r, id, round, op, scope, job); }
    case BeginRetry => RetryKeepsForFree(r, round, op, scope, job);
    case Send(_) => CallKeepsForFree(r, e, round, op, scope, job);
    case RemoteJob(_) => CallKeepsForFree(r, e, round, op, scope, job);
    case Fail(_, _) => CallKeepsForFree(r, e, round, op, scope, job);
    case Succeed(_, _) => CallKeepsForFree(r, e, round, op, scope, job);
    case _ => OthersKeepForFree(r, e, round, op, scope, job);
  }

  lemma {:induction false} ForFreeStays(
    r: Run, events: seq<Event>, round: nat, op: Operation, scope: Scope, job: Artifact)
    requires Inv(r) && HasForFree(r, round, op, scope, job) && round <= r.round
    ensures var t := RunFrom(r, events);
      HasForFree(t, round, op, scope, job) || ReferencesChanged(t, round, job)
    decreases |events|
  {
    hide Inv, After, HasForFree, ReferencesChanged;
    if events != [] {
      var n := |events| - 1;
      ForFreeStays(r, events[..n], round, op, scope, job);
      RowsOnlyGrow(r, events[..n]);
      var last := RunFrom(r, events[..n]);
      if HasForFree(last, round, op, scope, job) {
        StepKeepsForFree(last, events[n], round, op, scope, job);
      } else {
        ChangeIsFinal(last, events[n], round, job);
      }
    }
  }

  lemma {:induction false} NothingInTheFuture(r: Run, op: Operation, scope: Scope)
    requires Inv(r)
    ensures forall i: nat :: i < |r.calls| ==> !IsCall(r.calls[i], op, scope, r.round + 1)
  {
    forall i: nat | i < |r.calls|
      ensures !IsCall(r.calls[i], op, scope, r.round + 1)
    {
      assert CallOk(r.calls, r.round, i);
    }
  }

  /** What a paid result of this round was made from: the job input is there. */
  lemma {:induction false} ResultHasJob(r: Run, op: Operation, scope: Scope)
    requires Inv(r) && (r.round, StageOf(op), scope) in r.checkpoints
    ensures JobBound(r) && StageOf(op) !in SHARED_STAGES
  {
    assert RowOk(r.checkpoints, r.round, (r.round, StageOf(op), scope));
    DroppedByOperation(op);
  }

  /** A carried key has its result for free in the new round. */
  lemma {:induction false} CarriedIsForFree(r: Run, op: Operation, scope: Scope)
    requires Inv(r) && r.intake.Some? && !Active(r.status) && Carried(r, StageOf(op), scope)
    ensures DoBeginRetry(r).Ok? && JobBound(r)
    ensures HasForFree(DoBeginRetry(r).value, r.round + 1, op, scope, r.checkpoints[JobKey(r.round)].artifact)
  {
    hide Excluded, Failures, Spoils, FailedKeys, DoBeginRetry;
    ResultHasJob(r, op, scope);
    JobIsCarried(r);
    RetryCarries(r, StageOf(op), scope);
    RetryCarries(r, JobInput, "global");
    NothingInTheFuture(r, op, scope);
  }

  lemma {:induction false} RetryTakesPlace(r: Run)
    requires Inv(r) && r.intake.Some? && !Active(r.status)
    ensures DoBeginRetry(r) == Ok(After(r, BeginRetry))
    ensures After(r, BeginRetry).round == r.round + 1 && Inv(After(r, BeginRetry))
  {
    RetryCarries(r, JobInput, "global");
    StepKeeps(r, BeginRetry);
    assert ProcessOk(r) && May(r, BeginRetry);
  }

  /**
   * A result that a retry carries over is not paid for again in its round, unless the references prepared for that
   * round are others than those of the job input that was carried over with it.
   */
  lemma {:induction false} CarriedIsNotPaidAgain(before: seq<Event>, after: seq<Event>, op: Operation, scope: Scope)
    requires RunAll(before).intake.Some? && !Active(RunAll(before).status)
    requires Carried(RunAll(before), StageOf(op), scope)
    ensures var r := RunAll(before);
            var last := RunFrom(After(r, BeginRetry), after);
            && JobBound(r)
            && (ReferencesChanged(last, r.round + 1, r.checkpoints[JobKey(r.round)].artifact)
                || forall i: nat :: i < |last.calls| ==> !IsCall(last.calls[i], op, scope, r.round + 1))
  {
    hide DoBeginRetry, Carried, After, Inv, RunFrom, ReferencesChanged;
    var r := RunAll(before);
    RunsAreSound(before);
    CarriedIsForFree(r, op, scope);
    RetryTakesPlace(r);
    ForFreeStays(After(r, BeginRetry), after, r.round + 1, op, scope, r.checkpoints[JobKey(r.round)].artifact);
  }
}
