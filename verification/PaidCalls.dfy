/**
 * The paid provider calls of one Run: src/cueflow/run_runtime.py, src/cueflow/registry.py,
 * begin_retry and invalidate of src/cueflow/lifecycle.py, and the order of _execute in src/cueflow/orchestrator.py.
 * An event is one transaction of the single writer, a cancellation request, or the loss of the process.
 */
module PaidCalls {
  import opened Outcomes
  import opened Lifecycle
  import opened ReferencePreparation

  datatype Operation = MediaUpload | QwenAsr | DoubaoAsr | QwenCorrection | KimiCorrection | GlmSelection | Ata

  type Scope = string

  /** OPERATIONS: the stage of the artifact that a call produces. */
  function StageOf(op: Operation): Stage {
    match op
    case MediaUpload => MediaObject
    case QwenAsr => BaseAsr
    case DoubaoAsr => PeerAsr
    case QwenCorrection => CorrectionTranscript
    case KimiCorrection => CorrectionTranscript
    case GlmSelection => SelectionResult
    case Ata => AtaResponse
  }

  /** The scopes under which the orchestrator starts each operation; a selection runs once per batch. */
  predicate ScopeOk(op: Operation, scope: Scope) {
    match op
    case QwenCorrection => scope == "qwen"
    case KimiCorrection => scope == "kimi"
    case GlmSelection => true
    case _ => scope == "global"
  }

  /** Operations whose remote job survives the process and can be taken over in a later round. */
  predicate TakesOver(op: Operation) {
    op == QwenAsr || op == DoubaoAsr || op == Ata
  }

  /** The operations that _execute starts after the references are settled. */
  predicate NeedsReferences(op: Operation) {
    op == QwenCorrection || op == KimiCorrection || op == GlmSelection || op == Ata
  }

  predicate Paid(stage: Stage) {
    exists op :: StageOf(op) == stage
  }

  datatype Status = Created | Sending | Succeeded | ExplicitFailure | DefinitelyNotSent | DeliveryAmbiguous {
    predicate Failed() {
      ExplicitFailure? || DefinitelyNotSent? || DeliveryAmbiguous?
    }

    predicate Open() {
      Created? || Sending?
    }
  }

  /** What a retry may not change. */
  datatype Identity = Identity(
    provider: string, model: Option<string>, inputs: seq<(string, string)>,
    promptVersion: Option<string>, promptHash: Option<string>)

  datatype Invocation = Invocation(
    operation: Operation, scope: Scope, round: nat, status: Status, identity: Identity,
    idempotencyKey: string, retryOf: Option<nat>, remoteJob: bool)

  /** The hashed fields; the configuration of a Run is fixed. */
  datatype Digest = Digest(stage: Stage, scope: Scope, round: nat)

  /** `references` is the part of a job input that is compared; other artifacts have none. */
  datatype Artifact = Artifact(kind: Stage, scope: Scope, id: string, references: seq<Reference>)

  datatype Row = Row(digest: Digest, artifact: Artifact)

  datatype RunStatus = Queued | Running | NeedsReview | RunSucceeded | RunFailed | Cancelled | Interrupted

  /** Round, stage, scope. */
  type CheckpointKey = (nat, Stage, Scope)

  /** What intake binds: how many references were captured, and the job input that was published. */
  datatype Intake = Intake(references: nat, jobId: string)

  /** How far _execute has come: before, between, and after the deletion and the new binding of the job input. */
  datatype Phase = Opening | Rebinding | Correcting

  /**
   * `calls` are the invocations in creation order, `cancelled` is the request of the current round. The rest belongs
   * to the process: whether it executes, its phase and how many references it has prepared, the calls it waits for,
   * the one it is about to submit once more, and second attempts.
   */
  datatype Run = Run(
    status: RunStatus, round: nat, cancelled: bool, intake: Option<Intake>, preparations: Preparations,
    calls: seq<Invocation>, checkpoints: map<CheckpointKey, Row>,
    executing: bool, phase: Phase, prepared: nat, inflight: set<nat>, again: Option<nat>, second: set<nat>)

  const FRESH := Run(Queued, 1, false, None, map[], [], map[], false, Opening, 0, {}, None, {})

  // ----- checkpoints -----

  function RoundOf(round: nat, stage: Stage): nat {
    if stage in SHARED_STAGES then 0 else round
  }

  function KeyIn(round: nat, stage: Stage, scope: Scope): CheckpointKey {
    (RoundOf(round, stage), stage, scope)
  }

  function DigestIn(round: nat, stage: Stage, scope: Scope): Digest {
    Digest(stage, scope, RoundOf(round, stage))
  }

  /** _get */
  function Get(r: Run, stage: Stage, scope: Scope): Result<Option<Artifact>> {
    var key := KeyIn(r.round, stage, scope);
    if key !in r.checkpoints then Ok(None)
    else
      var row := r.checkpoints[key];
      if row.digest != DigestIn(r.round, stage, scope) then Err(IntegrityError)
      else if row.artifact.kind != stage || row.artifact.scope != scope then Err(IntegrityError)
      else Ok(Some(row.artifact))
  }

  /** _checkpoint_tx under the kind and scope of the artifact. */
  function PutCheckpoint(r: Run, artifact: Artifact): Result<map<CheckpointKey, Row>> {
    var key := KeyIn(r.round, artifact.kind, artifact.scope);
    var digest := DigestIn(r.round, artifact.kind, artifact.scope);
    if key in r.checkpoints && r.checkpoints[key].digest != digest then Err(IntegrityError)
    else Ok(r.checkpoints[key := Row(digest, artifact)])
  }

  function Bound(r: Run, artifact: Artifact): Result<Run> {
    match PutCheckpoint(r, artifact)
    case Err(e) => Err(e)
    case Ok(checkpoints) => Ok(r.(checkpoints := checkpoints))
  }

  // ----- starting a call -----

  predicate IsCall(c: Invocation, op: Operation, scope: Scope, round: nat) {
    c.operation == op && c.scope == scope && c.round == round
  }

  /** The last invocation of an operation in a round. */
  function Latest(calls: seq<Invocation>, op: Operation, scope: Scope, round: nat): (r: Option<nat>)
    ensures r.Some? ==> r.value < |calls| && IsCall(calls[r.value], op, scope, round)
    ensures r.Some? ==> forall j :: r.value < j < |calls| ==> !IsCall(calls[j], op, scope, round)
    ensures r.None? ==> forall j :: 0 <= j < |calls| ==> !IsCall(calls[j], op, scope, round)
  {
    if calls == [] then None
    else
      var n := |calls| - 1;
      if IsCall(calls[n], op, scope, round) then Some(n) else Latest(calls[..n], op, scope, round)
  }

  /** _retry_identity: the invocation that the new one retries, with its idempotency key. */
  function RetryIdentity(r: Run, op: Operation, scope: Scope, explicit: Option<nat>): Result<Option<nat>> {
    var latest := Latest(r.calls, op, scope, r.round);
    if latest.None? then Ok(None)
    else
      var c := r.calls[latest.value];
      if c.status == Succeeded then Err(IntegrityError)
      else if latest != explicit && !(c.remoteJob && c.status == DeliveryAmbiguous) then Err(ProviderError)
      else if !c.status.Failed() then Err(ContractError)
      else Ok(latest)
  }

  predicate Adoptable(c: Invocation, op: Operation) {
    c.operation == op && c.remoteJob && c.status == DeliveryAmbiguous
  }

  /** The candidate that decides: no later call is one. */
  predicate LastAdoptable(calls: seq<Invocation>, op: Operation, i: nat) {
    i < |calls| && Adoptable(calls[i], op) && forall j :: i < j < |calls| ==> !Adoptable(calls[j], op)
  }

  /** The candidate loop of _new_invocation: the last ambiguous remote job of the operation is taken over or nothing. */
  function Adopted(calls: seq<Invocation>, op: Operation, inputs: seq<(string, string)>): (r: Option<nat>)
    ensures r.Some? ==> LastAdoptable(calls, op, r.value) && calls[r.value].identity.inputs == inputs
    ensures r.None? ==> forall i: nat :: LastAdoptable(calls, op, i) ==> calls[i].identity.inputs != inputs
  {
    if calls == [] then None
    else
      var n := |calls| - 1;
      if !Adoptable(calls[n], op) then
        assert forall i: nat :: LastAdoptable(calls, op, i) <==> LastAdoptable(calls[..n], op, i);
        Adopted(calls[..n], op, inputs)
      else if calls[n].identity.inputs == inputs then Some(n) else None
  }

  function RetryTarget(r: Run, op: Operation, identity: Identity, retry: Option<nat>): Option<nat> {
    if retry.None? && TakesOver(op) then Adopted(r.calls, op, identity.inputs) else retry
  }

  /** _new_invocation: a row in status `created`; `drawn` is the fresh idempotency key. */
  function NewInvocation(
    r: Run, op: Operation, scope: Scope, identity: Identity, retry: Option<nat>, drawn: string): (result: Result<Run>)
    requires retry.Some? ==> retry.value < |r.calls|
  {
    var target := RetryTarget(r, op, identity, retry);
    if r.cancelled then Err(CancelledError)
    else if target.Some? && r.calls[target.value].identity != identity then Err(IntegrityError)
    else
      var key := if target.Some? then r.calls[target.value].idempotencyKey else drawn;
      Ok(r.(calls := r.calls + [Invocation(op, scope, r.round, Created, identity, key, target, false)],
            inflight := r.inflight + {|r.calls|}))
  }

  /** _stage up to the call: a present checkpoint is returned, otherwise a new invocation is made. */
  function DoStart(
    r: Run, op: Operation, scope: Scope, explicit: Option<nat>, identity: Identity, drawn: string): Result<Run>
  {
    match Get(r, StageOf(op), scope)
    case Err(e) => Err(e)
    case Ok(Some(_)) => Ok(r)
    case Ok(None) =>
      match RetryIdentity(r, op, scope, explicit)
      case Err(e) => Err(e)
      case Ok(retry) => NewInvocation(r, op, scope, identity, retry, drawn)
  }

  /** The second attempt after a completed but unusable response. */
  function DoResubmit(r: Run, identity: Identity): Result<Run>
    requires r.again.Some? && r.again.value < |r.calls|
  {
    var c := r.calls[r.again.value];
    NewInvocation(r.(again := None, second := r.second + {|r.calls|}), c.operation, c.scope, identity, r.again, "")
  }

  // ----- the end of a call -----

  function WithStatus(r: Run, i: nat, status: Status): Run
    requires i < |r.calls|
  {
    r.(calls := r.calls[i := r.calls[i].(status := status)])
  }

  /** publish_artifact with an invocation: checkpoint and success in one transaction. */
  function DoSucceed(r: Run, i: nat, id: string): Result<Run>
    requires i < |r.calls|
  {
    var c := r.calls[i];
    match PutCheckpoint(r, Artifact(StageOf(c.operation), c.scope, id, []))
    case Err(e) => Err(e)
    case Ok(checkpoints) =>
      if c.status != Sending then Err(IntegrityError)
      else Ok(WithStatus(r, i, Succeeded).(checkpoints := checkpoints, inflight := r.inflight - {i}))
  }

  /** What a provider call can raise, as _record_invocation_failure sorts it. */
  datatype Failure = Ambiguous | Unavailable | Provider | CompletedResponse | Contract | Other

  function FailureStatus(failure: Failure): Status {
    match failure
    case Ambiguous => DeliveryAmbiguous
    case Unavailable => DefinitelyNotSent
    case Provider => ExplicitFailure
    case CompletedResponse => ExplicitFailure
    case Contract => ExplicitFailure
    case Other => DeliveryAmbiguous
  }

  predicate Resubmits(op: Operation) {
    op == QwenCorrection || op == KimiCorrection || op == GlmSelection
  }

  /** _record_invocation_failure; a first attempt with an unusable response is submitted again. */
  function DoFail(r: Run, i: nat, failure: Failure): Run
    requires i < |r.calls|
  {
    var settled := r.(inflight := r.inflight - {i});
    if r.calls[i].status == Succeeded then settled
    else
      WithStatus(settled, i, FailureStatus(failure))
      .(again := if failure == CompletedResponse && i !in r.second && Resubmits(r.calls[i].operation) then Some(i)
                 else r.again)
  }

  // ----- runs, recovery, rounds -----

  function Recovered(c: Invocation): Invocation {
    if c.status == Created then c.(status := DefinitelyNotSent)
    else if c.status == Sending then c.(status := DeliveryAmbiguous)
    else c
  }

  /** recover_running_source_runs */
  function DoRecover(r: Run): Run {
    if r.status != Running then r
    else r.(calls := seq(|r.calls|, i requires 0 <= i < |r.calls| => Recovered(r.calls[i])), status := Interrupted)
  }

  /** The stages whose checkpoints invalidate(context, {"job_input"}) deletes. */
  ghost function Dropped(): set<Stage> {
    {JobInput} + DescendantsOf(DOWNSTREAM, {JobInput})
  }

  /** The checkpoints that are left when those of `stages` are deleted, each in the round it belongs to. */
  function Without(checkpoints: map<CheckpointKey, Row>, round: nat, stages: set<Stage>): map<CheckpointKey, Row> {
    map k | k in checkpoints && !(k.1 in stages && k.0 == RoundOf(round, k.1)) :: checkpoints[k]
  }

  // ----- the references of a round -----

  function JobKey(round: nat): CheckpointKey {
    (round, JobInput, "global")
  }

  predicate RoundPrepared(r: Run) {
    r.intake.Some? && AllPrepared(r.preparations, r.round, r.intake.value.references)
  }

  function EffectiveReferences(r: Run): seq<Reference> {
    if r.intake.Some? then Effective(r.preparations, r.round, r.intake.value.references) else []
  }

  predicate JobBound(r: Run) {
    JobKey(r.round) in r.checkpoints
  }

  /** `list(job.payload["references"]) == prepared_refs` */
  predicate JobIsEffective(r: Run) {
    JobBound(r) && r.checkpoints[JobKey(r.round)].artifact.references == EffectiveReferences(r)
  }

  /** One turn of prepare_references. */
  function DoPrepare(r: Run, attempt: Option<string>): Result<Run> {
    if r.cancelled then Err(CancelledError)
    else
      var rows := WithPreparation(r.preparations, r.round, r.prepared, attempt);
      Ok(r.(preparations := rows, prepared := r.prepared + 1))
  }

  ghost function DoInvalidate(r: Run): Run {
    r.(checkpoints := Without(r.checkpoints, r.round, Dropped()), phase := Rebinding)
  }

  /** The job input is left alone when its references are the prepared ones, and else bound anew. */
  function DoSettle(r: Run, id: string): Result<Run> {
    if r.phase == Rebinding then
      Bound(r.(phase := Correcting), Artifact(JobInput, "global", id, EffectiveReferences(r)))
    else Ok(r.(phase := Correcting))
  }

  // ----- begin_retry -----

  /** The latest invocation of its operation in this round, and it did not succeed. */
  predicate IsFailure(r: Run, i: nat)
    requires i < |r.calls|
  {
    Latest(r.calls, r.calls[i].operation, r.calls[i].scope, r.round) == Some(i) && r.calls[i].status != Succeeded
  }

  function Failures(r: Run): set<nat> {
    set i: nat | i < |r.calls| && IsFailure(r, i)
  }

  function FailedStages(r: Run): set<Stage> {
    set i | i in Failures(r) :: StageOf(r.calls[i].operation)
  }

  function FailedKeys(r: Run): set<(Stage, Scope)> {
    set i | i in Failures(r) :: (StageOf(r.calls[i].operation), r.calls[i].scope)
  }

  predicate FailedReferences(r: Run) {
    exists k :: k in r.preparations && k.0 == r.round && r.preparations[k].None?
  }

  ghost function Excluded(r: Run): set<Stage> {
    DescendantsOf(DOWNSTREAM, FailedStages(r))
    + if Failures(r) == {} && !FailedReferences(r) && r.status == RunSucceeded
      then {CorrectionTranscript} + DescendantsOf(DOWNSTREAM, {CorrectionTranscript})
      else {}
  }

  /** The checkpoints of the old round that the new round starts with. */
  ghost predicate Carried(r: Run, stage: Stage, scope: Scope) {
    (r.round, stage, scope) in r.checkpoints && stage !in Excluded(r) && (stage, scope) !in FailedKeys(r)
  }

  ghost predicate AllReadable(r: Run) {
    forall k :: k in r.checkpoints && k.0 == r.round ==> Get(r, k.1, k.2).Ok?
  }

  ghost function CarriedKeys(r: Run): set<CheckpointKey> {
    set k | k in r.checkpoints && k.0 == r.round && Carried(r, k.1, k.2)
  }

  ghost function CarriedRows(r: Run): map<CheckpointKey, Row> {
    map k | k in (set c | c in CarriedKeys(r) :: KeyIn(r.round + 1, c.1, c.2)) ::
      Row(DigestIn(r.round + 1, k.1, k.2), r.checkpoints[(r.round, k.1, k.2)].artifact)
  }

  predicate Active(status: RunStatus) {
    status == Queued || status == Running
  }

  /** begin_retry */
  ghost function DoBeginRetry(r: Run): Result<Run> {
    if r.intake.None? || Active(r.status) then Err(ContractError)
    else if !AllReadable(r) then Err(IntegrityError)
    else Ok(r.(round := r.round + 1, status := Queued, cancelled := false,
               checkpoints := r.checkpoints + CarriedRows(r)))
  }

  // ----- events -----

  datatype Event =
    | Recover
    | TakeIn(references: nat, jobId: string)
    | BindJob
    | Begin
    | Prepare(attempt: Option<string>)
    | Invalidate
    | Settle(newJobId: string)
    | Start(op: Operation, scope: Scope, explicit: Option<nat>, identity: Identity, drawn: string)
    | Resubmit(newIdentity: Identity)
    | Send(i: nat)
    | RemoteJob(i: nat)
    | Fail(i: nat, failure: Failure)
    | Succeed(i: nat, id: string)
    | Bind(stage: Stage, boundScope: Scope, boundId: string)
    | RequestCancel
    | End(status: RunStatus)
    | Crash
    | BeginRetry

  /** A random idempotency key is not one that was drawn before. */
  predicate KeyIsNew(calls: seq<Invocation>, drawn: string) {
    forall i :: 0 <= i < |calls| ==> calls[i].idempotencyKey != drawn
  }

  /** The process has its job input and waits for no call. */
  predicate Quiet(r: Run) {
    r.executing && r.intake.Some? && JobBound(r) && r.inflight == {} && r.again.None?
  }

  /**
   * What the control flow of the single writer allows next. Recovery comes before every start. _execute uploads and
   * transcribes first, then prepares the references one by one, then compares them with the job input.
   */
  predicate May(r: Run, e: Event) {
    match e
    case Recover => !r.executing
    case TakeIn(_, _) => !r.executing
    case BindJob => r.intake.Some? && r.phase == Opening && r.prepared == 0 && !JobBound(r)
    case Begin => !r.executing && r.status != Running && r.status != RunSucceeded
    case Prepare(_) => Quiet(r) && r.phase == Opening && r.prepared < r.intake.value.references
    case Invalidate =>
      Quiet(r) && r.phase == Opening && r.prepared == r.intake.value.references && !JobIsEffective(r)
    case Settle(_) =>
      if r.phase == Rebinding then r.executing
      else Quiet(r) && r.phase == Opening && r.prepared == r.intake.value.references && JobIsEffective(r)
    case Start(op, scope, _, _, drawn) =>
      && r.executing && r.again.None? && ScopeOk(op, scope) && KeyIsNew(r.calls, drawn)
      && if NeedsReferences(op) then r.phase == Correcting else r.phase == Opening && r.prepared == 0 && JobBound(r)
    case Resubmit(_) => r.executing && r.again.Some? && r.again.value < |r.calls|
    case Send(i) => i in r.inflight && i < |r.calls| && r.calls[i].status == Created
    case RemoteJob(i) => i in r.inflight && i < |r.calls|
    case Fail(i, _) => i in r.inflight && i < |r.calls|
    case Succeed(i, _) => i in r.inflight && i < |r.calls|
    case Bind(stage, _, _) => !Paid(stage) && stage != JobInput
    case RequestCancel => true
    case End(status) => r.executing && !Active(status)
    case Crash => r.executing
    case BeginRetry => !r.executing
  }

  /** The process is gone, or done. */
  function Stopped(r: Run): Run {
    r.(executing := false, phase := Opening, prepared := 0, inflight := {}, again := None, second := {})
  }

  /** request_cancel of the current round: too late when the round has ended. */
  function DoRequestCancel(r: Run): Run {
    r.(cancelled := r.cancelled || Active(r.status) || r.status == NeedsReview)
  }

  ghost function Apply(r: Run, e: Event): Result<Run>
    requires May(r, e)
  {
    match e
    case Recover => Ok(DoRecover(r))
    case TakeIn(references, jobId) =>
      if r.intake.Some? then Err(ContractError) else Ok(r.(intake := Some(Intake(references, jobId))))
    case BindJob => Bound(r, Artifact(JobInput, "global", r.intake.value.jobId, []))
    case Begin => Ok(r.(status := Running, executing := true))
    case Prepare(attempt) => DoPrepare(r, attempt)
    case Invalidate => Ok(DoInvalidate(r))
    case Settle(id) => DoSettle(r, id)
    case Start(op, scope, explicit, identity, drawn) => DoStart(r, op, scope, explicit, identity, drawn)
    case Resubmit(identity) => DoResubmit(r, identity)
    case Send(i) => Ok(WithStatus(r, i, Sending))
    case RemoteJob(i) => Ok(r.(calls := r.calls[i := r.calls[i].(remoteJob := true)]))
    case Fail(i, failure) => Ok(DoFail(r, i, failure))
    case Succeed(i, id) => DoSucceed(r, i, id)
    case Bind(stage, scope, id) => Bound(r, Artifact(stage, scope, id, []))
    case RequestCancel => Ok(DoRequestCancel(r))
    case End(status) => Ok(Stopped(r).(status := status))
    case Crash => Ok(Stopped(r))
    case BeginRetry => DoBeginRetry(r)
  }

  /** An event that cannot happen next, or that raises, changes no table. */
  ghost function After(r: Run, e: Event): Run {
    if May(r, e) && Apply(r, e).Ok? then Apply(r, e).value else r
  }

  ghost function RunFrom(r: Run, events: seq<Event>): Run {
    if events == [] then r
    else
      var n := |events| - 1;
      After(RunFrom(r, events[..n]), events[n])
  }

  /** Every reachable state is `RunAll(events)` for some events. */
  ghost function RunAll(events: seq<Event>): Run {
    RunFrom(FRESH, events)
  }
}
