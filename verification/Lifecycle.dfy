/** The stage graph of src/cueflow/lifecycle.py and its worklist. */
module Lifecycle {
  datatype Stage =
    | JobInput | MediaProbe | TimelineAudio | MediaObject | BaseAsr | PeerAsr | AsrComparison
    | CorrectionTranscript | MergePlan | SelectionBatch | SelectionResult | EditResolution
    | ReviewQueue | ReviewResolution | Transcript | AtaResponse | AtaResult | SrtRender

  /** Edges to what depends on a node. */
  type Graph<T> = map<T, set<T>>

  const DOWNSTREAM: Graph<Stage> := map[
    JobInput := {CorrectionTranscript},
    MediaProbe := {TimelineAudio},
    TimelineAudio := {MediaObject},
    MediaObject := {BaseAsr, PeerAsr, AtaResponse},
    BaseAsr := {AsrComparison},
    PeerAsr := {AsrComparison},
    AsrComparison := {CorrectionTranscript},
    CorrectionTranscript := {MergePlan},
    MergePlan := {SelectionBatch, EditResolution},
    SelectionBatch := {SelectionResult},
    SelectionResult := {EditResolution},
    EditResolution := {ReviewQueue, ReviewResolution, Transcript},
    Transcript := {AtaResponse},
    AtaResponse := {AtaResult},
    AtaResult := {SrtRender}
  ]

  /** Stages whose checkpoint belongs to the Run, not to one of its rounds. */
  const SHARED_STAGES: set<Stage> :=
    {MediaProbe, TimelineAudio, MediaObject, BaseAsr, PeerAsr, AsrComparison}

  function Next<T>(graph: Graph<T>, stage: T): set<T> {
    if stage in graph then graph[stage] else {}
  }

  function Targets<T(==)>(graph: Graph<T>): set<T> {
    set a, b | a in graph && b in graph[a] :: b
  }

  // ----- reachability -----

  /** A walk along at least one edge. */
  ghost predicate IsPath<T(!new)>(graph: Graph<T>, path: seq<T>) {
    |path| >= 2 && forall i :: 0 <= i < |path| - 1 ==> path[i + 1] in Next(graph, path[i])
  }

  ghost predicate Joins<T(!new)>(graph: Graph<T>, roots: set<T>, path: seq<T>, stage: T) {
    IsPath(graph, path) && path[0] in roots && path[|path| - 1] == stage
  }

  ghost predicate Reaches<T(!new)>(graph: Graph<T>, roots: set<T>, stage: T) {
    exists path :: Joins(graph, roots, path, stage)
  }

  /** The stages at the end of a path of at least one edge from a root. */
  ghost function DescendantsOf<T(!new)>(graph: Graph<T>, roots: set<T>): set<T> {
    set stage | stage in Targets(graph) && Reaches(graph, roots, stage)
  }

  lemma {:induction false} ReachedIsTarget<T(!new)>(graph: Graph<T>, roots: set<T>, stage: T)
    requires Reaches(graph, roots, stage)
    ensures stage in Targets(graph)
  {
    var path :| Joins(graph, roots, path, stage);
    assert path[|path| - 2 + 1] in Next(graph, path[|path| - 2]);
  }

  lemma {:induction false} DescendantsAreReached<T(!new)>(graph: Graph<T>, roots: set<T>)
    ensures forall stage :: stage in DescendantsOf(graph, roots) <==> Reaches(graph, roots, stage)
  {
    forall stage | Reaches(graph, roots, stage)
      ensures stage in Targets(graph)
    {
      ReachedIsTarget(graph, roots, stage);
    }
  }

  lemma {:induction false} OneEdge<T(!new)>(graph: Graph<T>, roots: set<T>, stage: T, next: T)
    requires stage in roots || Reaches(graph, roots, stage)
    requires next in Next(graph, stage)
    ensures Reaches(graph, roots, next)
  {
    if stage in roots {
      assert Joins(graph, roots, [stage, next], next);
    } else {
      var path :| Joins(graph, roots, path, stage);
      var longer := path + [next];
      assert forall i :: 0 <= i < |path| ==> longer[i] == path[i];
      assert Joins(graph, roots, longer, next);
    }
  }

  /** Along a path that starts at a root, everything lies in a set that the edges do not leave. */
  lemma {:induction false} PathStaysInside<T(!new)>(
    graph: Graph<T>, roots: set<T>, inside: set<T>, path: seq<T>, k: nat)
    requires IsPath(graph, path) && path[0] in roots && 1 <= k < |path|
    requires forall stage :: stage in roots || stage in inside ==> Next(graph, stage) <= inside
    ensures path[k] in inside
  {
    if k > 1 {
      PathStaysInside(graph, roots, inside, path, k - 1);
    }
    assert path[k - 1 + 1] in Next(graph, path[k - 1]);
  }

  lemma {:induction false} ClosedSetsCover<T(!new)>(graph: Graph<T>, roots: set<T>, inside: set<T>)
    requires forall stage :: stage in roots || stage in inside ==> Next(graph, stage) <= inside
    ensures forall stage :: Reaches(graph, roots, stage) ==> stage in inside
    ensures DescendantsOf(graph, roots) <= inside
  {
    forall stage | Reaches(graph, roots, stage)
      ensures stage in inside
    {
      var path :| Joins(graph, roots, path, stage);
      PathStaysInside(graph, roots, inside, path, |path| - 1);
    }
  }

  // ----- the worklist -----

  /** `list(roots)`, in some order. */
  method Listed<T(==)>(roots: set<T>) returns (list: seq<T>)
    ensures forall stage :: stage in list <==> stage in roots
  {
    list := [];
    var rest := roots;
    while rest != {}
      invariant forall stage :: stage in roots <==> stage in list || stage in rest
      decreases rest
    {
      var stage :| stage in rest;
      list, rest := list + [stage], rest - {stage};
    }
  }

  ghost predicate Visited<T(!new)>(graph: Graph<T>, roots: set<T>, result: set<T>, pending: seq<T>) {
    && (forall stage :: stage in result ==> Reaches(graph, roots, stage))
    && (forall stage :: stage in pending ==> stage in roots || stage in result)
    && (forall stage :: (stage in roots || stage in result) && stage !in pending ==> Next(graph, stage) <= result)
  }

  lemma {:induction false} SmallerRest<T>(all: set<T>, before: set<T>, after: set<T>, added: T)
    requires before <= after && added in after && added !in before && added in all
    ensures |all - after| < |all - before|
  {
    var rest := (all - before) - {added};
    assert |rest| == |all - before| - 1;
    assert all - after <= rest;
    assert rest == (all - after) + (rest - (all - after));
  }

  /** The inner loop: targets not seen yet join the result and the worklist. */
  method Expand<T(==)>(targets: set<T>, seen: set<T>, waiting: seq<T>) returns (result: set<T>, pending: seq<T>)
    ensures result == seen + targets
    ensures forall stage :: stage in pending <==> stage in waiting || stage in targets - seen
    ensures targets <= seen ==> pending == waiting
  {
    result, pending := seen, waiting;
    var edges := targets;
    while edges != {}
      invariant edges <= targets && result == seen + (targets - edges)
      invariant forall stage :: stage in pending <==> stage in waiting || stage in (targets - edges) - seen
      invariant targets <= seen ==> pending == waiting
      decreases edges
    {
      var next :| next in edges;
      if next !in result {
        result, pending := result + {next}, pending + [next];
      }
      edges := edges - {next};
    }
  }

  lemma {:induction false} RootsAreWaiting<T(!new)>(graph: Graph<T>, roots: set<T>, pending: seq<T>)
    requires forall stage :: stage in pending <==> stage in roots
    ensures Visited(graph, roots, {}, pending)
  {
  }

  /** One turn of the worklist. */
  lemma {:induction false} VisitStep<T(!new)>(
    graph: Graph<T>, roots: set<T>, result: set<T>, rest: seq<T>, stage: T, result': set<T>, pending': seq<T>)
    requires Visited(graph, roots, result, rest + [stage]) && result <= Targets(graph)
    requires result' == result + Next(graph, stage)
    requires forall other :: other in pending' <==> other in rest || other in Next(graph, stage) - result
    ensures Visited(graph, roots, result', pending') && result' <= Targets(graph)
  {
    hide Reaches, Next;
    assert stage in rest + [stage];
    forall next | next in Next(graph, stage)
      ensures Reaches(graph, roots, next) && next in Targets(graph)
    {
      OneEdge(graph, roots, stage, next);
      ReachedIsTarget(graph, roots, next);
    }
    forall other | other in rest
      ensures other in rest + [stage]
    {
    }
    forall other | (other in roots || other in result') && other !in pending'
      ensures Next(graph, other) <= result'
    {
      assert other == stage || other !in rest + [stage];
    }
  }

  lemma {:induction false} NothingWaits<T(!new)>(graph: Graph<T>, roots: set<T>, result: set<T>)
    requires Visited(graph, roots, result, [])
    ensures result == DescendantsOf(graph, roots)
  {
    hide Reaches;
    ClosedSetsCover(graph, roots, result);
    DescendantsAreReached(graph, roots);
  }

  lemma {:induction false} FewerLeft<T>(all: set<T>, before: set<T>, after: set<T>)
    requires before < after <= all
    ensures |all - after| < |all - before|
  {
    var added :| added in after && added !in before;
    SmallerRest(all, before, after, added);
  }

  /** The worklist ends on every finite graph, cyclic or not, with exactly the nodes one edge or more away. */
  method Descendants<T(!new,==)>(graph: Graph<T>, roots: set<T>) returns (result: set<T>)
    ensures result == DescendantsOf(graph, roots)
  {
    hide Visited, Targets, Next, DescendantsOf;
    result := {};
    var pending := Listed(roots);
    RootsAreWaiting(graph, roots, pending);
    while pending != []
      invariant Visited(graph, roots, result, pending) && result <= Targets(graph)
      decreases |Targets(graph) - result|, |pending|
    {
      var stage, rest := pending[|pending| - 1], pending[..|pending| - 1];
      assert pending == rest + [stage];
      ghost var before := result;
      result, pending := Expand(Next(graph, stage), result, rest);
      VisitStep(graph, roots, before, rest, stage, result, pending);
      if before != result {
        FewerLeft(Targets(graph), before, result);
      }
    }
    NothingWaits(graph, roots, result);
  }

  // ----- facts about this graph -----

  const BELOW_JOB_INPUT: set<Stage> :=
    {CorrectionTranscript, MergePlan, SelectionBatch, SelectionResult, EditResolution,
     ReviewQueue, ReviewResolution, Transcript, AtaResponse, AtaResult, SrtRender}

  lemma {:induction false} BelowIsClosed()
    ensures forall stage :: stage in {JobInput} || stage in BELOW_JOB_INPUT ==>
              Next(DOWNSTREAM, stage) <= BELOW_JOB_INPUT
  {
    forall stage | stage in {JobInput} || stage in BELOW_JOB_INPUT
      ensures Next(DOWNSTREAM, stage) <= BELOW_JOB_INPUT
    {
    }
  }

  /** No shared stage depends on the job input, so dropping its descendants leaves the shared results alone. */
  lemma {:induction false} JobInputReachesNoSharedStage()
    ensures ({JobInput} + DescendantsOf(DOWNSTREAM, {JobInput})) !! SHARED_STAGES
  {
    hide DescendantsOf;
    BelowIsClosed();
    ClosedSetsCover(DOWNSTREAM, {JobInput}, BELOW_JOB_INPUT);
    assert {JobInput} + BELOW_JOB_INPUT !! SHARED_STAGES;
  }

  /** The two correction arms share a stage that does not depend on itself. */
  lemma {:induction false} CorrectionIsNotItsOwnDescendant()
    ensures CorrectionTranscript !in DescendantsOf(DOWNSTREAM, {CorrectionTranscript})
    ensures CorrectionTranscript in DescendantsOf(DOWNSTREAM, {JobInput})
  {
    var inside := {MergePlan, SelectionBatch, SelectionResult, EditResolution,
                   ReviewQueue, ReviewResolution, Transcript, AtaResponse, AtaResult, SrtRender};
    ClosedSetsCover(DOWNSTREAM, {CorrectionTranscript}, inside);
    assert CorrectionTranscript !in inside;
    OneEdge(DOWNSTREAM, {JobInput}, JobInput, CorrectionTranscript);
    DescendantsAreReached(DOWNSTREAM, {JobInput});
  }
}
