/** The selection and review stages of src/cueflow/orchestrator.py, over the cases of one merge plan. */
module ReviewStage {
  import opened Outcomes
  import opened EditResolution
  import opened TextDiff
  import opened MergePlan
  import opened SelectionBatches
  import opened Resolution

  // ----- a decided batch decides each of its cases once -----

  lemma {:induction false} OrderingElements<T(!new)>(s: seq<T>, x: set<T>)
    requires IsOrdering(s, x)
    ensures multiset(s) == multiset(x)
  {
    forall e ensures multiset(s)[e] == multiset(x)[e] {
      if e in s {
        CountInDistinct(s, e);
      }
    }
  }

  lemma {:induction false} CountInDistinct<T(!new)>(s: seq<T>, e: T)
    requires Distinct(s) && e in s
    ensures multiset(s)[e] == 1
  {
    assert s == [s[0]] + s[1..];
    if e in s[1..] {
      CountInDistinct(s[1..], e);
    }
  }

  lemma {:induction false} RecordsOrdered(ids: seq<CaseId>, x: set<CaseId>, records: seq<Component>)
    requires IsOrdering(ids, x) && |records| == |ids|
    requires forall i :: 0 <= i < |ids| ==> records[i] == ids[i].record
    ensures IsOrdering(records, set id | id in x :: id.record)
  {
    var all := set id | id in x :: id.record;
    forall i, j | 0 <= i < j < |records| ensures records[i] != records[j] {
      assert ids[i] != ids[j] && CaseId(records[i]) == ids[i] && CaseId(records[j]) == ids[j];
    }
    forall c ensures c in records <==> c in all {
      if c in records {
        var i :| 0 <= i < |records| && records[i] == c;
        assert ids[i] in ids;
      }
      if c in all {
        var id :| id in x && id.record == c;
        var i :| 0 <= i < |ids| && ids[i] == id;
        assert records[i] == c;
      }
    }
  }

  function IdList(cases: seq<SelectionCase>): (r: seq<CaseId>)
    ensures |r| == |cases| && forall i :: 0 <= i < |cases| ==> r[i] == cases[i].request.caseId
  {
    seq(|cases|, i requires 0 <= i < |cases| => cases[i].request.caseId)
  }

  lemma {:induction false} BatchIds(cases: seq<SelectionCase>)
    requires Distinct(IdList(cases))
    ensures IsOrdering(IdList(cases), Allowed(RequestsOf(cases)).Keys)
  {
    var ids, requests := IdList(cases), RequestsOf(cases);
    AllowedIds(requests);
    forall id ensures id in ids <==> id in Allowed(requests) {
      if id in ids {
        var i :| 0 <= i < |ids| && ids[i] == id;
        assert requests[i].caseId == id;
      }
      if id in Allowed(requests) {
        var i :| 0 <= i < |requests| && requests[i].caseId == id;
        assert ids[i] == id;
      }
    }
  }

  /** apply_selections patches exactly the cases of its batch, each once. */
  lemma {:induction false} BatchSettled(base: string, batch: Batch, decisions: seq<Decision>, choices: seq<Choice>)
    requires ValidBatch(batch) && DecisionsCover(decisions, batch.request)
    requires AllChosen(base, batch.cases, decisions, choices)
    ensures multiset(ChosenRecords(choices)) == multiset(RecordsOf(batch.cases))
  {
    var x := Allowed(batch.request).Keys;
    assert Distinct(IdList(batch.cases));
    BatchIds(batch.cases);
    forall i | 0 <= i < |decisions| ensures ChosenRecords(choices)[i] == DecidedIds(decisions)[i].record {
      assert ChoiceOf(base, batch.cases, decisions[i]) == Some(choices[i]);
    }
    RecordsOrdered(DecidedIds(decisions), x, ChosenRecords(choices));
    RecordsOrdered(IdList(batch.cases), x, RecordsOf(batch.cases));
    OrderingElements(ChosenRecords(choices), set id | id in x :: id.record);
    OrderingElements(RecordsOf(batch.cases), set id | id in x :: id.record);
  }

  // ----- _selection_stage -----

  /** What the provider gave for a batch: decisions, or no usable answer. */
  type Answer = Option<seq<Decision>>

  /** The answer settles the whole batch. */
  ghost predicate Selected(base: string, batch: Batch, answer: Answer) {
    && answer.Some?
    && DecisionsCover(answer.value, batch.request)
    && forall i :: 0 <= i < |answer.value| ==> ChoiceOf(base, batch.cases, answer.value[i]).Some?
  }

  /** The cases of the batches that were not settled, in order. */
  ghost function FailedRecords(base: string, batches: seq<Batch>, answers: seq<Answer>): seq<Component>
    requires |batches| == |answers|
  {
    if batches == [] then []
    else
      var n := |batches| - 1;
      FailedRecords(base, batches[..n], answers[..n])
      + if Selected(base, batches[n], answers[n]) then [] else RecordsOf(batches[n].cases)
  }

  /** Every choice is one of the texts offered for its case. */
  ghost predicate OfferedTexts(choices: seq<Choice>) {
    forall i :: 0 <= i < |choices| ==> choices[i].text in CandidateTexts(choices[i].record)
  }

  /** Cases whose options are the texts of the record they identify. */
  ghost predicate Offering(cases: seq<SelectionCase>) {
    && Identified(cases)
    && forall i, o :: 0 <= i < |cases| && o in cases[i].request.candidates ==>
         o.text in CandidateTexts(cases[i].request.caseId.record)
  }

  lemma {:induction false} ChosenAreOffered(
    base: string, cases: seq<SelectionCase>, decisions: seq<Decision>, choices: seq<Choice>)
    requires Offering(cases) && AllChosen(base, cases, decisions, choices)
    ensures OfferedTexts(choices)
  {
    forall i | 0 <= i < |choices| ensures choices[i].text in CandidateTexts(choices[i].record) {
      var d := decisions[i];
      assert ChoiceOf(base, cases, d) == Some(choices[i]);
      CaseWithFound(cases, d.caseId);
      var item := CaseWith(cases, d.caseId).value;
      OptionTextFound(item.request.candidates, d.candidateId);
    }
  }

  /** What the selection loop keeps after the first batches. */
  ghost predicate Staged(
    base: string, planned: seq<Edit>, overBudget: seq<Component>, batches: seq<Batch>, answers: seq<Answer>,
    accepted: seq<Edit>, reviews: seq<Component>, choices: seq<Choice>)
    requires |batches| == |answers|
  {
    && accepted == planned + PatchesOf(choices)
    && reviews == overBudget + FailedRecords(base, batches, answers)
    && OfferedTexts(choices)
    && Balanced(overBudget, batches, reviews, choices)
  }

  lemma {:induction false} RecordsAppend(x: seq<SelectionCase>, y: seq<SelectionCase>)
    ensures RecordsOf(x + y) == RecordsOf(x) + RecordsOf(y)
  {
  }

  lemma {:induction false} StageStep(
    base: string, planned: seq<Edit>, overBudget: seq<Component>, batches: seq<Batch>, answers: seq<Answer>,
    accepted: seq<Edit>, reviews: seq<Component>, choices: seq<Choice>, batch: Batch, answer: Answer,
    more: seq<Choice>, failed: seq<Component>)
    requires |batches| == |answers|
    requires Staged(base, planned, overBudget, batches, answers, accepted, reviews, choices)
    requires OfferedTexts(more) && multiset(ChosenRecords(more)) + multiset(failed) == multiset(RecordsOf(batch.cases))
    requires failed == if Selected(base, batch, answer) then [] else RecordsOf(batch.cases)
    ensures Staged(base, planned, overBudget, batches + [batch], answers + [answer],
                   accepted + PatchesOf(more), reviews + failed, choices + more)
  {
    FailedStep(base, batches, answers, batch, answer);
    Associate(overBudget, FailedRecords(base, batches, answers), failed);
    ChoicesAppend(choices, more);
    Associate(planned, PatchesOf(choices), PatchesOf(more));
    BalanceStep(overBudget, batches, reviews, choices, batch, more, failed);
  }

  lemma {:induction false} Associate<T>(x: seq<T>, y: seq<T>, z: seq<T>)
    ensures (x + y) + z == x + (y + z)
  {
  }

  /** Choices and reviews together are the over-budget cases and the batched ones. */
  ghost predicate Balanced(
    overBudget: seq<Component>, batches: seq<Batch>, reviews: seq<Component>, choices: seq<Choice>)
  {
    multiset(ChosenRecords(choices)) + multiset(reviews)
    == multiset(overBudget) + multiset(RecordsOf(CasesIn(batches)))
  }

  lemma {:induction false} BalanceStep(
    overBudget: seq<Component>, batches: seq<Batch>, reviews: seq<Component>, choices: seq<Choice>,
    batch: Batch, more: seq<Choice>, failed: seq<Component>)
    requires Balanced(overBudget, batches, reviews, choices)
    requires multiset(ChosenRecords(more)) + multiset(failed) == multiset(RecordsOf(batch.cases))
    ensures Balanced(overBudget, batches + [batch], reviews + failed, choices + more)
  {
    ChoicesAppend(choices, more);
    CasesAppend(batches, batch);
    var a, b := multiset(ChosenRecords(choices)), multiset(reviews);
    var c, d := multiset(ChosenRecords(more)), multiset(failed);
    Regroup(a, b, c, d);
    Regroup(multiset(overBudget), multiset(RecordsOf(CasesIn(batches))), multiset{}, multiset(RecordsOf(batch.cases)));
  }

  lemma {:induction false} Regroup<T>(a: multiset<T>, b: multiset<T>, c: multiset<T>, d: multiset<T>)
    ensures (a + c) + (b + d) == (a + b) + (c + d)
    ensures a + multiset{} == a
  {
  }

  lemma {:induction false} FailedStep(
    base: string, batches: seq<Batch>, answers: seq<Answer>, batch: Batch, answer: Answer)
    requires |batches| == |answers|
    ensures FailedRecords(base, batches + [batch], answers + [answer])
            == FailedRecords(base, batches, answers)
               + if Selected(base, batch, answer) then [] else RecordsOf(batch.cases)
  {
    assert (batches + [batch])[..|batches|] == batches && (answers + [answer])[..|batches|] == answers;
  }

  lemma {:induction false} ChoicesAppend(x: seq<Choice>, y: seq<Choice>)
    ensures PatchesOf(x + y) == PatchesOf(x) + PatchesOf(y)
    ensures ChosenRecords(x + y) == ChosenRecords(x) + ChosenRecords(y)
    ensures OfferedTexts(x) && OfferedTexts(y) ==> OfferedTexts(x + y)
  {
  }

  lemma {:induction false} CasesAppend(batches: seq<Batch>, batch: Batch)
    ensures multiset(RecordsOf(CasesIn(batches + [batch])))
            == multiset(RecordsOf(CasesIn(batches))) + multiset(RecordsOf(batch.cases))
  {
    assert (batches + [batch])[..|batches|] == batches;
    RecordsAppend(CasesIn(batches), batch.cases);
  }

  lemma {:induction false} NothingHeededYet()
    ensures Heeded([], [], [])
  {
  }

  /**
   * _selection_stage: each batch is settled as a whole or goes to review as a whole. Every case of the
   * plan ends up exactly once among the choices, the failed batches or the over-budget reviews.
   */
  method SelectionStage(
    base: string, planned: seq<Edit>, overBudget: seq<Component>, batches: seq<Batch>, answers: seq<Answer>)
    returns (accepted: seq<Edit>, reviews: seq<Component>, ghost choices: seq<Choice>)
    requires |answers| == |batches|
    requires forall b :: 0 <= b < |batches| ==> ValidBatch(batches[b]) && Offering(batches[b].cases)
    ensures Staged(base, planned, overBudget, batches, answers, accepted, reviews, choices)
    ensures planned <= accepted && overBudget <= reviews
    ensures (forall b :: 0 <= b < |batches| ==> OnBase(base, batches[b].cases)) ==> Heeded(batches, answers, choices)
  {
    hide Heeded, Answered, OnBase, ValidBatch, Offering;
    accepted, reviews, choices := planned, overBudget, [];
    assert planned + [] == planned && overBudget + [] == overBudget;
    ghost var onBase := forall b :: 0 <= b < |batches| ==> OnBase(base, batches[b].cases);
    NothingHeededYet();
    var b := 0;
    while b < |batches|
      invariant 0 <= b <= |batches|
      invariant Staged(base, planned, overBudget, batches[..b], answers[..b], accepted, reviews, choices)
      invariant planned <= accepted && overBudget <= reviews
      invariant onBase ==> Heeded(batches[..b], answers[..b], choices)
    {
      var batch, answer := batches[b], answers[b];
      var patches, failed, more := SettleBatch(base, batch, answer);
      StageStep(base, planned, overBudget, batches[..b], answers[..b], accepted, reviews, choices,
                batch, answer, more, failed);
      if onBase {
        HeedStep(batches[..b], answers[..b], choices, batch, answer, more);
      }
      TakeSnoc(batches, b);
      TakeSnoc(answers, b);
      accepted, reviews, choices := accepted + patches, reviews + failed, choices + more;
      b := b + 1;
    }
    assert batches[..b] == batches && answers[..b] == answers;
  }

  /** Every accepted answer is heeded, decision by decision, and nothing else is chosen. */
  ghost predicate Heeded(batches: seq<Batch>, answers: seq<Answer>, choices: seq<Choice>)
    requires |batches| == |answers|
  {
    && (forall c :: c in choices ==> exists b :: 0 <= b < |batches| && Named(batches[b], answers[b], c))
    && (forall b :: 0 <= b < |batches| ==> AllTaken(batches[b], answers[b], choices))
  }

  ghost predicate AllTaken(batch: Batch, answer: Answer, choices: seq<Choice>) {
    Accepted(batch, answer) ==>
      forall d :: d in answer.value ==> exists c :: c in choices && TakenFrom(batch.cases, d, c)
  }

  /** The answer decides every case of the batch once, with one of its options. */
  ghost predicate Accepted(batch: Batch, answer: Answer)
    ensures Accepted(batch, answer) ==> answer.Some?
  {
    answer.Some? && DecisionsCover(answer.value, batch.request)
  }

  /** Some decision of the accepted answer says exactly this. */
  ghost predicate Named(batch: Batch, answer: Answer, c: Choice) {
    Accepted(batch, answer) && exists d :: d in answer.value && TakenFrom(batch.cases, d, c)
  }

  /** One batch: what its answer names when it is accepted, and nothing otherwise. */
  ghost predicate Answered(batch: Batch, answer: Answer, choices: seq<Choice>) {
    if Accepted(batch, answer) then
      && |choices| == |answer.value|
      && forall i :: 0 <= i < |choices| ==> TakenFrom(batch.cases, answer.value[i], choices[i])
    else choices == []
  }

  lemma {:induction false} AnsweredIsNamed(batch: Batch, answer: Answer, more: seq<Choice>)
    requires Answered(batch, answer, more)
    ensures forall c :: c in more ==> Named(batch, answer, c)
    ensures AllTaken(batch, answer, more)
  {
    hide TakenFrom, DecisionsCover;
    forall c | c in more
      ensures Named(batch, answer, c)
    {
      var i :| 0 <= i < |more| && more[i] == c;
      assert answer.value[i] in answer.value;
    }
    if Accepted(batch, answer) {
      forall d | d in answer.value
        ensures exists c :: c in more && TakenFrom(batch.cases, d, c)
      {
        var i :| 0 <= i < |answer.value| && answer.value[i] == d;
        assert more[i] in more;
      }
    }
  }

  lemma {:induction false} MoreAreTaken(batch: Batch, answer: Answer, choices: seq<Choice>, all: seq<Choice>)
    requires AllTaken(batch, answer, choices) && forall c :: c in choices ==> c in all
    ensures AllTaken(batch, answer, all)
  {
    hide TakenFrom, DecisionsCover;
    if Accepted(batch, answer) {
      forall d | d in answer.value
        ensures exists c :: c in all && TakenFrom(batch.cases, d, c)
      {
        var c :| c in choices && TakenFrom(batch.cases, d, c);
      }
    }
  }

  lemma {:induction false} HeedStep(
    batches: seq<Batch>, answers: seq<Answer>, choices: seq<Choice>, batch: Batch, answer: Answer, more: seq<Choice>)
    requires |batches| == |answers| && Heeded(batches, answers, choices) && Answered(batch, answer, more)
    ensures Heeded(batches + [batch], answers + [answer], choices + more)
  {
    hide Accepted, TakenFrom, Named, AllTaken, Answered;
    var allBatches, allAnswers := batches + [batch], answers + [answer];
    AnsweredIsNamed(batch, answer, more);
    forall c | c in choices + more
      ensures exists b :: 0 <= b < |allBatches| && Named(allBatches[b], allAnswers[b], c)
    {
      if c in choices {
        var b :| 0 <= b < |batches| && Named(batches[b], answers[b], c);
        assert Named(allBatches[b], allAnswers[b], c);
      } else {
        assert Named(allBatches[|batches|], allAnswers[|batches|], c);
      }
    }
    forall b | 0 <= b < |allBatches|
      ensures AllTaken(allBatches[b], allAnswers[b], choices + more)
    {
      MoreAreTaken(allBatches[b], allAnswers[b], if b < |batches| then choices else more, choices + more);
    }
  }

  /** One batch: its patches, or all of its cases for review when the provider or its answer fails. */
  method SettleBatch(base: string, batch: Batch, answer: Answer)
    returns (patches: seq<Edit>, failed: seq<Component>, ghost choices: seq<Choice>)
    requires ValidBatch(batch) && Offering(batch.cases)
    ensures patches == PatchesOf(choices) && OfferedTexts(choices)
    ensures failed == if Selected(base, batch, answer) then [] else RecordsOf(batch.cases)
    ensures multiset(ChosenRecords(choices)) + multiset(failed) == multiset(RecordsOf(batch.cases))
    ensures OnBase(base, batch.cases) ==> Answered(batch, answer, choices)
  {
    hide *;
    OfferingIsIdentified(batch.cases);
    AnswerIsHeeded(base, batch, answer);
    if answer.None? {
      Unanswered(base, batch);
      return [], RecordsOf(batch.cases), [];
    }
    var applied;
    applied, choices := ApplySelections(base, batch, answer.value);
    SelectedMeans(base, batch, answer.value, choices);
    if applied.Err? {
      choices := [];
      Unanswered(base, batch);
      return [], RecordsOf(batch.cases), choices;
    }
    BatchSettled(base, batch, answer.value, choices);
    ChosenAreOffered(base, batch.cases, answer.value, choices);
    return applied.value, [], choices;
  }

  /** On the Base text that its cases record, an answer is taken exactly when it is accepted, and as it says. */
  lemma {:induction false} AnswerIsHeeded(base: string, batch: Batch, answer: Answer)
    requires ValidBatch(batch) && Identified(batch.cases)
    ensures OnBase(base, batch.cases) ==> (Selected(base, batch, answer) <==> Accepted(batch, answer))
    ensures forall choices ::
              Accepted(batch, answer) && AllChosen(base, batch.cases, answer.value, choices) ==>
                Answered(batch, answer, choices)
    ensures !Accepted(batch, answer) ==> Answered(batch, answer, [])
  {
    hide ValidBatch, Identified, AllChosen, TakenFrom, ChoiceOf;
    if OnBase(base, batch.cases) && Accepted(batch, answer) {
      CoveringIsChosen(base, batch, answer.value);
    }
    forall choices | Accepted(batch, answer) && AllChosen(base, batch.cases, answer.value, choices)
      ensures Answered(batch, answer, choices)
    {
      ChosenAreTaken(base, batch.cases, answer.value, choices);
    }
  }

  lemma {:induction false} OfferingIsIdentified(cases: seq<SelectionCase>)
    requires Offering(cases)
    ensures Identified(cases)
  {
  }

  lemma {:induction false} Unanswered(base: string, batch: Batch)
    ensures !Selected(base, batch, None) && PatchesOf([]) == [] && ChosenRecords([]) == [] && OfferedTexts([])
  {
  }

  lemma {:induction false} SelectedMeans(base: string, batch: Batch, decisions: seq<Decision>, choices: seq<Choice>)
    ensures DecisionsCover(decisions, batch.request) && AllChosen(base, batch.cases, decisions, choices) ==>
              Selected(base, batch, Some(decisions))
    ensures !DecisionsCover(decisions, batch.request)
            || (exists i :: 0 <= i < |decisions| && ChoiceOf(base, batch.cases, decisions[i]).None?) ==>
              !Selected(base, batch, Some(decisions))
  {
  }

  // ----- resolve_review -----

  /** `Malformed` is a decision that is no mapping, or whose fields are not those of its action. */
  datatype Action = Keep | Use(source: Source) | Replace(text: string) | Unknown | Malformed

  datatype ReviewDecision = ReviewDecision(item: Component, action: Action)

  /** The human choice for one item: none for keep, else a whole candidate or the replacement. */
  function ReviewChoice(base: string, d: ReviewDecision): Result<seq<Choice>> {
    match d.action
    case Keep => Ok([])
    case Use(source) =>
      if source in {Qwen, Kimi, Peer} && source in d.item.candidates
      then Ok([Choice(d.item, d.item.candidates[source].text, Human)])
      else Err(ContractError)
    case Replace(text) =>
      if Slice(base, d.item.start, d.item.end) == d.item.original
      then Ok([Choice(d.item, text, Human)])
      else Err(IntegrityError)
    case Unknown => Err(ContractError)
    case Malformed => Err(ContractError)
  }

  /** The human choices in decision order, or the first error. */
  function ReviewChoices(base: string, decisions: seq<ReviewDecision>): Result<seq<Choice>> {
    if decisions == [] then Ok([])
    else
      var n := |decisions| - 1;
      match ReviewChoices(base, decisions[..n])
      case Err(e) => Err(e)
      case Ok(before) =>
        match ReviewChoice(base, decisions[n])
        case Err(e) => Err(e)
        case Ok(more) => Ok(before + more)
  }

  function ReviewedItems(decisions: seq<ReviewDecision>): (r: seq<Component>)
    ensures |r| == |decisions| && forall i :: 0 <= i < |decisions| ==> r[i] == decisions[i].item
  {
    seq(|decisions|, i requires 0 <= i < |decisions| => decisions[i].item)
  }

  /** A human edit records the Base text itself as its original. */
  function ManualEdits(base: string, choices: seq<Choice>): (r: seq<Edit>)
    ensures |r| == |choices|
    ensures forall i :: 0 <= i < |choices| ==> r[i] == ManualEdit(base, choices[i])
  {
    seq(|choices|, i requires 0 <= i < |choices| => ManualEdit(base, choices[i]))
  }

  function ManualEdit(base: string, c: Choice): Edit {
    Edit(c.record.start, c.record.end, Slice(base, c.record.start, c.record.end), c.text, c.reason)
  }

  /** Whether decisions name every queued item exactly once. */
  ghost predicate Covers(decisions: seq<ReviewDecision>, items: seq<Component>) {
    IsOrdering(ReviewedItems(decisions), set c | c in items)
  }

  ghost function Reviewed(
    base: string, edits: seq<Edit>, items: seq<Component>, decisions: seq<ReviewDecision>): Result<string>
  {
    if !Covers(decisions, items) then Err(ContractError)
    else
      match ReviewChoices(base, decisions)
      case Err(e) => Err(e)
      case Ok(manual) => Applied(base, edits + ManualEdits(base, manual))
  }

  method CheckCoverage(decisions: seq<ReviewDecision>, items: seq<Component>) returns (ok: bool)
    ensures ok <==> Covers(decisions, items)
  {
    var ids := ReviewedItems(decisions);
    var distinct: set<Component> := set c | c in ids;
    OrderingCount(ids);
    var expected: set<Component> := set c | c in items;
    assert distinct == expected <==> forall c :: c in ids <==> c in expected;
    return |ids| == |distinct| && distinct == expected;
  }

  lemma {:induction false} DistinctCons<T(!new)>(s: seq<T>)
    requires s != []
    ensures Distinct(s) <==> s[0] !in s[1..] && Distinct(s[1..])
  {
    var rest := s[1..];
    if Distinct(s) {
      forall i, j | 0 <= i < j < |rest| ensures rest[i] != rest[j] {
        assert rest[i] == s[i + 1] && rest[j] == s[j + 1];
      }
      forall k | 0 <= k < |rest| ensures rest[k] != s[0] {
        assert rest[k] == s[k + 1];
      }
    }
    if s[0] !in rest && Distinct(rest) {
      forall i, j | 0 <= i < j < |s| ensures s[i] != s[j] {
        assert s[j] == rest[j - 1];
      }
    }
  }

  /** `len(ids) == len(set(ids))` says that no id is repeated. */
  lemma {:induction false} OrderingCount<T(!new)>(s: seq<T>)
    ensures |set x | x in s| <= |s|
    ensures |set x | x in s| == |s| <==> Distinct(s)
  {
    if s == [] {
      assert (set x | x in s) == {};
    } else {
      hide Distinct;
      var rest := s[1..];
      OrderingCount(rest);
      DistinctCons(s);
      var all, others := set x | x in s, set x | x in rest;
      assert s == [s[0]] + rest;
      assert all == others + {s[0]};
      if s[0] in others {
        assert all == others;
      }
    }
  }

  /** The review queue and the resolution that are active when the decisions arrive. */
  datatype Queue = Queue(
    id: string, needsReview: bool, boundResolution: string, resolutionId: string, sealed: bool)

  predicate IsCurrent(queue: Queue, expected: string) {
    && queue.id == expected && queue.needsReview
    && queue.boundResolution == queue.resolutionId && !queue.sealed
  }

  predicate WellFormed(decisions: seq<ReviewDecision>) {
    forall i :: 0 <= i < |decisions| ==> decisions[i].action != Malformed
  }

  method CheckFields(decisions: seq<ReviewDecision>) returns (ok: bool)
    ensures ok <==> WellFormed(decisions)
  {
    for i := 0 to |decisions|
      invariant WellFormed(decisions[..i])
    {
      if decisions[i].action == Malformed {
        return false;
      }
    }
    assert decisions[..|decisions|] == decisions;
    return true;
  }

  /** resolve_review up to the corrected text. */
  method ResolveReview(
    queue: Queue, expected: string, base: string, edits: seq<Edit>, items: seq<Component>,
    decisions: seq<ReviewDecision>)
    returns (r: Result<string>)
    ensures r == if IsCurrent(queue, expected) && WellFormed(decisions) then Reviewed(base, edits, items, decisions)
                 else Err(ContractError)
  {
    if queue.id != expected || !queue.needsReview {
      return Err(ContractError);
    }
    if queue.resolutionId != queue.boundResolution || queue.sealed {
      return Err(ContractError);
    }
    var formed := CheckFields(decisions);
    if !formed {
      return Err(ContractError);
    }
    var covered := CheckCoverage(decisions, items);
    if !covered {
      return Err(ContractError);
    }
    var manual: seq<Edit> := [];
    ghost var choices: seq<Choice> := [];
    var i := 0;
    while i < |decisions|
      invariant 0 <= i <= |decisions|
      invariant ReviewChoices(base, decisions[..i]) == Ok(choices) && manual == ManualEdits(base, choices)
    {
      var d := decisions[i];
      TakeSnoc(decisions, i);
      var chosen := ReviewChoice(base, d);
      if chosen.Err? {
        ReviewStops(base, decisions, i);
        return Err(chosen.error);
      }
      choices := choices + chosen.value;
      manual := manual + ManualEdits(base, chosen.value);
      i := i + 1;
    }
    assert decisions[..i] == decisions;
    r := ApplyResolvedPayload(base, edits + manual);
  }

  lemma {:induction false} ReviewStops(base: string, decisions: seq<ReviewDecision>, i: nat)
    requires i < |decisions|
    requires ReviewChoices(base, decisions[..i]).Ok? && ReviewChoice(base, decisions[i]).Err?
    ensures ReviewChoices(base, decisions) == Err(ReviewChoice(base, decisions[i]).error)
    decreases |decisions|
  {
    var n := |decisions| - 1;
    if i < n {
      assert decisions[..n][..i] == decisions[..i];
      ReviewStops(base, decisions[..n], i);
    }
  }

  // ----- the stages together -----

  lemma {:induction false} FaithfulOffers(
    maps: Maps, config: Config, c: Component, texts: seq<string>, sources: seq<Source>, item: SelectionCase)
    requires IsOrdering(texts, CandidateTexts(c)) && Faithful(maps, config, c, texts, sources, item)
    ensures Offering([item])
  {
    forall o | o in item.request.candidates ensures o.text in CandidateTexts(c) {
      var i :| 0 <= i < |texts| && OptionsOf(texts)[i] == o;
      assert texts[i] in texts;
    }
  }

  /** Every emitted item offers the texts of its own case. */
  lemma {:induction false} EmittedOffer(
    maps: Maps, config: Config, cases: seq<Component>, orders: Orders, items: seq<SelectionCase>)
    requires OrdersAll(orders) && Emitted(maps, config, cases, orders, items)
    ensures forall item :: item in items ==> Offering([item])
    ensures RecordsOf(items) == cases
  {
    forall i | 0 <= i < |items| ensures Offering([items[i]]) && items[i].request.caseId.record == cases[i] {
      FaithfulOffers(maps, config, cases[i], orders.texts(cases[i]), orders.sources(cases[i]), items[i]);
    }
  }

  lemma {:induction false} OfferEach(cases: seq<SelectionCase>)
    requires forall item :: item in cases ==> Offering([item])
    ensures Offering(cases)
  {
    forall i | 0 <= i < |cases|
      ensures Offering([cases[i]]) && [cases[i]][0] == cases[i]
    {
      assert cases[i] in cases;
    }
  }

  lemma {:induction false} InBatch(batches: seq<Batch>, b: nat, item: SelectionCase)
    requires b < |batches| && item in batches[b].cases
    ensures item in CasesIn(batches)
  {
    var n := |batches| - 1;
    if b < n {
      InBatch(batches[..n], b, item);
    }
  }

  lemma {:induction false} BatchesOffer(
    maps: Maps, cases: seq<Component>, orders: Orders, items: seq<SelectionCase>, batches: seq<Batch>,
    size: Size, config: Config)
    requires OrdersAll(orders) && Emitted(maps, config, cases, orders, items)
    requires CasesIn(batches) == Fitting(items, size, config)
    ensures forall b :: 0 <= b < |batches| ==> Offering(batches[b].cases)
  {
    EmittedOffer(maps, config, cases, orders, items);
    forall b | 0 <= b < |batches| ensures Offering(batches[b].cases) {
      forall item | item in batches[b].cases ensures Offering([item]) {
        InBatch(batches, b, item);
        var k :| 0 <= k < |CasesIn(batches)| && CasesIn(batches)[k] == item;
        FittingFrom(items, size, config, k);
      }
      OfferEach(batches[b].cases);
    }
  }

  /** Choices and reviews that together are the cases of a plan, each once. */
  ghost predicate Settled(cases: seq<Component>, choices: seq<Choice>, reviews: seq<Component>) {
    multiset(ChosenRecords(choices)) + multiset(reviews) == multiset(cases)
  }

  lemma {:induction false} DistinctCounts<T(!new)>(s: seq<T>)
    ensures Distinct(s) <==> forall e :: e in s ==> multiset(s)[e] == 1
  {
    if Distinct(s) {
      forall e | e in s ensures multiset(s)[e] == 1 {
        CountInDistinct(s, e);
      }
    }
    if forall e :: e in s ==> multiset(s)[e] == 1 {
      forall i, j | 0 <= i < j < |s| ensures s[i] != s[j] {
        if s[i] == s[j] { CountTwice(s, i, j); }
      }
    }
  }

  /** The choices of a settled plan are for different cases of it. */
  lemma {:induction false} SettledChoices(cases: seq<Component>, choices: seq<Choice>, reviews: seq<Component>)
    requires Distinct(cases) && Settled(cases, choices, reviews)
    ensures ChoicesOf(cases, choices)
  {
    var records := ChosenRecords(choices);
    DistinctCounts(cases);
    forall e | e in records ensures multiset(records)[e] == 1 && e in cases {
      assert e in multiset(records) && e in multiset(cases);
    }
    DistinctCounts(records);
    forall i | 0 <= i < |choices| ensures choices[i].record in cases {
      assert records[i] in records;
    }
  }

  /**
   * Merge, batch, select and apply. For every answer of the provider to every batch, no step raises;
   * each case of the plan is settled exactly once, by a patch or by a review item; and the preview is Base with every
   * component replaced, as a whole, by its accepted text or by one of its own candidates.
   */
  method MergeAndSelect(
    base: string, peer: string, qwen: string, kimi: string, diff: Differ,
    size: Size, config: Config, orders: Orders, provider: Batch -> Answer)
    returns (edits: seq<Edit>, reviews: seq<Component>, preview: Result<string>,
             ghost choices: seq<Choice>, batches: seq<Batch>)
    requires DiffContract(diff) && OrdersAll(orders) && 1 <= config.maxCases <= DEFAULT_CONFIG.maxCases
    ensures var q, k, p := MapOf(diff, base, qwen), MapOf(diff, base, kimi), MapOf(diff, base, peer);
      && Settled(PlanOf(q, k, p).cases, choices, reviews) && OfferedTexts(choices)
      && edits == PlanOf(q, k, p).resolvedEdits + PatchesOf(choices)
      && preview == Ok(FinalText(q, k, p, choices))
    ensures preview.Ok? && preview == Applied(base, edits)
    ensures HeedsProvider(base, batches, provider, choices)
  {
    hide *;
    var planned := BuildMergePlan(base, peer, qwen, kimi, diff);
    var plan := planned.value;
    var q, k, p := MapOf(diff, base, qwen), MapOf(diff, base, kimi), MapOf(diff, base, peer);
    var maps := map[Base := MapOf(diff, base, base), Qwen := q, Kimi := k, Peer := p];
    SourcesReady(diff, base, peer, qwen, kimi);
    edits, reviews, choices, batches := SelectPlan(maps, plan, size, config, orders, provider);
    SettledApply(q, k, p, choices, reviews, edits);
    PlanBase(q, k, p);
    assert q.base == base by {
      MapHasBase(diff, base, qwen);
    }
    preview := ApplyResolvedPayload(base, edits);
  }

  lemma {:induction false} MapHasBase(diff: Differ, base: string, variant: string)
    ensures MapOf(diff, base, variant).base == base
  {
  }

  /** Accepted edits and the patches of a settled plan apply. */
  lemma {:induction false} SettledApply(
    q: TextMap, k: TextMap, p: TextMap, choices: seq<Choice>, reviews: seq<Component>, edits: seq<Edit>)
    requires Arms(q, k) && Settled(PlanOf(q, k, p).cases, choices, reviews)
    requires edits == PlanOf(q, k, p).resolvedEdits + PatchesOf(choices)
    ensures Applied(q.base, edits) == Ok(FinalText(q, k, p, choices))
  {
    hide Applied, FinalText, Settled, ChoicesOf, ComponentSpans, Arms;
    Decomposition(q, k);
    PlanCasesDistinct(q, k, p, ComponentSpans(q, k));
    SettledChoices(PlanOf(q, k, p).cases, choices, reviews);
    EditsGiveFinalText(q, k, p, choices, edits);
  }

  /** Batching and selection of one plan. */
  method SelectPlan(
    maps: Maps, plan: Plan, size: Size, config: Config, orders: Orders, provider: Batch -> Answer)
    returns (edits: seq<Edit>, reviews: seq<Component>, ghost choices: seq<Choice>, batches: seq<Batch>)
    requires Sources(maps) && plan == PlanOf(maps[Qwen], maps[Kimi], maps[Peer])
    requires OrdersAll(orders) && 1 <= config.maxCases <= DEFAULT_CONFIG.maxCases
    ensures Settled(plan.cases, choices, reviews) && OfferedTexts(choices)
    ensures edits == plan.resolvedEdits + PatchesOf(choices)
    ensures plan.resolvedEdits <= edits
    ensures HeedsProvider(plan.baseText, batches, provider, choices)
  {
    hide CandidateOf, Heeded, OnBase, ValidBatch, Packed, CasesIn, Fitting, OverBudget, Emitted, CasesOf, PlanOf,
         Settled;
    hide OfferedTexts, OrdersAll, Offering, Balanced, FailedRecords;
    PlanIsReady(maps);
    var overBudget;
    ghost var items;
    batches, overBudget, items := BuildSelectionBatches(maps, plan.cases, size, config, orders);
    BatchesOffer(maps, plan.cases, orders, items, batches, size, config);
    BatchesOnBase(maps, plan.cases, orders, items, batches, size, config);
    PlanBase(maps[Qwen], maps[Kimi], maps[Peer]);
    var answers := seq(|batches|, b requires 0 <= b < |batches| => provider(batches[b]));
    edits, reviews, choices := SelectionStage(plan.baseText, plan.resolvedEdits, overBudget, batches, answers);
    StageSettles(maps, plan.cases, orders, items, size, config, overBudget, batches, reviews, choices);
  }

  /** The provider is asked about valid batches on this Base text, and its accepted answers are heeded. */
  ghost predicate HeedsProvider(
    base: string, batches: seq<Batch>, provider: Batch -> Answer, choices: seq<Choice>)
  {
    && (forall b :: 0 <= b < |batches| ==> ValidBatch(batches[b]) && OnBase(base, batches[b].cases))
    && Heeded(batches, seq(|batches|, b requires 0 <= b < |batches| => provider(batches[b])), choices)
  }

  lemma {:induction false} BatchesOnBase(
    maps: Maps, cases: seq<Component>, orders: Orders, items: seq<SelectionCase>, batches: seq<Batch>,
    size: Size, config: Config)
    requires Sources(maps) && CasesOf(maps, cases) && Emitted(maps, config, cases, orders, items)
    requires CasesIn(batches) == Fitting(items, size, config)
    ensures forall b :: 0 <= b < |batches| ==> OnBase(maps[Base].base, batches[b].cases)
  {
    hide Faithful, CasesIn, Fitting, ItemFits, CandidateOf;
    ItemsOnBase(maps, config, cases, orders, items);
    forall b, item | 0 <= b < |batches| && item in batches[b].cases
      ensures Slice(maps[Base].base, item.start, item.end) == item.original
    {
      InBatch(batches, b, item);
      var k :| 0 <= k < |CasesIn(batches)| && CasesIn(batches)[k] == item;
      FittingFrom(items, size, config, k);
    }
  }

  lemma {:induction false} ItemsOnBase(
    maps: Maps, config: Config, cases: seq<Component>, orders: Orders, items: seq<SelectionCase>)
    requires Sources(maps) && CasesOf(maps, cases) && Emitted(maps, config, cases, orders, items)
    ensures OnBase(maps[Base].base, items)
  {
    hide VersionsDone, CandidateOf;
    forall i | 0 <= i < |items|
      ensures Slice(maps[Base].base, items[i].start, items[i].end) == items[i].original
    {
      assert Faithful(maps, config, cases[i], orders.texts(cases[i]), orders.sources(cases[i]), items[i]);
      assert CaseOf(maps, cases[i]);
    }
  }

  lemma {:induction false} PlanBase(q: TextMap, k: TextMap, p: TextMap)
    ensures PlanOf(q, k, p).baseText == q.base
  {
  }

  lemma {:induction false} SourcesReady(diff: Differ, base: string, peer: string, qwen: string, kimi: string)
    requires DiffContract(diff)
    ensures Arms(MapOf(diff, base, qwen), MapOf(diff, base, kimi))
    ensures Sources(map[Base := MapOf(diff, base, base), Qwen := MapOf(diff, base, qwen),
                        Kimi := MapOf(diff, base, kimi), Peer := MapOf(diff, base, peer)])
  {
    assert MapOf(diff, base, base).WellFormed() && MapOf(diff, base, peer).WellFormed();
    assert MapOf(diff, base, qwen).WellFormed() && MapOf(diff, base, kimi).WellFormed();
  }

  lemma {:induction false} StageSettles(
    maps: Maps, cases: seq<Component>, orders: Orders, items: seq<SelectionCase>, size: Size, config: Config,
    overBudget: seq<Component>, batches: seq<Batch>, reviews: seq<Component>, choices: seq<Choice>)
    requires OrdersAll(orders) && Emitted(maps, config, cases, orders, items)
    requires CasesIn(batches) == Fitting(items, size, config) && overBudget == OverBudget(items, size, config)
    requires Balanced(overBudget, batches, reviews, choices)
    ensures Settled(cases, choices, reviews)
  {
    EmittedOffer(maps, config, cases, orders, items);
    NothingLost(items, size, config);
  }

  // ----- after the human review -----

  lemma {:induction false} ReviewedFrom(base: string, decisions: seq<ReviewDecision>)
    requires ReviewChoices(base, decisions).Ok? && Distinct(ReviewedItems(decisions))
    ensures var manual := ReviewChoices(base, decisions).value;
      && Distinct(ChosenRecords(manual))
      && forall i :: 0 <= i < |manual| ==> manual[i].record in ReviewedItems(decisions)
    decreases |decisions|
  {
    if decisions != [] {
      var n := |decisions| - 1;
      var items := ReviewedItems(decisions);
      assert ReviewedItems(decisions[..n]) == items[..n];
      ReviewedFrom(base, decisions[..n]);
      var before := ReviewChoices(base, decisions[..n]).value;
      var more := ReviewChoice(base, decisions[n]).value;
      assert forall i :: 0 <= i < |more| ==> more[i].record == items[n];
      forall i | 0 <= i < |before| ensures before[i].record in items && before[i].record != items[n] {
        assert before[i].record in items[..n];
        var j :| 0 <= j < n && items[..n][j] == before[i].record;
        assert items[j] == before[i].record;
      }
      assert ChosenRecords(before + more) == ChosenRecords(before) + ChosenRecords(more);
    }
  }

  lemma {:induction false} TogetherDistinct(
    cases: seq<Component>, choices: seq<Choice>, reviews: seq<Component>, manual: seq<Choice>)
    requires Distinct(cases) && Settled(cases, choices, reviews)
    requires Distinct(ChosenRecords(manual)) && forall i :: 0 <= i < |manual| ==> manual[i].record in reviews
    ensures ChoicesOf(cases, choices + manual)
  {
    SettledChoices(cases, choices, reviews);
    DistinctCounts(cases);
    var x, y := ChosenRecords(choices), ChosenRecords(manual);
    assert ChosenRecords(choices + manual) == x + y;
    forall i | 0 <= i < |manual| ensures manual[i].record in cases && manual[i].record !in x {
      var e := manual[i].record;
      assert e in multiset(reviews) && e in multiset(cases);
      assert multiset(x)[e] + multiset(reviews)[e] == 1;
      assert multiset(x)[e] == 0;
    }
    forall i, j | 0 <= i < j < |x + y| ensures (x + y)[i] != (x + y)[j] {
      if i < |x| && j >= |x| {
        assert (x + y)[j] == manual[j - |x|].record;
        assert x[i] in x;
      }
    }
  }

  lemma {:induction false} ManualArePatches(base: string, manual: seq<Choice>)
    requires forall i :: 0 <= i < |manual| ==>
               Slice(base, manual[i].record.start, manual[i].record.end) == manual[i].record.original
    ensures ManualEdits(base, manual) == PatchesOf(manual)
  {
  }

  /** The cases of a plan record the Base text of their interval. */
  ghost predicate Recorded(base: string, cases: seq<Component>) {
    forall c :: c in cases ==> Slice(base, c.start, c.end) == c.original
  }

  lemma {:induction false} PlanRecords(q: TextMap, k: TextMap, p: TextMap)
    ensures Recorded(q.base, PlanOf(q, k, p).cases)
  {
    var comps := ComponentSpans(q, k);
    var cases := CasesFor(q, k, p, comps);
    forall c | c in cases ensures Slice(q.base, c.start, c.end) == c.original {
      var i :| 0 <= i < |cases| && cases[i] == c;
      var j := CasesComeFrom(q, k, p, comps, i);
      assert CaseFor(q, k, p, comps[j])[0] == c;
    }
  }

  lemma {:induction false} ReviewCoversPlan(
    q: TextMap, k: TextMap, p: TextMap, choices: seq<Choice>, reviews: seq<Component>, decisions: seq<ReviewDecision>)
    requires Arms(q, k) && Settled(PlanOf(q, k, p).cases, choices, reviews)
    requires Covers(decisions, reviews) && ReviewChoices(q.base, decisions).Ok?
    ensures var manual := ReviewChoices(q.base, decisions).value;
            ChoicesOf(PlanOf(q, k, p).cases, choices + manual) && ManualEdits(q.base, manual) == PatchesOf(manual)
  {
    var plan, manual := PlanOf(q, k, p), ReviewChoices(q.base, decisions).value;
    Decomposition(q, k);
    PlanCasesDistinct(q, k, p, ComponentSpans(q, k));
    ReviewedFrom(q.base, decisions);
    forall i | 0 <= i < |manual| ensures manual[i].record in reviews {
      assert manual[i].record in ReviewedItems(decisions);
    }
    TogetherDistinct(plan.cases, choices, reviews, manual);
    PlanRecords(q, k, p);
    RecordedManual(q.base, plan.cases, choices, manual);
    ManualArePatches(q.base, manual);
  }

  lemma {:induction false} EditsTogether(resolved: seq<Edit>, choices: seq<Choice>, manual: seq<Choice>)
    ensures multiset(resolved + PatchesOf(choices) + PatchesOf(manual))
         == multiset(resolved) + multiset(PatchesOf(choices + manual))
  {
    hide PatchesOf;
    ChoicesAppend(choices, manual);
    assert resolved + PatchesOf(choices) + PatchesOf(manual) == resolved + PatchesOf(choices + manual);
  }

  /** An action that the item offers: keep, a replacement, or a source with a mapped candidate. */
  predicate Available(d: ReviewDecision) {
    d.action.Keep? || d.action.Replace?
    || (d.action.Use? && d.action.source != Base && d.action.source in d.item.candidates)
  }

  ghost predicate AllAvailable(decisions: seq<ReviewDecision>) {
    forall i :: 0 <= i < |decisions| ==> Available(decisions[i])
  }

  /** For items that record their Base text, the decisions are taken exactly when they are available. */
  lemma {:induction false} AvailableIsTaken(base: string, decisions: seq<ReviewDecision>)
    requires forall i :: 0 <= i < |decisions| ==>
               Slice(base, decisions[i].item.start, decisions[i].item.end) == decisions[i].item.original
    ensures if AllAvailable(decisions) then ReviewChoices(base, decisions).Ok?
            else ReviewChoices(base, decisions) == Err(ContractError)
    decreases |decisions|
  {
    hide Slice;
    if decisions != [] {
      var n := |decisions| - 1;
      AvailableIsTaken(base, decisions[..n]);
      assert AllAvailable(decisions) <==> AllAvailable(decisions[..n]) && Available(decisions[n]);
    }
  }

  lemma {:induction false} QueuedIsRecorded(
    q: TextMap, k: TextMap, p: TextMap, choices: seq<Choice>, reviews: seq<Component>, decisions: seq<ReviewDecision>)
    requires Settled(PlanOf(q, k, p).cases, choices, reviews) && Covers(decisions, reviews)
    ensures forall i :: 0 <= i < |decisions| ==>
              Slice(q.base, decisions[i].item.start, decisions[i].item.end) == decisions[i].item.original
  {
    hide PlanOf, Slice;
    PlanRecords(q, k, p);
    forall i | 0 <= i < |decisions|
      ensures decisions[i].item in PlanOf(q, k, p).cases
    {
      assert ReviewedItems(decisions)[i] in ReviewedItems(decisions);
      assert decisions[i].item in (set c | c in reviews);
      assert decisions[i].item in multiset(reviews);
      assert decisions[i].item in multiset(PlanOf(q, k, p).cases);
    }
  }

  /**
   * resolve_review: decisions that cover the queue of a plan are refused exactly when one is not available for its
   * item, never for a stale interval; otherwise they apply, and give Base with every component replaced, as a whole,
   * by its accepted text, its selected candidate, or what the human decision put there.
   */
  lemma {:induction false} ReviewGivesFinalText(
    q: TextMap, k: TextMap, p: TextMap, choices: seq<Choice>, reviews: seq<Component>, decisions: seq<ReviewDecision>)
    requires Arms(q, k) && Settled(PlanOf(q, k, p).cases, choices, reviews) && Covers(decisions, reviews)
    ensures ReviewChoices(q.base, decisions).Ok? <==> AllAvailable(decisions)
    ensures Reviewed(q.base, PlanOf(q, k, p).resolvedEdits + PatchesOf(choices), reviews, decisions)
            == if AllAvailable(decisions)
               then Ok(FinalText(q, k, p, choices + ReviewChoices(q.base, decisions).value))
               else Err(ContractError)
  {
    hide *;
    QueuedIsRecorded(q, k, p, choices, reviews, decisions);
    AvailableIsTaken(q.base, decisions);
    if AllAvailable(decisions) {
      TakenGivesFinalText(q, k, p, choices, reviews, decisions);
    } else {
      RefusedIsRefused(q.base, PlanOf(q, k, p).resolvedEdits + PatchesOf(choices), reviews, decisions);
    }
  }

  lemma {:induction false} RefusedIsRefused(
    base: string, edits: seq<Edit>, items: seq<Component>, decisions: seq<ReviewDecision>)
    requires ReviewChoices(base, decisions) == Err(ContractError)
    ensures Reviewed(base, edits, items, decisions) == Err(ContractError)
  {
  }

  lemma {:induction false} TakenGivesFinalText(
    q: TextMap, k: TextMap, p: TextMap, choices: seq<Choice>, reviews: seq<Component>, decisions: seq<ReviewDecision>)
    requires Arms(q, k) && Settled(PlanOf(q, k, p).cases, choices, reviews)
    requires Covers(decisions, reviews) && ReviewChoices(q.base, decisions).Ok?
    ensures Reviewed(q.base, PlanOf(q, k, p).resolvedEdits + PatchesOf(choices), reviews, decisions)
            == Ok(FinalText(q, k, p, choices + ReviewChoices(q.base, decisions).value))
  {
    var plan, manual := PlanOf(q, k, p), ReviewChoices(q.base, decisions).value;
    ReviewCoversPlan(q, k, p, choices, reviews, decisions);
    EditsTogether(plan.resolvedEdits, choices, manual);
    EditsGiveFinalText(q, k, p, choices + manual, plan.resolvedEdits + PatchesOf(choices) + PatchesOf(manual));
  }

  lemma {:induction false} RecordedManual(
    base: string, cases: seq<Component>, choices: seq<Choice>, manual: seq<Choice>)
    requires Recorded(base, cases) && ChoicesOf(cases, choices + manual)
    ensures forall i :: 0 <= i < |manual| ==>
              Slice(base, manual[i].record.start, manual[i].record.end) == manual[i].record.original
  {
    forall i | 0 <= i < |manual|
      ensures Slice(base, manual[i].record.start, manual[i].record.end) == manual[i].record.original
    {
      assert (choices + manual)[|choices| + i] == manual[i];
      assert manual[i].record in cases;
    }
  }

  /** When every case was kept, by selection or by review, the final text is the plan's preview. */
  lemma {:induction false} KeepEverything(
    q: TextMap, k: TextMap, p: TextMap, choices: seq<Choice>, reviews: seq<Component>, decisions: seq<ReviewDecision>)
    requires Arms(q, k) && Settled(PlanOf(q, k, p).cases, choices, reviews) && Covers(decisions, reviews)
    requires forall i :: 0 <= i < |choices| ==> choices[i].text == choices[i].record.original
    requires forall i :: 0 <= i < |decisions| ==> decisions[i].action == Keep
    ensures Reviewed(q.base, PlanOf(q, k, p).resolvedEdits + PatchesOf(choices), reviews, decisions)
            == Ok(PlanOf(q, k, p).correctedPreview)
  {
    KeepChoosesNothing(q.base, decisions);
    ReviewGivesFinalText(q, k, p, choices, reviews, decisions);
    assert choices + [] == choices;
    KeepingIsPreview(q, k, p, choices);
  }

  lemma {:induction false} KeepChoosesNothing(base: string, decisions: seq<ReviewDecision>)
    requires forall i :: 0 <= i < |decisions| ==> decisions[i].action == Keep
    ensures ReviewChoices(base, decisions) == Ok([])
    decreases |decisions|
  {
    if decisions != [] {
      var n := |decisions| - 1;
      KeepChoosesNothing(base, decisions[..n]);
      assert decisions[n].action == Keep;
      var none: seq<Choice> := [];
      assert ReviewChoice(base, decisions[n]) == Ok(none) && none + none == none;
    }
  }
}
