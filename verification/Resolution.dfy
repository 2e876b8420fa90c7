/**
 * Settling the cases of a merge plan: apply_selections of src/cueflow/conflict_selection.py and the
 * selection and review stages of src/cueflow/orchestrator.py.
 */
module Resolution {
  import opened Outcomes
  import opened EditResolution
  import opened TextDiff
  import opened MergePlan
  import opened SelectionBatches

  /** A settled case and the text it gets. */
  datatype Choice = Choice(record: Component, text: string, reason: Reason)

  function PatchOf(c: Choice): Edit {
    Edit(c.record.start, c.record.end, c.record.original, c.text, c.reason)
  }

  // ----- the text that a set of choices stands for -----

  function ChoiceFor(choices: seq<Choice>, record: Component): Option<Choice> {
    if choices == [] then None
    else if choices[0].record == record then Some(choices[0])
    else ChoiceFor(choices[1..], record)
  }

  /** Accepted text, else the chosen text of the case, else Base. */
  function FinalPiece(q: TextMap, k: TextMap, p: TextMap, choices: seq<Choice>, c: Span): Piece {
    var settled, chosen := DecideSpan(q, k, c), ChoiceFor(choices, ComponentOf(q, k, p, c));
    Piece(c.start, c.end,
          if settled.Some? then settled.value
          else if chosen.Some? then chosen.value.text
          else Slice(q.base, c.start, c.end))
  }

  function FinalPieces(q: TextMap, k: TextMap, p: TextMap, choices: seq<Choice>, comps: seq<Span>): (r: seq<Piece>)
    ensures |r| == |comps| && forall j :: 0 <= j < |comps| ==> r[j] == FinalPiece(q, k, p, choices, comps[j])
  {
    seq(|comps|, j requires 0 <= j < |comps| => FinalPiece(q, k, p, choices, comps[j]))
  }

  /** Base with every component replaced, as a whole, by its settled text. */
  function FinalText(q: TextMap, k: TextMap, p: TextMap, choices: seq<Choice>): string {
    Assemble(q.base, 0, FinalPieces(q, k, p, choices, ComponentSpans(q, k)))
  }

  // ----- edits of a component list, in Base order -----

  function ChosenEdit(q: TextMap, k: TextMap, p: TextMap, choices: seq<Choice>, c: Span): seq<Edit> {
    var chosen := ChoiceFor(choices, ComponentOf(q, k, p, c));
    if DecideSpan(q, k, c).Some? || chosen.None? then [] else [PatchOf(chosen.value)]
  }

  function ChosenEdits(q: TextMap, k: TextMap, p: TextMap, choices: seq<Choice>, comps: seq<Span>): seq<Edit> {
    if comps == [] then []
    else ChosenEdit(q, k, p, choices, comps[0]) + ChosenEdits(q, k, p, choices, comps[1..])
  }

  /** The edit of one component, if any: it is settled in one way only. */
  function EditAt(q: TextMap, k: TextMap, p: TextMap, choices: seq<Choice>, c: Span): (r: seq<Edit>)
    ensures |r| <= 1
  {
    EditFor(q, k, c) + ChosenEdit(q, k, p, choices, c)
  }

  function AllEdits(q: TextMap, k: TextMap, p: TextMap, choices: seq<Choice>, comps: seq<Span>): seq<Edit> {
    if comps == [] then [] else EditAt(q, k, p, choices, comps[0]) + AllEdits(q, k, p, choices, comps[1..])
  }

  lemma {:induction false} ChoiceForRecord(choices: seq<Choice>, record: Component)
    ensures ChoiceFor(choices, record).Some? ==>
              ChoiceFor(choices, record).value in choices && ChoiceFor(choices, record).value.record == record
  {
    if choices != [] && choices[0].record != record {
      ChoiceForRecord(choices[1..], record);
    }
  }

  /** What is needed of the edit of one component: it fits, starts the component, and is its final piece. */
  ghost predicate Settles(base: string, c: Span, edit: seq<Edit>, piece: Piece) {
    && piece.start == c.start
    && if edit == [] then IsIdentity(base, piece)
       else |edit| == 1 && Fits(base, edit[0]) && edit[0].start == c.start && ToPiece(edit[0]) == piece
  }

  lemma {:induction false} EditAtSettles(q: TextMap, k: TextMap, p: TextMap, choices: seq<Choice>, c: Span)
    requires c.start <= c.end <= |q.base|
    ensures Settles(q.base, c, EditAt(q, k, p, choices, c), FinalPiece(q, k, p, choices, c))
  {
    ChoiceForRecord(choices, ComponentOf(q, k, p, c));
  }

  /** The edits of a component list fit, ascend, and start no earlier than the list. */
  ghost predicate Ascend(base: string, comps: seq<Span>, edits: seq<Edit>) {
    && Ascending(edits)
    && (forall i :: 0 <= i < |edits| ==> Fits(base, edits[i]))
    && (forall i :: 0 <= i < |edits| ==> comps != [] && comps[0].start <= edits[i].start)
  }

  lemma {:induction false} AscendCons(base: string, comps: seq<Span>, head: seq<Edit>, piece: Piece, rest: seq<Edit>)
    requires comps != [] && Settles(base, comps[0], head, piece)
    requires |comps| > 1 ==> comps[0].start < comps[1].start
    requires Ascend(base, comps[1..], rest)
    ensures Ascend(base, comps, head + rest)
  {
  }

  lemma {:induction false} KeptCons(
    base: string, c: Span, head: seq<Edit>, piece: Piece, rest: seq<Edit>, pieces: seq<Piece>)
    requires Settles(base, c, head, piece) && IsKeptFrom(base, pieces, ToPieces(rest))
    ensures IsKeptFrom(base, [piece] + pieces, ToPieces(head + rest))
  {
    if head == [] {
      assert head + rest == rest;
      KeptWithout(base, piece, pieces, ToPieces(rest));
    } else {
      assert ToPieces(head + rest) == [piece] + ToPieces(rest);
      KeptWith(base, piece, pieces, ToPieces(rest));
    }
  }

  lemma {:induction false} AllEditsSettle(q: TextMap, k: TextMap, p: TextMap, choices: seq<Choice>, comps: seq<Span>)
    requires Separated(|q.base|, comps)
    ensures Ascend(q.base, comps, AllEdits(q, k, p, choices, comps))
    ensures IsKeptFrom(q.base, FinalPieces(q, k, p, choices, comps), ToPieces(AllEdits(q, k, p, choices, comps)))
    decreases |comps|
  {
    if comps != [] {
      var head, rest := EditAt(q, k, p, choices, comps[0]), AllEdits(q, k, p, choices, comps[1..]);
      var piece, pieces := FinalPiece(q, k, p, choices, comps[0]), FinalPieces(q, k, p, choices, comps[1..]);
      SeparatedTail(|q.base|, comps);
      AllEditsSettle(q, k, p, choices, comps[1..]);
      EditAtSettles(q, k, p, choices, comps[0]);
      StartsApart(|q.base|, comps);
      AscendCons(q.base, comps, head, piece, rest);
      KeptCons(q.base, comps[0], head, piece, rest, pieces);
      assert FinalPieces(q, k, p, choices, comps) == [piece] + pieces;
    }
  }

  lemma {:induction false} StartsApart(length: nat, comps: seq<Span>)
    requires Separated(length, comps) && |comps| > 0
    ensures |comps| > 1 ==> comps[0].start < comps[1].start
  {
    if |comps| > 1 { assert comps[0].start <= comps[0].end < comps[1].start; }
  }

  lemma {:induction false} AllEditsElements(q: TextMap, k: TextMap, p: TextMap, choices: seq<Choice>, comps: seq<Span>)
    ensures multiset(AllEdits(q, k, p, choices, comps))
            == multiset(EditsFor(q, k, comps)) + multiset(ChosenEdits(q, k, p, choices, comps))
    decreases |comps|
  {
    if comps != [] {
      AllEditsElements(q, k, p, choices, comps[1..]);
    }
  }

  // ----- choices as a list of patches -----

  function PatchesOf(choices: seq<Choice>): (r: seq<Edit>)
    ensures |r| == |choices| && forall i :: 0 <= i < |choices| ==> r[i] == PatchOf(choices[i])
  {
    seq(|choices|, i requires 0 <= i < |choices| => PatchOf(choices[i]))
  }

  function ChosenRecords(choices: seq<Choice>): (r: seq<Component>)
    ensures |r| == |choices| && forall i :: 0 <= i < |choices| ==> r[i] == choices[i].record
  {
    seq(|choices|, i requires 0 <= i < |choices| => choices[i].record)
  }

  function CaseEdits(choices: seq<Choice>, cases: seq<Component>): seq<Edit> {
    if cases == [] then []
    else
      var chosen := ChoiceFor(choices, cases[0]);
      (if chosen.Some? then [PatchOf(chosen.value)] else []) + CaseEdits(choices, cases[1..])
  }

  lemma {:induction false} ChosenAreCaseEdits(
    q: TextMap, k: TextMap, p: TextMap, choices: seq<Choice>, comps: seq<Span>)
    ensures ChosenEdits(q, k, p, choices, comps) == CaseEdits(choices, CasesFor(q, k, p, comps))
    decreases |comps|
  {
    if comps != [] {
      ChosenAreCaseEdits(q, k, p, choices, comps[1..]);
      var head, rest := CaseFor(q, k, p, comps[0]), CasesFor(q, k, p, comps[1..]);
      if head != [] {
        assert (head + rest)[0] == head[0] && (head + rest)[1..] == rest;
      } else {
        assert head + rest == rest;
      }
    }
  }

  lemma {:induction false} ChoiceIndex(choices: seq<Choice>, record: Component) returns (i: nat)
    requires ChoiceFor(choices, record).Some?
    ensures i < |choices| && choices[i] == ChoiceFor(choices, record).value && choices[i].record == record
  {
    if choices[0].record == record {
      i := 0;
    } else {
      i := ChoiceIndex(choices[1..], record);
      i := i + 1;
    }
  }

  lemma {:induction false} ChoiceMissing(choices: seq<Choice>, record: Component)
    ensures ChoiceFor(choices, record).None? <==> record !in ChosenRecords(choices)
  {
    if choices != [] {
      var records := ChosenRecords(choices);
      assert records == [choices[0].record] + ChosenRecords(choices[1..]);
      ChoiceMissing(choices[1..], record);
    }
  }

  function Without<T>(s: seq<T>, i: nat): seq<T>
    requires i < |s|
  {
    s[..i] + s[i + 1..]
  }

  lemma {:induction false} WithoutElements<T>(s: seq<T>, i: nat)
    requires i < |s|
    ensures multiset(s) == multiset(Without(s, i)) + multiset{s[i]}
  {
    assert s == s[..i] + ([s[i]] + s[i + 1..]);
  }

  /** Removing the choice of one record leaves the choices of all others. */
  lemma {:induction false} ChoiceElsewhere(choices: seq<Choice>, i: nat, record: Component)
    requires i < |choices| && record != choices[i].record
    ensures ChoiceFor(Without(choices, i), record) == ChoiceFor(choices, record)
  {
    if i == 0 {
      assert Without(choices, 0) == choices[1..];
    } else {
      assert Without(choices, i)[0] == choices[0] && Without(choices, i)[1..] == Without(choices[1..], i - 1);
      ChoiceElsewhere(choices[1..], i - 1, record);
    }
  }

  lemma {:induction false} CaseEditsElsewhere(choices: seq<Choice>, i: nat, cases: seq<Component>)
    requires i < |choices| && choices[i].record !in cases
    ensures CaseEdits(Without(choices, i), cases) == CaseEdits(choices, cases)
  {
    if cases != [] {
      ChoiceElsewhere(choices, i, cases[0]);
      CaseEditsElsewhere(choices, i, cases[1..]);
    }
  }

  lemma {:induction false} NoCaseEdits(cases: seq<Component>)
    ensures CaseEdits([], cases) == []
  {
    if cases != [] {
      NoCaseEdits(cases[1..]);
    }
  }

  /** Choices of different cases give the same patches, in any order, as the cases in Base order. */
  lemma {:induction false} PatchesAreCaseEdits(choices: seq<Choice>, cases: seq<Component>)
    requires Distinct(ChosenRecords(choices)) && Distinct(cases)
    requires forall i :: 0 <= i < |choices| ==> choices[i].record in cases
    ensures multiset(PatchesOf(choices)) == multiset(CaseEdits(choices, cases))
    decreases |cases|
  {
    hide Without, PatchesOf;
    if choices == [] {
      NoCaseEdits(cases);
      assert PatchesOf(choices) == [];
    } else {
      assert choices[0].record in cases;
      var rest := cases[1..];
      ChoiceMissing(choices, cases[0]);
      if ChoiceFor(choices, cases[0]).None? {
        forall i | 0 <= i < |choices| ensures choices[i].record in rest {
          assert choices[i].record in cases && ChosenRecords(choices)[i] != cases[0];
        }
        PatchesAreCaseEdits(choices, rest);
      } else {
        var i := ChoiceIndex(choices, cases[0]);
        RemoveChoice(choices, i, cases);
        PatchesAreCaseEdits(Without(choices, i), rest);
        CaseEditsElsewhere(choices, i, rest);
        PatchesWithout(choices, i);
        WithoutElements(PatchesOf(choices), i);
      }
    }
  }

  lemma {:induction false} PatchesWithout(choices: seq<Choice>, i: nat)
    requires i < |choices|
    ensures |PatchesOf(choices)| == |choices| && PatchesOf(choices)[i] == PatchOf(choices[i])
    ensures PatchesOf(Without(choices, i)) == Without(PatchesOf(choices), i)
  {
  }

  lemma {:induction false} RemoveChoice(choices: seq<Choice>, i: nat, cases: seq<Component>)
    requires Distinct(ChosenRecords(choices)) && Distinct(cases) && cases != []
    requires i < |choices| && choices[i].record == cases[0]
    requires forall j :: 0 <= j < |choices| ==> choices[j].record in cases
    ensures var left := Without(choices, i);
      && Distinct(ChosenRecords(left))
      && (forall j :: 0 <= j < |left| ==> left[j].record in cases[1..])
      && choices[i].record !in cases[1..]
  {
    var left := Without(choices, i);
    assert ChosenRecords(left) == Without(ChosenRecords(choices), i);
    forall j | 0 <= j < |left| ensures left[j].record in cases[1..] {
      var l := if j < i then j else j + 1;
      assert left[j] == choices[l] && ChosenRecords(choices)[l] != ChosenRecords(choices)[i];
    }
  }

  /** Choices for some of the open cases of a plan, one per case. */
  ghost predicate ChoicesOf(cases: seq<Component>, choices: seq<Choice>) {
    Distinct(ChosenRecords(choices)) && forall i :: 0 <= i < |choices| ==> choices[i].record in cases
  }

  /**
   * The conservation theorem: for choices for any subset of the cases, in any order, the accepted edits
   * and the patches apply without an overlap or stale-original error, and the result is Base with
   * every component replaced, as a whole, by its settled text.
   */
  lemma {:induction false} EditsGiveFinalText(
    q: TextMap, k: TextMap, p: TextMap, choices: seq<Choice>, edits: seq<Edit>)
    requires Arms(q, k) && ChoicesOf(PlanOf(q, k, p).cases, choices)
    requires multiset(edits) == multiset(PlanOf(q, k, p).resolvedEdits) + multiset(PatchesOf(choices))
    ensures Applied(q.base, edits) == Ok(FinalText(q, k, p, choices))
  {
    var comps := ComponentSpans(q, k);
    var cases := CasesFor(q, k, p, comps);
    Decomposition(q, k);
    PlanCasesDistinct(q, k, p, comps);
    PatchesAreCaseEdits(choices, cases);
    ChosenAreCaseEdits(q, k, p, choices, comps);
    AllEditsElements(q, k, p, choices, comps);
    AllEditsSettle(q, k, p, choices, comps);
    var pieces, asc := FinalPieces(q, k, p, choices, comps), AllEdits(q, k, p, choices, comps);
    SeparatedIsOrdered(q.base, 0, comps, pieces);
    EditsRealise(q.base, pieces, asc, edits);
  }

  /** Keeping Base in every chosen case gives exactly the plan's preview. */
  lemma {:induction false} KeepingIsPreview(q: TextMap, k: TextMap, p: TextMap, choices: seq<Choice>)
    requires forall i :: 0 <= i < |choices| ==> choices[i].text == choices[i].record.original
    ensures FinalText(q, k, p, choices) == PlanOf(q, k, p).correctedPreview
  {
    var comps := ComponentSpans(q, k);
    forall j | 0 <= j < |comps| ensures FinalPiece(q, k, p, choices, comps[j]) == PreviewPiece(q, k, comps[j]) {
      ChoiceForRecord(choices, ComponentOf(q, k, p, comps[j]));
    }
    assert FinalPieces(q, k, p, choices, comps) == PreviewPieces(q, k, comps);
  }

  /** What a component becomes, by its texts alone: three-way merge, and the choice where all three differ. */
  ghost predicate IsSettledText(qwen: string, kimi: string, original: string, chosen: Option<Choice>, text: string) {
    && (qwen == original ==> text == kimi)
    && (kimi == original ==> text == qwen)
    && (qwen == kimi ==> text == qwen)
    && (qwen != original && kimi != original && qwen != kimi ==>
          text == if chosen.Some? then chosen.value.text else original)
  }

  /**
   * `text` holds, at the place that the lengths before it give, the Base text between the components j - 1 and j,
   * and then exactly `own` in the place of component j.
   */
  ghost predicate StandsAt(base: string, comps: seq<Span>, pieces: seq<Piece>, j: nat, text: string, own: string)
    requires |pieces| == |comps| && j < |comps|
  {
    var before, grown := GapStart(0, pieces, j), Growth(pieces[..j]);
    var gap, a, b := before + grown, comps[j].start + grown, comps[j].end + Growth(pieces[..j + 1]);
    && 0 <= gap <= a <= b <= |text| && before <= comps[j].start <= |base|
    && text[gap..a] == base[before..comps[j].start] && text[a..b] == own
  }

  /**
   * What the splice returns, read off at its places: before each component comes the Base text up to it, and in its
   * place stands one whole text: that of the correction that changed it, the agreed one, or the choice for its case.
   */
  lemma {:induction false} ChoiceDecidesComponent(
    q: TextMap, k: TextMap, p: TextMap, choices: seq<Choice>, edits: seq<Edit>, j: nat)
    requires Arms(q, k) && ChoicesOf(PlanOf(q, k, p).cases, choices) && j < |ComponentSpans(q, k)|
    requires multiset(edits) == multiset(PlanOf(q, k, p).resolvedEdits) + multiset(PatchesOf(choices))
    ensures Applied(q.base, edits).Ok?
    ensures var text, comps := Applied(q.base, edits).value, ComponentSpans(q, k);
      exists own :: StandsAt(q.base, comps, FinalPieces(q, k, p, choices, comps), j, text, own)
        && IsSettledText(CandidateText(q, comps[j]), CandidateText(k, comps[j]),
                         Slice(q.base, comps[j].start, comps[j].end),
                         ChoiceFor(choices, ComponentOf(q, k, p, comps[j])), own)
  {
    hide *;
    var comps := ComponentSpans(q, k);
    var pieces := FinalPieces(q, k, p, choices, comps);
    EditsGiveFinalText(q, k, p, choices, edits);
    FinalTextAssembles(q, k, p, choices);
    Decomposition(q, k);
    SettledPieces(q, k, p, choices, comps);
    SettledAt(q.base, comps, pieces, j);
    assert StandsAt(q.base, comps, pieces, j, Applied(q.base, edits).value, pieces[j].text);
  }

  lemma {:induction false} FinalTextAssembles(q: TextMap, k: TextMap, p: TextMap, choices: seq<Choice>)
    ensures FinalText(q, k, p, choices) == Assemble(q.base, 0, FinalPieces(q, k, p, choices, ComponentSpans(q, k)))
  {
  }

  lemma {:induction false} SettledAt(base: string, comps: seq<Span>, pieces: seq<Piece>, j: nat)
    requires Separated(|base|, comps) && |pieces| == |comps| && j < |comps|
    requires forall i :: 0 <= i < |comps| ==> pieces[i].start == comps[i].start && pieces[i].end == comps[i].end
    ensures StandsAt(base, comps, pieces, j, Assemble(base, 0, pieces), pieces[j].text)
  {
    hide Ordered, Growth;
    SeparatedIsOrdered(base, 0, comps, pieces);
    AssembleAt(base, 0, pieces, j);
    GrowthSnoc(pieces, j);
  }

  lemma {:induction false} SettledPieces(q: TextMap, k: TextMap, p: TextMap, choices: seq<Choice>, comps: seq<Span>)
    ensures var pieces := FinalPieces(q, k, p, choices, comps);
      forall j :: 0 <= j < |comps| ==>
        && pieces[j].start == comps[j].start && pieces[j].end == comps[j].end
        && IsSettledText(CandidateText(q, comps[j]), CandidateText(k, comps[j]),
                         Slice(q.base, comps[j].start, comps[j].end),
                         ChoiceFor(choices, ComponentOf(q, k, p, comps[j])), pieces[j].text)
  {
    hide CandidateText, ComponentOf, Slice;
  }

  lemma {:induction false} GrowthSnoc(pieces: seq<Piece>, j: nat)
    requires j < |pieces|
    ensures Growth(pieces[..j + 1]) == Growth(pieces[..j]) + |pieces[j].text| - (pieces[j].end - pieces[j].start)
    decreases j
  {
    assert pieces[..j + 1][0] == pieces[0] && pieces[..j + 1][1..] == pieces[1..][..j];
    if j > 0 {
      assert pieces[..j][0] == pieces[0] && pieces[..j][1..] == pieces[1..][..j - 1];
      GrowthSnoc(pieces[1..], j - 1);
    }
  }

  // ----- validate_decisions and apply_selections -----

  datatype Decision = Decision(caseId: CaseId, candidateId: nat)

  /** `allowed`: the candidate ids of each case in a request. */
  function Allowed(requests: seq<Request>): map<CaseId, set<nat>> {
    if requests == [] then map[]
    else
      var last := requests[|requests| - 1];
      Allowed(requests[..|requests| - 1])[last.caseId := set o | o in last.candidates :: o.candidateId]
  }

  function DecidedIds(decisions: seq<Decision>): (r: seq<CaseId>)
    ensures |r| == |decisions| && forall i :: 0 <= i < |decisions| ==> r[i] == decisions[i].caseId
  {
    seq(|decisions|, i requires 0 <= i < |decisions| => decisions[i].caseId)
  }

  predicate DecisionAllowed(allowed: map<CaseId, set<nat>>, d: Decision) {
    d.caseId in allowed && d.candidateId in allowed[d.caseId]
  }

  /** Every case of the request is decided exactly once, with one of its own candidates. */
  ghost predicate DecisionsCover(decisions: seq<Decision>, requests: seq<Request>) {
    && IsOrdering(DecidedIds(decisions), Allowed(requests).Keys)
    && forall i :: 0 <= i < |decisions| ==> DecisionAllowed(Allowed(requests), decisions[i])
  }

  /** What the decision loop has checked. */
  ghost predicate DecidedSoFar(decisions: seq<Decision>, allowed: map<CaseId, set<nat>>, seen: set<CaseId>) {
    && IsOrdering(DecidedIds(decisions), seen)
    && forall i :: 0 <= i < |decisions| ==> DecisionAllowed(allowed, decisions[i])
  }

  lemma {:induction false} DecidedStep(
    decisions: seq<Decision>, allowed: map<CaseId, set<nat>>, seen: set<CaseId>, d: Decision)
    requires DecidedSoFar(decisions, allowed, seen) && DecisionAllowed(allowed, d) && d.caseId !in seen
    ensures DecidedSoFar(decisions + [d], allowed, seen + {d.caseId})
  {
    var ids := DecidedIds(decisions);
    assert DecidedIds(decisions + [d]) == ids + [d.caseId];
    assert forall x :: x in ids + [d.caseId] <==> x in ids || x == d.caseId;
    forall i | 0 <= i < |ids| ensures ids[i] != d.caseId {
      assert ids[i] in ids;
    }
  }

  lemma {:induction false} DecidedTwice(decisions: seq<Decision>, requests: seq<Request>, i: nat, seen: set<CaseId>)
    requires i < |decisions| && IsOrdering(DecidedIds(decisions[..i]), seen) && decisions[i].caseId in seen
    ensures !DecisionsCover(decisions, requests)
  {
    var ids := DecidedIds(decisions);
    assert decisions[i].caseId in DecidedIds(decisions[..i]);
    var j :| 0 <= j < i && DecidedIds(decisions[..i])[j] == decisions[i].caseId;
    assert ids[j] == ids[i];
  }

  method ValidateDecisions(decisions: seq<Decision>, requests: seq<Request>) returns (r: Result<()>)
    ensures r == if DecisionsCover(decisions, requests) then Ok(()) else Err(ContractError)
  {
    var allowed := Allowed(requests);
    var seen: set<CaseId> := {};
    var i := 0;
    while i < |decisions|
      invariant 0 <= i <= |decisions|
      invariant DecidedSoFar(decisions[..i], allowed, seen)
    {
      var d := decisions[i];
      if d.caseId in seen {
        DecidedTwice(decisions, requests, i, seen);
        return Err(ContractError);
      }
      if d.caseId !in allowed || d.candidateId !in allowed[d.caseId] {
        assert !DecisionAllowed(allowed, decisions[i]);
        return Err(ContractError);
      }
      DecidedStep(decisions[..i], allowed, seen, d);
      TakeSnoc(decisions, i);
      seen := seen + {d.caseId};
      i := i + 1;
    }
    assert decisions[..i] == decisions;
    if seen != allowed.Keys {
      SameElements(DecidedIds(decisions), seen, allowed.Keys);
      return Err(ContractError);
    }
    return Ok(());
  }

  lemma {:induction false} SameElements<T(!new)>(s: seq<T>, x: set<T>, y: set<T>)
    requires IsOrdering(s, x) && x != y
    ensures !IsOrdering(s, y)
  {
    if IsOrdering(s, y) {
      assert forall e :: e in x <==> e in y;
    }
  }

  // ----- one batch, decided -----

  /** The text of the first option with the id. */
  function OptionText(options: seq<CandidateOption>, id: nat): Option<string> {
    if options == [] then None
    else if options[0].candidateId == id then Some(options[0].text)
    else OptionText(options[1..], id)
  }

  /** `cases[case_id]`: a later case with the same id would win. */
  function CaseWith(cases: seq<SelectionCase>, id: CaseId): Option<SelectionCase> {
    if cases == [] then None
    else
      var last := cases[|cases| - 1];
      if last.request.caseId == id then Some(last) else CaseWith(cases[..|cases| - 1], id)
  }

  /** The choice that a decision stands for, or none where apply_selections raises. */
  function ChoiceOf(base: string, cases: seq<SelectionCase>, d: Decision): Option<Choice> {
    match CaseWith(cases, d.caseId)
    case None => None
    case Some(item) =>
      if Slice(base, item.start, item.end) != item.original then None
      else
        match OptionText(item.request.candidates, d.candidateId)
        case None => None
        case Some(text) => Some(Choice(d.caseId.record, text, Selection))
  }

  ghost predicate AllChosen(base: string, cases: seq<SelectionCase>, decisions: seq<Decision>, choices: seq<Choice>) {
    && |choices| == |decisions|
    && forall i :: 0 <= i < |decisions| ==> ChoiceOf(base, cases, decisions[i]) == Some(choices[i])
  }

  /** Cases whose coordinates and texts are those of the record they identify. */
  ghost predicate Identified(cases: seq<SelectionCase>) {
    forall i :: 0 <= i < |cases| ==>
      var item, c := cases[i], cases[i].request.caseId.record;
      item.start == c.start && item.end == c.end && item.original == c.original
  }

  lemma {:induction false} CaseWithFound(cases: seq<SelectionCase>, id: CaseId)
    ensures CaseWith(cases, id).Some? ==>
              CaseWith(cases, id).value in cases && CaseWith(cases, id).value.request.caseId == id
  {
    if cases != [] && cases[|cases| - 1].request.caseId != id {
      CaseWithFound(cases[..|cases| - 1], id);
    }
  }

  lemma {:induction false} AllowedIds(requests: seq<Request>)
    ensures forall id :: id in Allowed(requests) <==> exists i :: 0 <= i < |requests| && requests[i].caseId == id
  {
    if requests != [] {
      var n := |requests| - 1;
      AllowedIds(requests[..n]);
      forall id ensures id in Allowed(requests) <==> exists i :: 0 <= i < |requests| && requests[i].caseId == id {
        if id in Allowed(requests[..n]) {
          var i :| 0 <= i < n && requests[..n][i].caseId == id;
          assert requests[i].caseId == id;
        }
        if i :| 0 <= i < |requests| && requests[i].caseId == id {
          if i < n { assert requests[..n][i].caseId == id; }
        }
      }
    }
  }

  lemma {:induction false} OptionTextFound(options: seq<CandidateOption>, id: nat)
    ensures OptionText(options, id).Some? ==> CandidateOption(id, OptionText(options, id).value) in options
  {
    if options != [] && options[0].candidateId != id {
      OptionTextFound(options[1..], id);
    }
  }

  // ----- what a decision says, by the options of its case alone -----

  /** The decision names an option of its own case, and the edit writes the text of that option over the case. */
  ghost predicate Writes(cases: seq<SelectionCase>, d: Decision, e: Edit) {
    exists item, o ::
      && item in cases && o in item.request.candidates
      && item.request.caseId == d.caseId && o.candidateId == d.candidateId
      && e == Edit(item.start, item.end, item.original, o.text, Selection)
  }

  ghost predicate TakenFrom(cases: seq<SelectionCase>, d: Decision, c: Choice) {
    Writes(cases, d, PatchOf(c)) && c.record == d.caseId.record
  }

  lemma {:induction false} ChoiceIsTaken(base: string, cases: seq<SelectionCase>, d: Decision)
    requires Identified(cases)
    ensures ChoiceOf(base, cases, d).Some? ==> TakenFrom(cases, d, ChoiceOf(base, cases, d).value)
  {
    if ChoiceOf(base, cases, d).Some? {
      CaseWithFound(cases, d.caseId);
      var item := CaseWith(cases, d.caseId).value;
      OptionTextFound(item.request.candidates, d.candidateId);
      var o := CandidateOption(d.candidateId, OptionText(item.request.candidates, d.candidateId).value);
      assert item in cases && o in item.request.candidates;
      var j :| 0 <= j < |cases| && cases[j] == item;
      assert PatchOf(ChoiceOf(base, cases, d).value) == Edit(item.start, item.end, item.original, o.text, Selection);
    }
  }

  lemma {:induction false} ChosenAreTaken(
    base: string, cases: seq<SelectionCase>, decisions: seq<Decision>, choices: seq<Choice>)
    requires Identified(cases) && AllChosen(base, cases, decisions, choices)
    ensures |choices| == |decisions|
    ensures forall i :: 0 <= i < |choices| ==> TakenFrom(cases, decisions[i], choices[i])
  {
    hide ChoiceOf, Identified, TakenFrom;
    forall i | 0 <= i < |choices| ensures TakenFrom(cases, decisions[i], choices[i]) {
      ChoiceIsTaken(base, cases, decisions[i]);
    }
  }

  /** The cases record the Base text of their intervals. */
  ghost predicate OnBase(base: string, cases: seq<SelectionCase>) {
    forall item :: item in cases ==> Slice(base, item.start, item.end) == item.original
  }

  lemma {:induction false} AllowedIsCase(cases: seq<SelectionCase>, id: CaseId)
    requires id in Allowed(RequestsOf(cases))
    ensures CaseWith(cases, id).Some?
    ensures Allowed(RequestsOf(cases))[id]
            == set o | o in CaseWith(cases, id).value.request.candidates :: o.candidateId
  {
    if cases != [] {
      var n := |cases| - 1;
      assert RequestsOf(cases)[..n] == RequestsOf(cases[..n]);
      if cases[n].request.caseId != id {
        AllowedIsCase(cases[..n], id);
      }
    }
  }

  lemma {:induction false} OptionPresent(options: seq<CandidateOption>, id: nat)
    requires id in set o | o in options :: o.candidateId
    ensures OptionText(options, id).Some?
  {
    var o :| o in options && o.candidateId == id;
    if options[0].candidateId != id {
      assert o in options[1..];
      OptionPresent(options[1..], id);
    }
  }

  /** Decisions that cover a valid batch on its Base text are all taken. */
  lemma {:induction false} CoveringIsChosen(base: string, batch: Batch, decisions: seq<Decision>)
    requires ValidBatch(batch) && OnBase(base, batch.cases) && DecisionsCover(decisions, batch.request)
    ensures forall i :: 0 <= i < |decisions| ==> ChoiceOf(base, batch.cases, decisions[i]).Some?
  {
    hide ValidCases;
    forall i | 0 <= i < |decisions| ensures ChoiceOf(base, batch.cases, decisions[i]).Some? {
      var d := decisions[i];
      assert DecisionAllowed(Allowed(batch.request), d);
      AllowedIsCase(batch.cases, d.caseId);
      CaseWithFound(batch.cases, d.caseId);
      OptionPresent(CaseWith(batch.cases, d.caseId).value.request.candidates, d.candidateId);
    }
  }

  /** Deciding the keep option of a valid case chooses its Base text. */
  lemma {:induction false} KeepChoosesOriginal(batch: Batch, item: SelectionCase, d: Decision, c: Choice)
    requires ValidBatch(batch) && TakenFrom(batch.cases, d, c) && item in batch.cases
    requires item.request.caseId == d.caseId && d.candidateId == item.request.keepCandidateId
    ensures c.text == item.original
  {
    hide ValidVersions, DistinctOptions;
    var other, o :| other in batch.cases && o in other.request.candidates
      && other.request.caseId == d.caseId && o.candidateId == d.candidateId
      && PatchOf(c) == Edit(other.start, other.end, other.original, o.text, Selection);
    OnlyCase(batch, item, other);
    assert ValidCase(item) by { CaseIsValid(batch, item); }
    OnlyOption(item.request.candidates, o);
  }

  lemma {:induction false} OnlyCase(batch: Batch, item: SelectionCase, other: SelectionCase)
    requires ValidBatch(batch) && item in batch.cases && other in batch.cases
    requires item.request.caseId == other.request.caseId
    ensures item == other
  {
    hide ValidCase;
    var i :| 0 <= i < |batch.cases| && batch.cases[i] == item;
    var j :| 0 <= j < |batch.cases| && batch.cases[j] == other;
    assert i == j;
  }

  lemma {:induction false} CaseIsValid(batch: Batch, item: SelectionCase)
    requires ValidBatch(batch) && item in batch.cases
    ensures ValidCase(item)
  {
    hide ValidCase;
    var i :| 0 <= i < |batch.cases| && batch.cases[i] == item;
  }

  /** With distinct ids, an option is found under its own id. */
  lemma {:induction false} OnlyOption(options: seq<CandidateOption>, o: CandidateOption)
    requires DistinctOptions(options) && o in options
    ensures ById(options)[o.candidateId] == o.text
  {
    hide ById;
    var i :| 0 <= i < |options| && options[i] == o;
    var other := CandidateOption(o.candidateId, ById(options)[o.candidateId]);
    assert other in options;
    var j :| 0 <= j < |options| && options[j] == other;
    if i < j {
      DistinctIdsOnly(options, i, j);
    } else if j < i {
      DistinctIdsOnly(options, j, i);
    }
  }

  lemma {:induction false} ByIdGrows(options: seq<CandidateOption>)
    requires options != []
    ensures var n := |options| - 1;
      |ById(options)| == |ById(options[..n])| + if options[n].candidateId in ById(options[..n]) then 0 else 1
  {
    var n := |options| - 1;
    var before, id := ById(options[..n]), options[n].candidateId;
    assert ById(options) == before[id := options[n].text];
    assert ById(options).Keys == before.Keys + {id};
    assert |ById(options)| == |before.Keys + {id}| && |before| == |before.Keys|;
    if id in before {
      assert before.Keys + {id} == before.Keys;
    }
  }

  lemma {:induction false} ByIdSize(options: seq<CandidateOption>)
    ensures |ById(options)| <= |options|
  {
    if options != [] {
      ByIdSize(options[..|options| - 1]);
      ByIdGrows(options);
    }
  }

  lemma {:induction false} DistinctIdsOnly(options: seq<CandidateOption>, i: nat, j: nat)
    requires |ById(options)| == |options| && i < j < |options|
    ensures options[i].candidateId != options[j].candidateId
    decreases |options|
  {
    var n := |options| - 1;
    LastIdIsNew(options);
    if j < n {
      DistinctIdsOnly(options[..n], i, j);
    } else {
      IdIsListed(options[..n], i);
    }
  }

  lemma {:induction false} LastIdIsNew(options: seq<CandidateOption>)
    requires |ById(options)| == |options| > 0
    ensures var n := |options| - 1;
      |ById(options[..n])| == n && options[n].candidateId !in ById(options[..n])
  {
    hide ById;
    ByIdSize(options[..|options| - 1]);
    ByIdGrows(options);
  }

  lemma {:induction false} IdIsListed(options: seq<CandidateOption>, i: nat)
    requires i < |options|
    ensures options[i].candidateId in ById(options)
  {
    hide ById;
    assert options[i] in options;
  }

  method ApplySelections(base: string, batch: Batch, decisions: seq<Decision>)
    returns (r: Result<seq<Edit>>, ghost choices: seq<Choice>)
    requires Identified(batch.cases)
    ensures r.Ok? ==> DecisionsCover(decisions, batch.request)
    ensures r.Ok? ==> AllChosen(base, batch.cases, decisions, choices) && r.value == PatchesOf(choices)
    ensures r.Ok? ==> |r.value| == |decisions|
                      && forall i :: 0 <= i < |decisions| ==> Writes(batch.cases, decisions[i], r.value[i])
    ensures r.Err? ==> !DecisionsCover(decisions, batch.request)
                       || exists i :: 0 <= i < |decisions| && ChoiceOf(base, batch.cases, decisions[i]).None?
  {
    choices := [];
    var checked := ValidateDecisions(decisions, batch.request);
    if checked.Err? {
      return Err(checked.error), choices;
    }
    var patches: seq<Edit> := [];
    var i := 0;
    while i < |decisions|
      invariant 0 <= i <= |decisions|
      invariant AllChosen(base, batch.cases, decisions[..i], choices) && patches == PatchesOf(choices)
    {
      var d := decisions[i];
      var found := CaseWith(batch.cases, d.caseId);
      CaseWithFound(batch.cases, d.caseId);
      if found.None? || Slice(base, found.value.start, found.value.end) != found.value.original {
        assert ChoiceOf(base, batch.cases, decisions[i]).None?;
        return Err(ContractError), choices;
      }
      var item := found.value;
      var option := OptionText(item.request.candidates, d.candidateId);
      if option.None? {
        assert ChoiceOf(base, batch.cases, decisions[i]).None?;
        return Err(ContractError), choices;
      }
      patches := patches + [Edit(item.start, item.end, item.original, option.value, Selection)];
      choices := choices + [Choice(d.caseId.record, option.value, Selection)];
      TakeSnoc(decisions, i);
      i := i + 1;
    }
    assert decisions[..i] == decisions;
    ChosenAreTaken(base, batch.cases, decisions, choices);
    return Ok(patches), choices;
  }
}
