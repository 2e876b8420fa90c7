/**
 * What a review puts into the text, told by the decisions alone: resolve_review of src/cueflow/orchestrator.py
 * over the cases of one merge plan.
 */
module ReviewLaws {
  import opened Outcomes
  import opened EditResolution
  import opened TextDiff
  import opened MergePlan
  import opened SelectionBatches
  import opened Resolution
  import opened ReviewStage

  /** The peer's own text for the interval; an insertion at its right edge belongs to it only at the end of Base. */
  function PeerText(p: TextMap, c: Span): string {
    match p.Interval(c.start, c.end, c.end == |p.base| || c.start == c.end)
    case None => ""
    case Some((left, right)) => Slice(p.variant, left, right)
  }

  /** The text that an action names for a component. */
  function NamedText(q: TextMap, k: TextMap, p: TextMap, c: Span, action: Action): string {
    match action
    case Use(Qwen) => CandidateText(q, c)
    case Use(Kimi) => CandidateText(k, c)
    case Use(Peer) => PeerText(p, c)
    case Replace(text) => text
    case _ => Slice(q.base, c.start, c.end)
  }

  /** What a component becomes: settled by its texts, decided by a human, or chosen by the selection. */
  ghost predicate Conserves(
    q: TextMap, k: TextMap, p: TextMap, choices: seq<Choice>, decisions: seq<ReviewDecision>, c: Span, text: string)
  {
    var qwen, kimi, original := CandidateText(q, c), CandidateText(k, c), Slice(q.base, c.start, c.end);
    && (qwen == original ==> text == kimi) && (kimi == original ==> text == qwen) && (qwen == kimi ==> text == qwen)
    && (qwen != original && kimi != original && qwen != kimi ==>
          && (forall d :: d in decisions && d.item == ComponentOf(q, k, p, c) ==>
                text == NamedText(q, k, p, c, d.action))
          && (forall x :: x in choices && x.record == ComponentOf(q, k, p, c) ==> text == x.text))
  }

  // ----- the choices of a review -----

  /** The text that a decision puts over its item, if any. */
  function ActionText(item: Component, action: Action): Option<string> {
    match action
    case Use(source) => if source in item.candidates then Some(item.candidates[source].text) else None
    case Replace(text) => Some(text)
    case _ => None
  }

  lemma {:induction false} EarlierItems(decisions: seq<ReviewDecision>, d: ReviewDecision)
    requires decisions != [] && Distinct(ReviewedItems(decisions)) && d in decisions
    ensures var n := |decisions| - 1;
      && Distinct(ReviewedItems(decisions[..n]))
      && (d == decisions[n] || (d in decisions[..n] && d.item != decisions[n].item))
      && (forall e :: e in decisions[..n] ==> e.item != decisions[n].item)
  {
    var n, items := |decisions| - 1, ReviewedItems(decisions);
    assert ReviewedItems(decisions[..n]) == items[..n];
    forall e | e in decisions[..n] ensures e.item != decisions[n].item {
      var i :| 0 <= i < n && decisions[..n][i] == e;
      assert items[i] == e.item;
    }
  }

  /** A taken decision is a choice of exactly its text; keeping makes no choice. */
  lemma {:induction false} DecisionIsChosen(base: string, decisions: seq<ReviewDecision>, d: ReviewDecision)
    requires ReviewChoices(base, decisions).Ok? && Distinct(ReviewedItems(decisions)) && d in decisions
    ensures var manual := ReviewChoices(base, decisions).value;
      match ActionText(d.item, d.action)
      case Some(text) => Choice(d.item, text, Human) in manual
      case None => forall m :: m in manual ==> m.record != d.item
    decreases |decisions|
  {
    var n := |decisions| - 1;
    EarlierItems(decisions, d);
    var before := ReviewChoices(base, decisions[..n]).value;
    var more := ReviewChoice(base, decisions[n]).value;
    ItemsOfChoices(base, decisions[..n]);
    if d != decisions[n] {
      DecisionIsChosen(base, decisions[..n], d);
    }
  }

  lemma {:induction false} ItemsOfChoices(base: string, decisions: seq<ReviewDecision>)
    requires ReviewChoices(base, decisions).Ok?
    ensures forall m :: m in ReviewChoices(base, decisions).value ==>
              exists e :: e in decisions && e.item == m.record
    decreases |decisions|
  {
    if decisions != [] {
      var n := |decisions| - 1;
      ItemsOfChoices(base, decisions[..n]);
      assert decisions[n] in decisions;
      forall m | m in ReviewChoices(base, decisions[..n]).value
        ensures exists e :: e in decisions && e.item == m.record
      {
        var e :| e in decisions[..n] && e.item == m.record;
        assert e in decisions;
      }
    }
  }

  // ----- the records of a component -----

  /** The candidates of a record are the texts of the component in its sources. */
  lemma {:induction false} RecordTexts(q: TextMap, k: TextMap, p: TextMap, c: Span, action: Action)
    requires Mapped(q, k, c) && q.base == k.base == p.base
    ensures var item := ComponentOf(q, k, p, c);
      action.Use? && action.source != Base && action.source in item.candidates ==>
        ActionText(item, action) == Some(NamedText(q, k, p, c, action))
  {
  }

  lemma {:induction false} OpenIsUndecided(q: TextMap, k: TextMap, c: Span)
    ensures DecideSpan(q, k, c).None? <==>
            var qwen, kimi, original := CandidateText(q, c), CandidateText(k, c), Slice(q.base, c.start, c.end);
            qwen != original && kimi != original && qwen != kimi
  {
  }

  lemma {:induction false} ChosenInside(choices: seq<Choice>, x: Choice)
    requires Distinct(ChosenRecords(choices)) && x in choices
    ensures ChoiceFor(choices, x.record) == Some(x)
  {
    if choices[0].record != x.record {
      var records := ChosenRecords(choices);
      assert ChosenRecords(choices[1..]) == records[1..];
      assert x in choices[1..];
      ChosenInside(choices[1..], x);
    } else {
      var i :| 0 <= i < |choices| && choices[i] == x;
      assert ChosenRecords(choices)[0] == ChosenRecords(choices)[i];
    }
  }

  lemma {:induction false} NoneInside(choices: seq<Choice>, record: Component)
    requires forall x :: x in choices ==> x.record != record
    ensures ChoiceFor(choices, record) == None
  {
    if choices != [] {
      NoneInside(choices[1..], record);
    }
  }

  /** The final piece of a component is what the decisions and the selection name for it. */
  lemma {:induction false} PieceConserves(
    q: TextMap, k: TextMap, p: TextMap, choices: seq<Choice>, decisions: seq<ReviewDecision>, c: Span)
    requires Mapped(q, k, c) && q.base == k.base == p.base
    requires ReviewChoices(q.base, decisions).Ok? && AllAvailable(decisions) && Distinct(ReviewedItems(decisions))
    requires Distinct(ChosenRecords(choices + ReviewChoices(q.base, decisions).value))
    requires forall x, d :: x in choices && d in decisions ==> x.record != d.item
    ensures Conserves(q, k, p, choices, decisions, c,
                      FinalPiece(q, k, p, choices + ReviewChoices(q.base, decisions).value, c).text)
  {
    hide CandidateText, ComponentOf, Mapped, ReviewChoices, Distinct, PeerText, Slice, ChosenRecords;
    var manual, item := ReviewChoices(q.base, decisions).value, ComponentOf(q, k, p, c);
    var all := choices + manual;
    OpenIsUndecided(q, k, c);
    forall x | x in choices && x.record == item ensures ChoiceFor(all, item) == Some(x) {
      ChosenInside(all, x);
    }
    forall d | d in decisions && d.item == item
      ensures ChoiceFor(all, item) == match ActionText(item, d.action)
                                      case None => None
                                      case Some(text) => Some(Choice(item, text, Human))
    {
      DecisionIsChosen(q.base, decisions, d);
      if ActionText(item, d.action).Some? {
        ChosenInside(all, Choice(item, ActionText(item, d.action).value, Human));
      } else {
        NoneInside(all, item);
      }
    }
    forall d | d in decisions && d.item == item
      ensures DecideSpan(q, k, c).None? ==> FinalPiece(q, k, p, all, c).text == NamedText(q, k, p, c, d.action)
    {
      RecordTexts(q, k, p, c, d.action);
      IsAvailable(decisions, d);
    }
    SettledPiece(q, k, p, all, c);
  }

  lemma {:induction false} IsAvailable(decisions: seq<ReviewDecision>, d: ReviewDecision)
    requires AllAvailable(decisions) && d in decisions
    ensures Available(d)
  {
    var i :| 0 <= i < |decisions| && decisions[i] == d;
  }

  lemma {:induction false} SettledPiece(q: TextMap, k: TextMap, p: TextMap, choices: seq<Choice>, c: Span)
    ensures var qwen, kimi, original := CandidateText(q, c), CandidateText(k, c), Slice(q.base, c.start, c.end);
      var text := FinalPiece(q, k, p, choices, c).text;
      (qwen == original ==> text == kimi) && (kimi == original ==> text == qwen) && (qwen == kimi ==> text == qwen)
  {
    hide CandidateText, ComponentOf, Slice;
  }

  // ----- the reviewed text -----

  /** A case is either chosen by the selection or reviewed, and never both. */
  lemma {:induction false} ChosenOrReviewed(cases: seq<Component>, choices: seq<Choice>, reviews: seq<Component>)
    requires Distinct(cases) && Settled(cases, choices, reviews)
    ensures forall x :: x in choices ==> x.record !in reviews
    ensures forall c :: c in cases ==> c in reviews || exists x :: x in choices && x.record == c
  {
    var records := ChosenRecords(choices);
    DistinctCounts(cases);
    forall x | x in choices ensures x.record !in reviews {
      var i :| 0 <= i < |choices| && choices[i] == x;
      assert records[i] in multiset(records);
      assert multiset(records)[x.record] + multiset(reviews)[x.record] == multiset(cases)[x.record];
    }
    forall c | c in cases && c !in reviews ensures exists x :: x in choices && x.record == c {
      assert c in multiset(cases) && c !in multiset(reviews);
      assert c in multiset(records);
      var i :| 0 <= i < |records| && records[i] == c;
      assert choices[i] in choices;
    }
  }

  /** What is known of the decisions on the queue of a plan. */
  lemma {:induction false} QueueFacts(
    q: TextMap, k: TextMap, p: TextMap, choices: seq<Choice>, reviews: seq<Component>, decisions: seq<ReviewDecision>)
    requires Arms(q, k) && Settled(PlanOf(q, k, p).cases, choices, reviews) && Covers(decisions, reviews)
    ensures Distinct(ReviewedItems(decisions))
    ensures forall x, d :: x in choices && d in decisions ==> x.record != d.item
    ensures forall c :: c in PlanOf(q, k, p).cases ==>
              (exists d :: d in decisions && d.item == c) || (exists x :: x in choices && x.record == c)
  {
    hide PlanOf, Settled;
    var items := ReviewedItems(decisions);
    Decomposition(q, k);
    PlanIsDistinct(q, k, p);
    ChosenOrReviewed(PlanOf(q, k, p).cases, choices, reviews);
    forall d | d in decisions ensures d.item in reviews {
      var i :| 0 <= i < |decisions| && decisions[i] == d;
      assert items[i] in items && items[i] in (set c | c in reviews);
    }
    forall c | c in reviews ensures exists d :: d in decisions && d.item == c {
      assert c in (set r | r in reviews) && c in items;
      var i :| 0 <= i < |items| && items[i] == c;
      assert decisions[i] in decisions;
    }
  }

  lemma {:induction false} PlanIsDistinct(q: TextMap, k: TextMap, p: TextMap)
    requires Separated(|q.base|, ComponentSpans(q, k))
    ensures Distinct(PlanOf(q, k, p).cases)
  {
    PlanCasesDistinct(q, k, p, ComponentSpans(q, k));
  }

  lemma {:induction false} ReviewIsDistinct(
    q: TextMap, k: TextMap, p: TextMap, choices: seq<Choice>, reviews: seq<Component>, decisions: seq<ReviewDecision>)
    requires Arms(q, k) && Settled(PlanOf(q, k, p).cases, choices, reviews)
    requires Covers(decisions, reviews) && ReviewChoices(q.base, decisions).Ok?
    ensures Distinct(ChosenRecords(choices + ReviewChoices(q.base, decisions).value))
  {
    ReviewCoversPlan(q, k, p, choices, reviews, decisions);
  }

  /** The reviewed text, piece by piece, for the pieces of all components in order. */
  ghost predicate Told(
    q: TextMap, k: TextMap, p: TextMap, choices: seq<Choice>, decisions: seq<ReviewDecision>, text: string,
    pieces: seq<Piece>)
  {
    var comps := ComponentSpans(q, k);
    && |pieces| == |comps| && text == Assemble(q.base, 0, pieces)
    && forall j :: 0 <= j < |comps| ==>
         && Conserves(q, k, p, choices, decisions, comps[j], pieces[j].text)
         && StandsAt(q.base, comps, pieces, j, text, pieces[j].text)
  }

  /**
   * Conservation of a review: in the returned text the Base text before every component stands as it was, and in the
   * place of each open component the text that its decision names: the Qwen, Kimi or peer text of that component,
   * exactly the replacement, or the Base text. Every open component has a decision or a choice of the selection.
   */
  lemma {:induction false} ReviewConserves(
    q: TextMap, k: TextMap, p: TextMap, choices: seq<Choice>, reviews: seq<Component>, decisions: seq<ReviewDecision>)
    requires Arms(q, k) && p.base == q.base
    requires Settled(PlanOf(q, k, p).cases, choices, reviews) && Covers(decisions, reviews)
    requires Reviewed(q.base, PlanOf(q, k, p).resolvedEdits + PatchesOf(choices), reviews, decisions).Ok?
    ensures var text := Reviewed(q.base, PlanOf(q, k, p).resolvedEdits + PatchesOf(choices), reviews, decisions).value;
      exists pieces :: Told(q, k, p, choices, decisions, text, pieces)
    ensures forall c :: c in PlanOf(q, k, p).cases ==>
              (exists d :: d in decisions && d.item == c) || (exists x :: x in choices && x.record == c)
  {
    hide *;
    var text := Reviewed(q.base, PlanOf(q, k, p).resolvedEdits + PatchesOf(choices), reviews, decisions).value;
    ReviewGivesFinalText(q, k, p, choices, reviews, decisions);
    var comps, all := ComponentSpans(q, k), choices + ReviewChoices(q.base, decisions).value;
    var pieces := FinalPieces(q, k, p, all, comps);
    FinalTextAssembles(q, k, p, all);
    Decomposition(q, k);
    ComponentsAreMapped(q, k);
    SameBases(q, k);
    QueueFacts(q, k, p, choices, reviews, decisions);
    ReviewIsDistinct(q, k, p, choices, reviews, decisions);
    SettledPieces(q, k, p, all, comps);
    forall j | 0 <= j < |comps|
      ensures Conserves(q, k, p, choices, decisions, comps[j], pieces[j].text)
      ensures StandsAt(q.base, comps, pieces, j, text, pieces[j].text)
    {
      PieceConserves(q, k, p, choices, decisions, comps[j]);
      SettledAt(q.base, comps, pieces, j);
    }
    IsTold(q, k, p, choices, decisions, text, pieces);
  }

  lemma {:induction false} SameBases(q: TextMap, k: TextMap)
    requires Arms(q, k)
    ensures q.base == k.base
  {
  }

  lemma {:induction false} IsTold(
    q: TextMap, k: TextMap, p: TextMap, choices: seq<Choice>, decisions: seq<ReviewDecision>, text: string,
    pieces: seq<Piece>)
    requires |pieces| == |ComponentSpans(q, k)| && text == Assemble(q.base, 0, pieces)
    requires forall j :: 0 <= j < |pieces| ==>
               && Conserves(q, k, p, choices, decisions, ComponentSpans(q, k)[j], pieces[j].text)
               && StandsAt(q.base, ComponentSpans(q, k), pieces, j, text, pieces[j].text)
    ensures Told(q, k, p, choices, decisions, text, pieces)
  {
  }
}
