/** Algebraic laws of build_merge_plan (src/cueflow/conflict_selection.py). */
module MergeLaws {
  import opened Outcomes
  import opened EditResolution
  import opened TextDiff
  import opened MergePlan

  // ----- an unchanged arm -----

  lemma {:induction false} UnchangedOpcode(m: TextMap, k: nat)
    requires m.WellFormed() && m.variant == m.base && k < |m.opcodes|
    ensures m.opcodes[k].tag.Equal? && m.opcodes[k].a == m.opcodes[k].c && m.opcodes[k].b == m.opcodes[k].d
  {
    EqualRun(m, 0, k);
    assert m.OpcodeOk(m.opcodes[k]);
  }

  /** A text equal to Base maps every position to itself. */
  lemma {:induction false} UnchangedBoundary(m: TextMap, p: nat)
    requires m.WellFormed() && m.variant == m.base && p <= |m.base|
    ensures m.Boundary(p, false) == Some(p) && m.Boundary(p, true) == Some(p)
  {
    if p == 0 {
      BoundaryAtStart(m);
    } else {
      var k := Covering(m, p - 1);
      UnchangedOpcode(m, k);
      BoundaryBefore(m, p, k);
    }
    if p == |m.base| {
      BoundaryAtEnd(m);
    } else {
      var k := Covering(m, p);
      UnchangedOpcode(m, k);
      BoundaryAfter(m, p, k);
    }
  }

  lemma {:induction false} UnchangedCandidate(m: TextMap, c: Span)
    requires m.WellFormed() && m.variant == m.base && c.start <= c.end <= |m.base|
    ensures CandidateText(m, c) == Slice(m.base, c.start, c.end)
  {
    UnchangedBoundary(m, c.start);
    UnchangedBoundary(m, c.end);
  }

  lemma {:induction false} NoCases(q: TextMap, k: TextMap, p: TextMap, comps: seq<Span>)
    requires forall j :: 0 <= j < |comps| ==> DecideSpan(q, k, comps[j]).Some?
    ensures CasesFor(q, k, p, comps) == []
  {
    if comps != [] {
      assert DecideSpan(q, k, comps[0]).Some?;
      forall j | 0 <= j < |comps[1..]| ensures DecideSpan(q, k, comps[1..][j]).Some? {
        assert comps[1..][j] == comps[j + 1];
      }
      NoCases(q, k, p, comps[1..]);
    }
  }

  /** When every component is settled by one arm's candidate, the preview is that arm, without cases. */
  lemma {:induction false} ArmWins(q: TextMap, k: TextMap, p: TextMap, winner: TextMap)
    requires Arms(q, k) && (winner == q || winner == k)
    requires forall j :: 0 <= j < |ComponentSpans(q, k)| ==>
               DecideSpan(q, k, ComponentSpans(q, k)[j]) == Some(CandidateText(winner, ComponentSpans(q, k)[j]))
    ensures PlanOf(q, k, p).correctedPreview == winner.variant && PlanOf(q, k, p).cases == []
  {
    var comps := ComponentSpans(q, k);
    Decomposition(q, k);
    assert PreviewPieces(q, k, comps) == ArmPieces(winner, comps);
    NoCases(q, k, p, comps);
  }

  /** If one arm equals Base, the merge is exactly the other arm and nothing is left to select. */
  lemma {:induction false} OneArmUnchanged(q: TextMap, k: TextMap, p: TextMap)
    requires Arms(q, k)
    ensures q.variant == q.base ==> PlanOf(q, k, p).correctedPreview == k.variant && PlanOf(q, k, p).cases == []
    ensures k.variant == k.base ==> PlanOf(q, k, p).correctedPreview == q.variant && PlanOf(q, k, p).cases == []
  {
    var comps := ComponentSpans(q, k);
    Decomposition(q, k);
    if q.variant == q.base {
      forall j | 0 <= j < |comps| ensures DecideSpan(q, k, comps[j]) == Some(CandidateText(k, comps[j])) {
        UnchangedCandidate(q, comps[j]);
      }
      ArmWins(q, k, p, k);
    }
    if k.variant == k.base {
      forall j | 0 <= j < |comps| ensures DecideSpan(q, k, comps[j]) == Some(CandidateText(q, comps[j])) {
        UnchangedCandidate(k, comps[j]);
      }
      ArmWins(q, k, p, q);
    }
  }

  /** If both arms agree, the merge is their common text and nothing is left to select. */
  lemma {:induction false} ArmsAgree(diff: Differ, base: string, peer: string, both: string)
    requires DiffContract(diff)
    ensures var arm := MapOf(diff, base, both);
            var plan := PlanOf(arm, arm, MapOf(diff, base, peer));
            plan.correctedPreview == both && plan.cases == []
  {
    var arm := MapOf(diff, base, both);
    assert arm.WellFormed();
    ArmWins(arm, arm, MapOf(diff, base, peer), arm);
  }

  // ----- swapping the two corrections -----

  lemma {:induction false} InsertSpanElements(c: SourcedChange, sorted: seq<SourcedChange>)
    ensures multiset(SpansOf(InsertChange(c, sorted))) == multiset(SpansOf(sorted)) + multiset{SpanOf(c)}
  {
    if sorted == [] || KeyBefore(c, sorted[0]) {
      assert SpansOf([c] + sorted) == [SpanOf(c)] + SpansOf(sorted);
    } else {
      InsertSpanElements(c, sorted[1..]);
      assert SpansOf(sorted) == [SpanOf(sorted[0])] + SpansOf(sorted[1..]);
      var rest := InsertChange(c, sorted[1..]);
      assert SpansOf([sorted[0]] + rest) == [SpanOf(sorted[0])] + SpansOf(rest);
    }
  }

  lemma {:induction false} SortSpanElements(cs: seq<SourcedChange>)
    ensures multiset(SpansOf(SortChanges(cs))) == multiset(SpansOf(cs))
  {
    if cs != [] {
      SortSpanElements(cs[1..]);
      InsertSpanElements(cs[0], SortChanges(cs[1..]));
      assert SpansOf(cs) == [SpanOf(cs[0])] + SpansOf(cs[1..]);
    } else {
      assert SpansOf(SortChanges(cs)) == SpansOf(cs);
    }
  }

  lemma {:induction false} FirstSpanIsLeast(x: seq<Span>, y: seq<Span>)
    requires multiset(x) == multiset(y) && x != [] && y != []
    requires SortedSpans(x) && SortedSpans(y)
    ensures x[0] == y[0]
  {
    assert x[0] in multiset(y) && y[0] in multiset(x);
    var i :| 0 <= i < |y| && y[i] == x[0];
    var j :| 0 <= j < |x| && x[j] == y[0];
  }

  lemma {:induction false} SortedSpansUnique(x: seq<Span>, y: seq<Span>)
    requires multiset(x) == multiset(y) && SortedSpans(x) && SortedSpans(y)
    ensures x == y
    decreases |x|
  {
    SameLength(x, y);
    if x != [] {
      FirstSpanIsLeast(x, y);
      TailElements(x);
      TailElements(y);
      assert SortedSpans(x[1..]) && SortedSpans(y[1..]);
      SortedSpansUnique(x[1..], y[1..]);
      assert x == [x[0]] + x[1..] && y == [y[0]] + y[1..];
    }
  }

  lemma {:induction false} SpansIgnoreSource(s: Source, t: Source, a: seq<TextChange>)
    ensures SpansOf(FromSource(s, a)) == SpansOf(FromSource(t, a))
  {
  }

  lemma {:induction false} SpansConcat(x: seq<SourcedChange>, y: seq<SourcedChange>)
    ensures SpansOf(x + y) == SpansOf(x) + SpansOf(y)
  {
  }

  lemma {:induction false} SwapSpans(q: TextMap, k: TextMap)
    requires Arms(q, k)
    ensures SpansOf(AllChanges(q, k)) == SpansOf(AllChanges(k, q))
  {
    var a, b := q.Changes(), k.Changes();
    var straight, swapped := FromSource(Qwen, a) + FromSource(Kimi, b), FromSource(Qwen, b) + FromSource(Kimi, a);
    ChangesAreReal(q, k);
    ChangesAreReal(k, q);
    SortSpanElements(straight);
    SortSpanElements(swapped);
    SpansIgnoreSource(Qwen, Kimi, a);
    SpansIgnoreSource(Qwen, Kimi, b);
    SpansConcat(FromSource(Qwen, a), FromSource(Kimi, b));
    SpansConcat(FromSource(Qwen, b), FromSource(Kimi, a));
    SortedSpansUnique(SpansOf(AllChanges(q, k)), SpansOf(AllChanges(k, q)));
  }

  lemma {:induction false} SwapSweep(q: TextMap, k: TextMap, spans: seq<Span>)
    ensures Sweep(q, k, spans) == Sweep(k, q, spans)
  {
    if spans != [] {
      SwapSweep(q, k, spans[..|spans| - 1]);
    }
  }

  /** A case with the candidates of the two corrections exchanged. */
  ghost predicate Mirrored(x: Component, y: Component) {
    && x.start == y.start && x.end == y.end && x.original == y.original
    && x.candidates.Keys == y.candidates.Keys && {Base, Qwen, Kimi} <= x.candidates.Keys
    && x.candidates[Qwen] == y.candidates[Kimi] && x.candidates[Kimi] == y.candidates[Qwen]
    && x.candidates[Base] == y.candidates[Base]
    && (Peer in x.candidates ==> x.candidates[Peer] == y.candidates[Peer])
  }

  lemma {:induction false} SwapComponent(q: TextMap, k: TextMap, p: TextMap, c: Span)
    requires q.base == k.base && Mapped(q, k, c)
    ensures Mirrored(ComponentOf(q, k, p, c), ComponentOf(k, q, p, c))
  {
  }

  ghost predicate AllMirrored(xs: seq<Component>, ys: seq<Component>) {
    |xs| == |ys| && forall i :: 0 <= i < |xs| ==> Mirrored(xs[i], ys[i])
  }

  lemma {:induction false} SwapCases(q: TextMap, k: TextMap, p: TextMap, comps: seq<Span>)
    requires q.base == k.base && forall j :: 0 <= j < |comps| ==> Mapped(q, k, comps[j])
    ensures AllMirrored(CasesFor(q, k, p, comps), CasesFor(k, q, p, comps))
  {
    if comps != [] {
      forall j | 0 <= j < |comps[1..]| ensures Mapped(q, k, comps[1..][j]) {
        assert comps[1..][j] == comps[j + 1];
      }
      SwapCases(q, k, p, comps[1..]);
      assert Mapped(q, k, comps[0]);
      SwapComponent(q, k, p, comps[0]);
    }
  }

  lemma {:induction false} SwapEdits(q: TextMap, k: TextMap, comps: seq<Span>)
    requires q.base == k.base
    ensures EditsFor(q, k, comps) == EditsFor(k, q, comps)
  {
    if comps != [] {
      SwapEdits(q, k, comps[1..]);
    }
  }

  /** Swapping the corrections changes neither the components, nor the accepted edits, nor the preview;
      the cases keep their intervals and exchange the two candidates. */
  lemma {:induction false} Swap(q: TextMap, k: TextMap, p: TextMap)
    requires Arms(q, k)
    ensures ComponentSpans(q, k) == ComponentSpans(k, q)
    ensures PlanOf(q, k, p).resolvedEdits == PlanOf(k, q, p).resolvedEdits
    ensures PlanOf(q, k, p).correctedPreview == PlanOf(k, q, p).correctedPreview
    ensures AllMirrored(PlanOf(q, k, p).cases, PlanOf(k, q, p).cases)
  {
    var comps := ComponentSpans(q, k);
    SwapSpans(q, k);
    SwapSweep(q, k, SpansOf(AllChanges(q, k)));
    ComponentsAreMapped(q, k);
    SwapEdits(q, k, comps);
    SwapCases(q, k, p, comps);
    assert PreviewPieces(q, k, comps) == PreviewPieces(k, q, comps);
  }
}
