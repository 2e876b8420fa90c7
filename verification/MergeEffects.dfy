/**
 * What a merge plan says, told by the changes of the two corrections alone
 * (src/cueflow/conflict_selection.py, build_merge_plan).
 */
module MergeEffects {
  import opened Outcomes
  import opened EditResolution
  import opened TextDiff
  import opened MergePlan
  import opened SelectionBatches

  // ----- where two changes are held apart -----

  /** The correction inserts text between two characters of Base, and replaces none. */
  ghost predicate InsertsAt(m: TextMap, p: nat) {
    exists k :: 0 <= k < |m.opcodes| && !m.opcodes[k].tag.Equal? && m.opcodes[k].a == p == m.opcodes[k].b
  }

  /** Between the opcode that ends at `p` and the one that starts there are only insertions. */
  lemma {:induction false} BetweenEdges(m: TextMap, p: nat, k: nat, i: nat)
    requires m.WellFormed() && k < i < |m.opcodes| && m.opcodes[k].b == p == m.opcodes[i].a
    ensures forall j :: k < j < i ==> !m.opcodes[j].tag.Equal? && m.opcodes[j].a == p == m.opcodes[j].b
    ensures if i == k + 1 then m.opcodes[k].d == m.opcodes[i].c else m.opcodes[k].d < m.opcodes[i].c
    ensures k + 1 < i ==> InsertsAt(m, p)
  {
    forall j | k < j < i
      ensures !m.opcodes[j].tag.Equal? && m.opcodes[j].a == p == m.opcodes[j].b && m.opcodes[k].d < m.opcodes[i].c
    {
      TilesForward(m, k, j);
      TilesForward(m, j, i);
      assert m.OpcodeOk(m.opcodes[j]);
    }
    if i == k + 1 {
      assert Joined(m.opcodes[k], m.opcodes[i]);
    } else {
      assert !m.opcodes[k + 1].tag.Equal? && m.opcodes[k + 1].a == p == m.opcodes[k + 1].b;
    }
  }

  lemma {:induction false} NoInsertionAround(m: TextMap, p: nat, k: nat)
    requires m.WellFormed() && k < |m.opcodes|
    requires m.opcodes[k].a < p < m.opcodes[k].b || (m.opcodes[k].a == p < m.opcodes[k].b && k == 0)
    ensures !InsertsAt(m, p)
  {
    forall j | 0 <= j < |m.opcodes| && j != k
      ensures !(m.opcodes[j].a == p == m.opcodes[j].b)
    {
      if j < k {
        TilesForward(m, j, k);
      } else {
        TilesForward(m, k, j);
      }
    }
  }

  /** Both images of the left edge of an untouched interval are the same unless something is inserted there. */
  lemma {:induction false} EdgesAgree(m: TextMap, start: nat, end: nat)
    requires m.WellFormed() && start < end <= |m.base| && Untouched(m, start, end)
    ensures m.Boundary(start, false).Some? && m.Boundary(start, true).Some?
    ensures var w, x := m.Boundary(start, false).value, m.Boundary(start, true).value;
            w <= x && (w == x <==> !InsertsAt(m, start))
  {
    var i := Covering(m, start);
    BoundaryAfter(m, start, i);
    if start == 0 {
      BoundaryAtStart(m);
      if i == 0 {
        NoInsertionAround(m, start, i);
      } else {
        TilesForward(m, 0, i);
        assert m.OpcodeOk(m.opcodes[0]);
      }
    } else {
      var k := Covering(m, start - 1);
      BoundaryBefore(m, start, k);
      if start < m.opcodes[k].b {
        NoInsertionAround(m, start, k);
        BoundaryAfter(m, start, k);
      } else {
        EdgeOfTwo(m, start, k, i);
      }
    }
  }

  lemma {:induction false} EdgeOfTwo(m: TextMap, p: nat, k: nat, i: nat)
    requires m.WellFormed() && k < |m.opcodes| && i < |m.opcodes|
    requires m.opcodes[k].a < p == m.opcodes[k].b && m.opcodes[i].a <= p < m.opcodes[i].b
    ensures p == m.opcodes[i].a && m.opcodes[k].d <= m.opcodes[i].c
    ensures m.opcodes[k].d == m.opcodes[i].c <==> !InsertsAt(m, p)
  {
    if i < k {
      TilesForward(m, i, k);
    }
    TilesForward(m, k, i);
    BetweenEdges(m, p, k, i);
    if InsertsAt(m, p) {
      var j :| 0 <= j < |m.opcodes| && !m.opcodes[j].tag.Equal? && m.opcodes[j].a == p == m.opcodes[j].b;
      if j < k {
        TilesForward(m, j, k);
      }
      if i < j {
        TilesForward(m, i, j);
      }
    }
  }

  /** An untouched interval is kept exactly when nothing is inserted at its left edge. */
  lemma {:induction false} KeptUnlessInserted(m: TextMap, start: nat, end: nat)
    requires m.WellFormed() && start < end <= |m.base| && Untouched(m, start, end)
    ensures Preserves(m, start, end) <==> !InsertsAt(m, start)
  {
    GapText(m, start, end);
    EdgesAgree(m, start, end);
    var w, x, y := m.Boundary(start, false).value, m.Boundary(start, true).value, m.Boundary(end, false).value;
    assert Slice(m.base, start, end) == m.base[start..end];
    assert Slice(m.variant, w, y) == m.variant[w..y];
  }

  // ----- components are as small as they can be -----

  /** No change of either correction reaches into the interval. */
  ghost predicate Free(q: TextMap, k: TextMap, start: nat, end: nat) {
    Untouched(q, start, end) && Untouched(k, start, end)
  }

  lemma {:induction false} FreeIsAnchor(q: TextMap, k: TextMap, start: nat, end: nat)
    requires Arms(q, k) && start < end <= |q.base| && Free(q, k, start, end)
    ensures IsStableAnchor(q, k, start, end) <==> !InsertsAt(q, start) && !InsertsAt(k, start)
  {
    KeptUnlessInserted(q, start, end);
    KeptUnlessInserted(k, start, end);
  }

  function ChangeSpans(q: TextMap, k: TextMap): seq<Span> {
    SpansOf(AllChanges(q, k))
  }

  ghost predicate EndsAt(spans: seq<Span>, p: nat) {
    exists i :: 0 <= i < |spans| && spans[i].end == p
  }

  /** After a change in the component, free text is left of the next one only where a correction inserts. */
  ghost predicate Unsplit(q: TextMap, k: TextMap, c: Span) {
    forall start: nat, end: nat {:trigger Free(q, k, start, end)} ::
      c.start <= start < end <= c.end && Free(q, k, start, end) && EndsAt(ChangeSpans(q, k), start) ==>
        InsertsAt(q, start) || InsertsAt(k, start)
  }

  /** Text that every change ends before or starts after is free, and the other way round. */
  lemma {:induction false} FreeOfSpans(q: TextMap, k: TextMap, start: nat, end: nat)
    requires Arms(q, k)
    ensures var spans := ChangeSpans(q, k);
            Free(q, k, start, end) <==> forall i :: 0 <= i < |spans| ==> spans[i].end <= start || end <= spans[i].start
  {
    var cs, spans := AllChanges(q, k), ChangeSpans(q, k);
    if Free(q, k, start, end) {
      forall i | 0 <= i < |spans|
        ensures spans[i].end <= start || end <= spans[i].start
      {
        AllChangesElements(q, k, cs[i]);
        var m := if cs[i].source == Qwen then q else k;
        ChangeIsOpcode(m, m.opcodes, cs[i].change);
      }
    }
    if forall i :: 0 <= i < |spans| ==> spans[i].end <= start || end <= spans[i].start {
      ArmIsFree(q, k, Qwen, start, end);
      ArmIsFree(q, k, Kimi, start, end);
    }
  }

  lemma {:induction false} ArmIsFree(q: TextMap, k: TextMap, source: Source, start: nat, end: nat)
    requires Arms(q, k) && (source == Qwen || source == Kimi)
    requires var spans := ChangeSpans(q, k);
             forall i :: 0 <= i < |spans| ==> spans[i].end <= start || end <= spans[i].start
    ensures Untouched(if source == Qwen then q else k, start, end)
  {
    var cs, m := AllChanges(q, k), if source == Qwen then q else k;
    forall j | 0 <= j < |m.opcodes| && !m.opcodes[j].tag.Equal?
      ensures m.opcodes[j].b <= start || end <= m.opcodes[j].a
    {
      var c := SourcedChange(source, m.Change(m.opcodes[j]));
      OpcodeIsChange(m, m.opcodes, j);
      AllChangesElements(q, k, c);
      var i :| 0 <= i < |cs| && cs[i] == c;
      assert ChangeSpans(q, k)[i] == SpanOf(c);
    }
  }

  /** The component that the next change joins stays unsplit. */
  lemma {:induction false} JoinedIsUnsplit(q: TextMap, k: TextMap, n: nat, last: Span)
    requires Arms(q, k) && n < |ChangeSpans(q, k)| && Unsplit(q, k, last) && last.end <= |q.base|
    requires last.start <= ChangeSpans(q, k)[n].start && Joins(q, k, last.end, ChangeSpans(q, k)[n].start)
    requires forall i :: 0 <= i < n ==> ChangeSpans(q, k)[i].end <= last.end
    requires EndsAt(ChangeSpans(q, k)[..n], last.end)
    ensures var next := ChangeSpans(q, k)[n];
            Unsplit(q, k, Span(Min(last.start, next.start), Max(last.end, next.end)))
  {
    hide IsStableAnchor, Free, InsertsAt, AllChanges;
    var spans := ChangeSpans(q, k);
    var next := spans[n];
    ChangesAreReal(q, k);
    forall start: nat, end: nat | last.start <= start < end <= Max(last.end, next.end) && Free(q, k, start, end)
                                  && EndsAt(spans, start)
      ensures InsertsAt(q, start) || InsertsAt(k, start)
    {
      FreeOfSpans(q, k, start, end);
      var i :| 0 <= i < |spans| && spans[i].end == start;
      assert spans[n].end <= start || end <= spans[n].start;
      assert i > n ==> SpanBefore(spans[n], spans[i]);
      if end > last.end {
        var l :| 0 <= l < n && spans[..n][l].end == last.end;
        assert spans[l].end == last.end;
        assert start == last.end && end <= next.start;
        forall j | 0 <= j < |spans|
          ensures spans[j].end <= last.end || next.start <= spans[j].start
        {
          assert j > n ==> SpanBefore(spans[n], spans[j]);
        }
        FreeOfSpans(q, k, last.end, next.start);
        FreeIsAnchor(q, k, last.end, next.start);
      }
    }
  }

  /** The last component reaches to the last end of the changes so far. */
  ghost predicate LastReaches(spans: seq<Span>, done: seq<Span>) {
    && done != [] && EndsAt(spans, done[|done| - 1].end)
    && forall i :: 0 <= i < |spans| ==> spans[i].end <= done[|done| - 1].end
  }

  lemma {:induction false} ExtendReaches(q: TextMap, k: TextMap, spans: seq<Span>, done: seq<Span>, next: Span)
    requires if spans == [] then done == [] else LastReaches(spans, done)
    requires next.start <= next.end
    ensures LastReaches(spans + [next], Extend(q, k, done, next))
  {
    hide IsStableAnchor;
    var all, comps := spans + [next], Extend(q, k, done, next);
    var end := comps[|comps| - 1].end;
    assert all[|spans|] == next;
    if end != next.end {
      var i :| 0 <= i < |spans| && spans[i].end == end;
      assert all[i].end == end;
    }
  }

  lemma {:induction false} SweepReaches(q: TextMap, k: TextMap, spans: seq<Span>)
    requires SortedSpans(spans) && RealSpans(|q.base|, spans) && spans != []
    ensures LastReaches(spans, Sweep(q, k, spans))
    decreases |spans|
  {
    hide LastReaches, Extend;
    var n := |spans| - 1;
    if n > 0 {
      SweepReaches(q, k, spans[..n]);
    }
    ExtendReaches(q, k, spans[..n], Sweep(q, k, spans[..n]), spans[n]);
    assert spans == spans[..n] + [spans[n]];
  }

  lemma {:induction false} ExtendIsFinest(q: TextMap, k: TextMap, done: seq<Span>, next: Span)
    requires forall c :: c in done ==> Unsplit(q, k, c)
    requires Unsplit(q, k, next)
    requires done != [] && Joins(q, k, done[|done| - 1].end, next.start) ==>
               var last := done[|done| - 1];
               Unsplit(q, k, Span(Min(last.start, next.start), Max(last.end, next.end)))
    ensures forall c :: c in Extend(q, k, done, next) ==> Unsplit(q, k, c)
  {
    hide Unsplit, Joins;
  }

  lemma {:induction false} NextJoinsUnsplit(q: TextMap, k: TextMap, n: nat)
    requires Arms(q, k) && 0 < n < |ChangeSpans(q, k)|
    requires var done := Sweep(q, k, ChangeSpans(q, k)[..n]);
             done != [] && Unsplit(q, k, done[|done| - 1])
             && Joins(q, k, done[|done| - 1].end, ChangeSpans(q, k)[n].start)
    ensures var last, next := Sweep(q, k, ChangeSpans(q, k)[..n])[|Sweep(q, k, ChangeSpans(q, k)[..n])| - 1],
                              ChangeSpans(q, k)[n];
            Unsplit(q, k, Span(Min(last.start, next.start), Max(last.end, next.end)))
  {
    hide Unsplit, Joins, EndsAt, ChangeSpans, Sweep;
    var spans := ChangeSpans(q, k);
    SpansAreReal(q, k);
    SweepReaches(q, k, spans[..n]);
    SweepSeparates(q, k, spans[..n]);
    assert SpanBefore(spans[n - 1], spans[n]);
    JoinedIsUnsplit(q, k, n, Sweep(q, k, spans[..n])[|Sweep(q, k, spans[..n])| - 1]);
  }

  lemma {:induction false} SpansAreReal(q: TextMap, k: TextMap)
    requires Arms(q, k)
    ensures SortedSpans(ChangeSpans(q, k)) && RealSpans(|q.base|, ChangeSpans(q, k))
  {
    ChangesAreReal(q, k);
  }

  lemma {:induction false} SweepIsFinest(q: TextMap, k: TextMap, n: nat)
    requires Arms(q, k) && n <= |ChangeSpans(q, k)|
    ensures forall c :: c in Sweep(q, k, ChangeSpans(q, k)[..n]) ==> Unsplit(q, k, c)
  {
    hide Unsplit, Joins, EndsAt, ChangeSpans, Extend;
    var spans := ChangeSpans(q, k);
    if n > 0 {
      var done := Sweep(q, k, spans[..n - 1]);
      SweepIsFinest(q, k, n - 1);
      ChangeIsUnsplit(q, k, n - 1);
      if done != [] && Joins(q, k, done[|done| - 1].end, spans[n - 1].start) {
        assert done[|done| - 1] in done;
        NextJoinsUnsplit(q, k, n - 1);
      }
      ExtendIsFinest(q, k, done, spans[n - 1]);
      assert spans[..n][..n - 1] == spans[..n - 1];
    }
  }

  lemma {:induction false} ChangeIsUnsplit(q: TextMap, k: TextMap, n: nat)
    requires Arms(q, k) && n < |ChangeSpans(q, k)|
    ensures Unsplit(q, k, ChangeSpans(q, k)[n])
  {
    var c := ChangeSpans(q, k)[n];
    forall start: nat, end: nat | c.start <= start < end <= c.end && Free(q, k, start, end)
      ensures false
    {
      FreeOfSpans(q, k, start, end);
    }
  }

  /**
   * Every component is as small as it can be: between two of its changes there is free text only where a correction
   * inserts at the left edge, and that text is no stable anchor then.
   */
  lemma {:induction false} ComponentsAreFinest(q: TextMap, k: TextMap, c: Span)
    requires Arms(q, k) && c in ComponentSpans(q, k)
    ensures Unsplit(q, k, c)
  {
    var spans := ChangeSpans(q, k);
    assert spans[..|spans|] == spans;
    SweepIsFinest(q, k, |spans|);
  }

  /** Both edges of a component are edges of changes. */
  ghost predicate IsHull(spans: seq<Span>, c: Span) {
    (exists i :: 0 <= i < |spans| && spans[i].start == c.start) && EndsAt(spans, c.end)
  }

  lemma {:induction false} ExtendKeepsHulls(
    q: TextMap, k: TextMap, spans: seq<Span>, done: seq<Span>, next: Span)
    requires forall c :: c in done ==> IsHull(spans, c)
    ensures forall c :: c in Extend(q, k, done, next) ==> IsHull(spans + [next], c)
  {
    hide Joins;
    var all := spans + [next];
    assert all[|spans|] == next;
    assert forall i :: 0 <= i < |spans| ==> all[i] == spans[i];
    forall c | c in done
      ensures IsHull(all, c)
    {
      var i :| 0 <= i < |spans| && spans[i].start == c.start;
      var j :| 0 <= j < |spans| && spans[j].end == c.end;
      assert all[i].start == c.start && all[j].end == c.end;
    }
    if done != [] {
      assert done[|done| - 1] in done && IsHull(all, done[|done| - 1]);
    }
  }

  lemma {:induction false} SweepMakesHulls(q: TextMap, k: TextMap, spans: seq<Span>)
    ensures forall c :: c in Sweep(q, k, spans) ==> IsHull(spans, c)
    decreases |spans|
  {
    hide IsHull, Extend;
    if spans != [] {
      var n := |spans| - 1;
      SweepMakesHulls(q, k, spans[..n]);
      ExtendKeepsHulls(q, k, spans[..n], Sweep(q, k, spans[..n]), spans[n]);
      assert spans == spans[..n] + [spans[n]];
    }
  }

  lemma {:induction false} BetweenIsFree(q: TextMap, k: TextMap, j: nat)
    requires Arms(q, k) && j + 1 < |ComponentSpans(q, k)|
    ensures Free(q, k, ComponentSpans(q, k)[j].end, ComponentSpans(q, k)[j + 1].start)
  {
    var spans, comps := ChangeSpans(q, k), ComponentSpans(q, k);
    Decomposition(q, k);
    ChangesAreReal(q, k);
    forall i | 0 <= i < |spans|
      ensures spans[i].end <= comps[j].end || comps[j + 1].start <= spans[i].start
    {
      SweepHouses(q, k, spans, i);
      var l :| 0 <= l < |comps| && Within(spans[i], comps[l]);
      assert l < j ==> comps[l].end < comps[j].start;
      assert j + 1 < l ==> comps[j + 1].end < comps[l].start;
    }
    FreeOfSpans(q, k, comps[j].end, comps[j + 1].start);
  }

  /** Between components lies text that no correction touches or inserts before; their edges are edges of changes. */
  lemma {:induction false} ComponentsAreApart(q: TextMap, k: TextMap, j: nat)
    requires Arms(q, k) && j < |ComponentSpans(q, k)|
    ensures var comps := ComponentSpans(q, k);
            && IsHull(ChangeSpans(q, k), comps[j])
            && (j + 1 < |comps| ==>
                  && comps[j].end < comps[j + 1].start && Free(q, k, comps[j].end, comps[j + 1].start)
                  && !InsertsAt(q, comps[j].end) && !InsertsAt(k, comps[j].end))
  {
    hide IsHull, Free, InsertsAt, ComponentSpans;
    var comps := ComponentSpans(q, k);
    Decomposition(q, k);
    HullsOfChanges(q, k, comps[j]);
    if j + 1 < |comps| {
      BetweenIsFree(q, k, j);
      FreeIsAnchor(q, k, comps[j].end, comps[j + 1].start);
    }
  }

  lemma {:induction false} HullsOfChanges(q: TextMap, k: TextMap, c: Span)
    requires c in ComponentSpans(q, k)
    ensures IsHull(ChangeSpans(q, k), c)
  {
    SweepMakesHulls(q, k, ChangeSpans(q, k));
  }

  // ----- the accepted edits and the open cases -----

  /** The edit settles this component: at least two of its three texts agree, and they change Base. */
  ghost predicate Settles(q: TextMap, k: TextMap, c: Span, e: Edit) {
    var qwen, kimi, original := CandidateText(q, c), CandidateText(k, c), Slice(q.base, c.start, c.end);
    && e.start == c.start && e.end == c.end && e.original == original && e.replacement != original
    && (qwen == original || kimi == original || qwen == kimi)
    && (qwen == original ==> e.replacement == kimi) && (kimi == original ==> e.replacement == qwen)
    && (qwen == kimi ==> e.replacement == qwen)
    && e.reason == if qwen == kimi then Agreement else Singleton
  }

  /** The record of an open component: three different texts, each source where it maps. */
  ghost predicate Opens(q: TextMap, k: TextMap, p: TextMap, c: Span, item: Component) {
    var qwen, kimi, original := CandidateText(q, c), CandidateText(k, c), Slice(q.base, c.start, c.end);
    && qwen != original && kimi != original && qwen != kimi
    && item.start == c.start && item.end == c.end && item.original == original
    && Base in item.candidates && item.candidates[Base] == Candidate(original, c.start, c.end)
    && Holds(q, c, true, item.candidates, Qwen) && Holds(k, c, true, item.candidates, Kimi)
    && Holds(p, c, c.end == |q.base| || c.start == c.end, item.candidates, Peer)
  }

  /** The candidate of a source is its text between the images of both edges, when they have images. */
  ghost predicate Holds(m: TextMap, c: Span, includeEnd: bool, candidates: map<Source, Candidate>, source: Source) {
    match (m.Boundary(c.start, false), m.Boundary(c.end, includeEnd))
    case (Some(left), Some(right)) =>
      source in candidates && candidates[source] == Candidate(Slice(m.variant, left, right), left, right)
    case _ => source !in candidates
  }

  lemma {:induction false} EditTells(q: TextMap, k: TextMap, c: Span, e: Edit)
    ensures e in EditFor(q, k, c) <==> Settles(q, k, c, e)
  {
    hide CandidateText, Slice;
  }

  lemma {:induction false} EditsTell(q: TextMap, k: TextMap, comps: seq<Span>, e: Edit)
    ensures e in EditsFor(q, k, comps) <==> exists c :: c in comps && Settles(q, k, c, e)
  {
    hide EditFor, Settles;
    if comps != [] {
      EditTells(q, k, comps[0], e);
      EditsTell(q, k, comps[1..], e);
      assert forall c :: c in comps <==> c == comps[0] || c in comps[1..];
    }
  }

  /** There is one record of an open component. */
  lemma {:induction false} CaseTells(q: TextMap, k: TextMap, p: TextMap, c: Span, item: Component)
    ensures item in CaseFor(q, k, p, c) <==> Opens(q, k, p, c, item)
  {
    hide CandidateText, Slice;
    var record := ComponentOf(q, k, p, c);
    if Opens(q, k, p, c, item) {
      forall source
        ensures source in item.candidates <==> source in record.candidates
        ensures source in item.candidates ==> item.candidates[source] == record.candidates[source]
      {
        match source
        case Base =>
        case Qwen =>
        case Kimi =>
        case Peer =>
      }
      assert item.candidates == record.candidates;
    }
  }

  lemma {:induction false} CasesTell(q: TextMap, k: TextMap, p: TextMap, comps: seq<Span>, item: Component)
    ensures item in CasesFor(q, k, p, comps) <==> exists c :: c in comps && Opens(q, k, p, c, item)
  {
    hide CaseFor, Opens;
    if comps != [] {
      CaseTells(q, k, p, comps[0], item);
      CasesTell(q, k, p, comps[1..], item);
      assert forall c :: c in comps <==> c == comps[0] || c in comps[1..];
    }
  }

  /** The accepted edits of a plan are those that settle a component, and its cases are the open components. */
  lemma {:induction false} PlanTells(q: TextMap, k: TextMap, p: TextMap, e: Edit, item: Component)
    ensures e in PlanOf(q, k, p).resolvedEdits <==> exists c :: c in ComponentSpans(q, k) && Settles(q, k, c, e)
    ensures item in PlanOf(q, k, p).cases <==> exists c :: c in ComponentSpans(q, k) && Opens(q, k, p, c, item)
  {
    hide Settles, Opens;
    EditsTell(q, k, ComponentSpans(q, k), e);
    CasesTell(q, k, p, ComponentSpans(q, k), item);
  }
}
