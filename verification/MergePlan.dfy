/** src/cueflow/conflict_selection.py, build_merge_plan: the exact three-way transcript merge. */
module MergePlan {
  import opened Outcomes
  import opened EditResolution
  import opened TextDiff

  datatype Source = Base | Qwen | Kimi | Peer

  datatype Span = Span(start: nat, end: nat)

  datatype SourcedChange = SourcedChange(source: Source, change: TextChange)

  // ----- sorted(changes, key=(start, end, source name)) -----

  function Rank(source: Source): int {
    match source
    case Base => 0
    case Kimi => 1
    case Peer => 2
    case Qwen => 3
  }

  predicate KeyBefore(x: SourcedChange, y: SourcedChange) {
    || x.change.start < y.change.start
    || (x.change.start == y.change.start && x.change.end < y.change.end)
    || (x.change.start == y.change.start && x.change.end == y.change.end && Rank(x.source) <= Rank(y.source))
  }

  function InsertChange(c: SourcedChange, sorted: seq<SourcedChange>): seq<SourcedChange> {
    if sorted == [] || KeyBefore(c, sorted[0]) then [c] + sorted
    else [sorted[0]] + InsertChange(c, sorted[1..])
  }

  function SortChanges(cs: seq<SourcedChange>): seq<SourcedChange> {
    if cs == [] then [] else InsertChange(cs[0], SortChanges(cs[1..]))
  }

  function FromSource(source: Source, cs: seq<TextChange>): (r: seq<SourcedChange>)
    ensures |r| == |cs| && forall i :: 0 <= i < |cs| ==> r[i] == SourcedChange(source, cs[i])
  {
    seq(|cs|, i requires 0 <= i < |cs| => SourcedChange(source, cs[i]))
  }

  function SpanOf(c: SourcedChange): Span {
    Span(c.change.start, c.change.end)
  }

  function SpansOf(cs: seq<SourcedChange>): (r: seq<Span>)
    ensures |r| == |cs| && forall i :: 0 <= i < |cs| ==> r[i] == SpanOf(cs[i])
  {
    seq(|cs|, i requires 0 <= i < |cs| => SpanOf(cs[i]))
  }

  predicate SpanBefore(x: Span, y: Span) {
    x.start < y.start || (x.start == y.start && x.end <= y.end)
  }

  ghost predicate SortedSpans(s: seq<Span>) {
    forall i, j :: 0 <= i < j < |s| ==> SpanBefore(s[i], s[j])
  }

  lemma {:induction false} InsertElements(c: SourcedChange, sorted: seq<SourcedChange>)
    ensures multiset(InsertChange(c, sorted)) == multiset(sorted) + multiset{c}
  {
    if sorted != [] && !KeyBefore(c, sorted[0]) {
      assert sorted == [sorted[0]] + sorted[1..];
      InsertElements(c, sorted[1..]);
    }
  }

  lemma {:induction false} SortElements(cs: seq<SourcedChange>)
    ensures multiset(SortChanges(cs)) == multiset(cs)
  {
    if cs != [] {
      assert cs == [cs[0]] + cs[1..];
      SortElements(cs[1..]);
      InsertElements(cs[0], SortChanges(cs[1..]));
    }
  }

  ghost predicate SortedChanges(cs: seq<SourcedChange>) {
    forall i, j :: 0 <= i < j < |cs| ==> KeyBefore(cs[i], cs[j])
  }

  lemma {:induction false} InsertKeepsSorted(c: SourcedChange, sorted: seq<SourcedChange>)
    requires SortedChanges(sorted)
    ensures SortedChanges(InsertChange(c, sorted))
  {
    if sorted != [] && !KeyBefore(c, sorted[0]) {
      var rest := InsertChange(c, sorted[1..]);
      InsertKeepsSorted(c, sorted[1..]);
      InsertElements(c, sorted[1..]);
      forall k | 0 <= k < |rest| ensures KeyBefore(sorted[0], rest[k]) {
        assert rest[k] in multiset(rest);
        assert rest[k] == c || rest[k] in multiset(sorted[1..]);
      }
    }
  }

  /** SortChanges is sorted(): a permutation in key order. */
  lemma {:induction false} SortIsSorted(cs: seq<SourcedChange>)
    ensures SortedChanges(SortChanges(cs)) && multiset(SortChanges(cs)) == multiset(cs)
  {
    SortElements(cs);
    if cs != [] {
      SortIsSorted(cs[1..]);
      InsertKeepsSorted(cs[0], SortChanges(cs[1..]));
    }
  }

  // ----- the sweep -----

  predicate Preserves(m: TextMap, start: nat, end: nat) {
    match m.Interval(start, end, false)
    case None => false
    case Some((left, right)) => Slice(m.variant, left, right) == Slice(m.base, start, end)
  }

  /** A non-empty Base interval that both corrections keep exactly. */
  predicate IsStableAnchor(qwen: TextMap, kimi: TextMap, start: nat, end: nat) {
    start < end && Preserves(qwen, start, end) && Preserves(kimi, start, end)
  }

  /** Whether the next change joins the component that reaches to `end`. */
  predicate Joins(qwen: TextMap, kimi: TextMap, end: nat, next: nat) {
    next < end || !IsStableAnchor(qwen, kimi, end, next)
  }

  /** One step of the sweep, on the components found so far. */
  function Extend(qwen: TextMap, kimi: TextMap, done: seq<Span>, next: Span): seq<Span> {
    if done != [] && Joins(qwen, kimi, done[|done| - 1].end, next.start) then
      var last := done[|done| - 1];
      done[..|done| - 1] + [Span(Min(last.start, next.start), Max(last.end, next.end))]
    else done + [next]
  }

  function Sweep(qwen: TextMap, kimi: TextMap, spans: seq<Span>): seq<Span> {
    if spans == [] then []
    else Extend(qwen, kimi, Sweep(qwen, kimi, spans[..|spans| - 1]), spans[|spans| - 1])
  }

  /** Components: real intervals, strictly ordered, each pair of neighbours held apart by a stable anchor. */
  ghost predicate Components(qwen: TextMap, kimi: TextMap, comps: seq<Span>) {
    && Separated(|qwen.base|, comps)
    && (forall i, j :: 0 <= i < j < |comps| && j == i + 1 ==>
          IsStableAnchor(qwen, kimi, comps[i].end, comps[j].start))
  }

  ghost predicate Separated(length: nat, comps: seq<Span>) {
    && (forall i :: 0 <= i < |comps| ==> comps[i].start <= comps[i].end <= length)
    && (forall i, j :: 0 <= i < j < |comps| ==> comps[i].end < comps[j].start)
  }

  predicate Within(s: Span, c: Span) {
    c.start <= s.start && s.end <= c.end
  }

  ghost predicate Housed(s: Span, comps: seq<Span>) {
    exists j :: 0 <= j < |comps| && Within(s, comps[j])
  }

  ghost predicate RealSpans(length: nat, spans: seq<Span>) {
    forall i :: 0 <= i < |spans| ==> spans[i].start <= spans[i].end <= length
  }

  lemma {:induction false} SweepSeparates(qwen: TextMap, kimi: TextMap, spans: seq<Span>)
    requires SortedSpans(spans) && RealSpans(|qwen.base|, spans)
    ensures Components(qwen, kimi, Sweep(qwen, kimi, spans))
    ensures Sweep(qwen, kimi, spans) == [] <==> spans == []
    ensures spans != [] ==>
              var comps := Sweep(qwen, kimi, spans);
              comps[|comps| - 1].start <= spans[|spans| - 1].start
  {
    if spans != [] {
      var n := |spans| - 1;
      var next := spans[n];
      SweepSeparates(qwen, kimi, spans[..n]);
      if n > 0 { assert SpanBefore(spans[n - 1], next); }
      SweepStep(qwen, kimi, Sweep(qwen, kimi, spans[..n]), next);
    }
  }

  lemma {:induction false} SweepStep(qwen: TextMap, kimi: TextMap, done: seq<Span>, next: Span)
    requires Components(qwen, kimi, done) && next.start <= next.end <= |qwen.base|
    requires done != [] ==> done[|done| - 1].start <= next.start
    ensures Components(qwen, kimi, Extend(qwen, kimi, done, next))
  {
    var comps := Extend(qwen, kimi, done, next);
    assert forall i :: 0 <= i < |done| - 1 ==> comps[i] == done[i];
  }

  lemma {:induction false} ExtendHouses(qwen: TextMap, kimi: TextMap, done: seq<Span>, next: Span, s: Span)
    requires done != [] ==> done[|done| - 1].start <= next.start
    requires Housed(s, done) || s == next
    ensures Housed(s, Extend(qwen, kimi, done, next))
  {
    var comps := Extend(qwen, kimi, done, next);
    if s == next {
      assert Within(s, comps[|comps| - 1]);
    } else {
      var j :| 0 <= j < |done| && Within(s, done[j]);
      assert Within(s, comps[j]);
    }
  }

  lemma {:induction false} SweepHouses(qwen: TextMap, kimi: TextMap, spans: seq<Span>, i: nat)
    requires SortedSpans(spans) && RealSpans(|qwen.base|, spans) && i < |spans|
    ensures Housed(spans[i], Sweep(qwen, kimi, spans))
    decreases |spans|
  {
    hide Extend, Housed;
    var n := |spans| - 1;
    SweepSeparates(qwen, kimi, spans[..n]);
    if n > 0 { assert SpanBefore(spans[n - 1], spans[n]); }
    if i < n {
      SweepHouses(qwen, kimi, spans[..n], i);
    }
    ExtendHouses(qwen, kimi, Sweep(qwen, kimi, spans[..n]), spans[n], spans[i]);
  }

  /** A change lies in one component only. */
  lemma {:induction false} HousedOnce(length: nat, comps: seq<Span>, s: Span, i: nat, j: nat)
    requires Separated(length, comps) && s.start <= s.end
    requires i < |comps| && j < |comps| && Within(s, comps[i]) && Within(s, comps[j])
    ensures i == j
  {
  }

  // ----- each arm is rebuilt from the components -----

  /** Every change of the map lies in some component. */
  ghost predicate Houses(m: TextMap, comps: seq<Span>) {
    forall k :: 0 <= k < |m.opcodes| && !m.opcodes[k].tag.Equal? ==> Housed(Span(m.opcodes[k].a, m.opcodes[k].b), comps)
  }

  lemma {:induction false} ChangeBeforeOrAfter(m: TextMap, comps: seq<Span>, j: nat, k: nat)
    requires m.WellFormed() && Separated(|m.base|, comps) && Houses(m, comps)
    requires j < |comps| && k < |m.opcodes| && !m.opcodes[k].tag.Equal?
    ensures Within(Span(m.opcodes[k].a, m.opcodes[k].b), comps[j])
            || (m.opcodes[k].b < comps[j].start && forall i :: j <= i < |comps| ==> m.opcodes[k].b < comps[i].start)
            || (comps[j].end < m.opcodes[k].a && j + 1 < |comps| && comps[j + 1].start <= m.opcodes[k].a)
  {
    var s := Span(m.opcodes[k].a, m.opcodes[k].b);
    assert m.OpcodeOk(m.opcodes[k]);
    assert Housed(s, comps);
    var i :| 0 <= i < |comps| && Within(s, comps[i]);
    if i < j {
      assert comps[i].end < comps[j].start;
      forall l | j <= l < |comps| ensures s.end < comps[l].start {
        assert comps[i].end < comps[l].start;
      }
    } else if i > j {
      assert comps[j].end < comps[i].start;
      if i > j + 1 { assert comps[j + 1].end < comps[i].start; }
    }
  }

  /** The "cannot map" error of build_merge_plan is unreachable: both edges of a component map exactly. */
  lemma {:induction false} EdgesMap(m: TextMap, comps: seq<Span>, j: nat)
    requires m.WellFormed() && Separated(|m.base|, comps) && Houses(m, comps) && j < |comps|
    ensures m.Boundary(comps[j].start, false).Some? && m.Boundary(comps[j].end, true).Some?
  {
    var c := comps[j];
    if c.start == 0 {
      BoundaryAtStart(m);
    } else {
      var k := Covering(m, c.start - 1);
      BoundaryBefore(m, c.start, k);
      if !m.opcodes[k].tag.Equal? { ChangeBeforeOrAfter(m, comps, j, k); }
    }
    if c.end == |m.base| {
      BoundaryAtEnd(m);
    } else {
      var k := Covering(m, c.end);
      BoundaryAfter(m, c.end, k);
      if !m.opcodes[k].tag.Equal? { ChangeBeforeOrAfter(m, comps, j, k); }
    }
  }

  /** The text an arm proposes for a component. */
  function CandidateText(m: TextMap, c: Span): string {
    match m.Interval(c.start, c.end, true)
    case None => ""
    case Some((left, right)) => Slice(m.variant, left, right)
  }

  function ArmPieces(m: TextMap, comps: seq<Span>): (r: seq<Piece>)
    ensures |r| == |comps|
    ensures forall j :: 0 <= j < |comps| ==> r[j] == Piece(comps[j].start, comps[j].end, CandidateText(m, comps[j]))
  {
    seq(|comps|, j requires 0 <= j < |comps| => Piece(comps[j].start, comps[j].end, CandidateText(m, comps[j])))
  }

  /** Where the text after component j - 1 starts, in Base and in the variant. */
  function Cursor(comps: seq<Span>, j: nat): nat
    requires j <= |comps|
  {
    if j == 0 then 0 else comps[j - 1].end
  }

  ghost function VariantCursor(m: TextMap, comps: seq<Span>, j: nat): nat
    requires j <= |comps|
    requires j > 0 ==> m.Boundary(comps[j - 1].end, true).Some?
  {
    if j == 0 then 0 else m.Boundary(comps[j - 1].end, true).value
  }

  /** Between components both texts agree. */
  lemma {:induction false} GapBefore(m: TextMap, comps: seq<Span>, j: nat)
    requires m.WellFormed() && Separated(|m.base|, comps) && Houses(m, comps) && j < |comps|
    ensures m.Boundary(comps[j].start, false).Some? && (j > 0 ==> m.Boundary(comps[j - 1].end, true).Some?)
    ensures var x, y := VariantCursor(m, comps, j), m.Boundary(comps[j].start, false).value;
            Cursor(comps, j) <= comps[j].start && x <= y <= |m.variant|
            && m.variant[x..y] == m.base[Cursor(comps, j)..comps[j].start]
  {
    EdgesMap(m, comps, j);
    var from, to := Cursor(comps, j), comps[j].start;
    forall k | 0 <= k < |m.opcodes| && !m.opcodes[k].tag.Equal?
      ensures to <= m.opcodes[k].a || (j > 0 && m.opcodes[k].b <= from)
    {
      ChangeBeforeOrAfter(m, comps, j, k);
      if j > 0 { ChangeBeforeOrAfter(m, comps, j - 1, k); }
      if m.opcodes[k].b < to {
        NoneBeforeFirst(m, comps, j, k);
      }
    }
    if j == 0 {
      PrefixText(m, to);
    } else {
      EdgesMap(m, comps, j - 1);
      assert comps[j - 1].end < comps[j].start;
      GapText(m, from, to);
    }
  }

  lemma {:induction false} NoneBeforeFirst(m: TextMap, comps: seq<Span>, j: nat, k: nat)
    requires m.WellFormed() && Separated(|m.base|, comps) && Houses(m, comps)
    requires j < |comps| && k < |m.opcodes| && !m.opcodes[k].tag.Equal? && m.opcodes[k].b < comps[j].start
    ensures j > 0 && m.opcodes[k].b <= comps[j - 1].end
  {
    var s := Span(m.opcodes[k].a, m.opcodes[k].b);
    assert m.OpcodeOk(m.opcodes[k]);
    assert Housed(s, comps);
    var i :| 0 <= i < |comps| && Within(s, comps[i]);
    if i < j - 1 { assert comps[i].end < comps[j - 1].start; }
  }

  lemma {:induction false} GapAfter(m: TextMap, comps: seq<Span>)
    requires m.WellFormed() && Separated(|m.base|, comps) && Houses(m, comps)
    ensures |comps| > 0 ==> m.Boundary(comps[|comps| - 1].end, true).Some?
    ensures var x, from := VariantCursor(m, comps, |comps|), Cursor(comps, |comps|);
            from <= |m.base| && x <= |m.variant| && m.variant[x..] == m.base[from..]
  {
    var n := |comps|;
    var from := Cursor(comps, n);
    if n > 0 { EdgesMap(m, comps, n - 1); }
    forall k | 0 <= k < |m.opcodes| && !m.opcodes[k].tag.Equal? ensures n > 0 && m.opcodes[k].b <= from {
      var s := Span(m.opcodes[k].a, m.opcodes[k].b);
      assert Housed(s, comps);
      var i :| 0 <= i < |comps| && Within(s, comps[i]);
      if i < n - 1 { assert comps[i].end < comps[n - 1].start; }
    }
    SuffixText(m, from, n > 0);
  }

  lemma {:induction false} SuffixText(m: TextMap, from: nat, after: bool)
    requires m.WellFormed() && from <= |m.base| && (!after ==> from == 0)
    requires after ==> m.Boundary(from, true).Some?
    requires forall k :: 0 <= k < |m.opcodes| && !m.opcodes[k].tag.Equal? ==> after && m.opcodes[k].b <= from
    ensures var x := if after then m.Boundary(from, true).value else 0;
            x <= |m.variant| && m.variant[x..] == m.base[from..]
  {
    if m.opcodes == [] {
    } else if from == |m.base| {
      BoundaryAtEnd(m);
      if !after { NoBaseNoEqual(m); }
    } else {
      var i := Covering(m, from);
      var n := |m.opcodes| - 1;
      forall k | i <= k < n + 1 ensures m.opcodes[k].tag.Equal? {
        assert m.OpcodeOk(m.opcodes[k]);
        if i < k { TilesForward(m, i, k); }
      }
      BoundaryAfter(m, from, i);
      EqualRun(m, i, n);
      RunSlice(m, i, n, from, |m.base|);
      assert m.OpcodeOk(m.opcodes[n]);
      assert m.opcodes[i].c + |m.base| - m.opcodes[i].a == |m.variant|;
      var x := m.opcodes[i].c + from - m.opcodes[i].a;
      assert m.variant[x..] == m.variant[x..|m.variant|] && m.base[from..] == m.base[from..|m.base|];
      if !after { StartsAtZero(m, i); }
    }
  }

  lemma {:induction false} NoBaseNoEqual(m: TextMap)
    requires m.WellFormed() && m.opcodes != [] && m.base == ""
    ensures !m.opcodes[0].tag.Equal?
  {
    assert m.OpcodeOk(m.opcodes[0]);
  }

  lemma {:induction false} StartsAtZero(m: TextMap, i: nat)
    requires m.WellFormed() && i < |m.opcodes| && m.opcodes[i].a <= 0 < m.opcodes[i].b
    requires forall k :: 0 <= k < |m.opcodes| ==> m.opcodes[k].tag.Equal?
    ensures m.opcodes[i].c == 0
  {
    assert m.OpcodeOk(m.opcodes[0]);
    if i > 0 { TilesForward(m, 0, i); }
  }

  lemma {:induction false} RebuildFrom(m: TextMap, comps: seq<Span>, j: nat)
    requires m.WellFormed() && Separated(|m.base|, comps) && Houses(m, comps) && j <= |comps|
    ensures j > 0 ==> m.Boundary(comps[j - 1].end, true).Some?
    ensures VariantCursor(m, comps, j) <= |m.variant|
    ensures Assemble(m.base, Cursor(comps, j), ArmPieces(m, comps)[j..]) == m.variant[VariantCursor(m, comps, j)..]
    decreases |comps| - j
  {
    var pieces := ArmPieces(m, comps);
    if j == |comps| {
      GapAfter(m, comps);
      assert pieces[j..] == [];
    } else {
      GapBefore(m, comps, j);
      EdgesMap(m, comps, j);
      RebuildFrom(m, comps, j + 1);
      IntervalIsSlice(m, comps[j].start, comps[j].end, true);
      assert pieces[j..][0] == pieces[j] && pieces[j..][1..] == pieces[j + 1..];
      var x, z := VariantCursor(m, comps, j), VariantCursor(m, comps, j + 1);
      var y := m.Boundary(comps[j].start, false).value;
      ThreeParts(m.variant, x, y, z);
    }
  }

  lemma {:induction false} ThreeParts(s: string, x: nat, y: nat, z: nat)
    requires x <= y <= z <= |s|
    ensures s[x..] == s[x..y] + (s[y..z] + s[z..])
  {
  }

  /** Substituting an arm's candidate in every component of Base gives that arm's whole text. */
  lemma {:induction false} ArmIsRebuilt(m: TextMap, comps: seq<Span>)
    requires m.WellFormed() && Separated(|m.base|, comps) && Houses(m, comps)
    ensures Assemble(m.base, 0, ArmPieces(m, comps)) == m.variant
  {
    RebuildFrom(m, comps, 0);
    assert ArmPieces(m, comps)[0..] == ArmPieces(m, comps);
  }

  // ----- the changes of the two corrections -----

  function AllChanges(qwen: TextMap, kimi: TextMap): seq<SourcedChange> {
    SortChanges(FromSource(Qwen, qwen.Changes()) + FromSource(Kimi, kimi.Changes()))
  }

  function ComponentSpans(qwen: TextMap, kimi: TextMap): seq<Span> {
    Sweep(qwen, kimi, SpansOf(AllChanges(qwen, kimi)))
  }

  lemma {:induction false} ChangeIsOpcode(m: TextMap, ops: seq<Opcode>, c: TextChange)
    requires c in m.ChangesOf(ops)
    ensures exists k :: 0 <= k < |ops| && !ops[k].tag.Equal? && m.Change(ops[k]) == c
  {
    if !ops[0].tag.Equal? && c == m.Change(ops[0]) {
    } else {
      ChangeIsOpcode(m, ops[1..], c);
      var k :| 0 <= k < |ops[1..]| && !ops[1..][k].tag.Equal? && m.Change(ops[1..][k]) == c;
      assert ops[k + 1] == ops[1..][k];
    }
  }

  lemma {:induction false} OpcodeIsChange(m: TextMap, ops: seq<Opcode>, k: nat)
    requires k < |ops| && !ops[k].tag.Equal?
    ensures m.Change(ops[k]) in m.ChangesOf(ops)
  {
    if k > 0 {
      OpcodeIsChange(m, ops[1..], k - 1);
    }
  }

  lemma {:induction false} AllChangesElements(qwen: TextMap, kimi: TextMap, c: SourcedChange)
    ensures c in AllChanges(qwen, kimi) <==>
            (c.source == Qwen && c.change in qwen.Changes()) || (c.source == Kimi && c.change in kimi.Changes())
  {
    var q, k := FromSource(Qwen, qwen.Changes()), FromSource(Kimi, kimi.Changes());
    SortElements(q + k);
    assert c in AllChanges(qwen, kimi) <==> c in multiset(q + k);
    if c.source == Qwen && c.change in qwen.Changes() {
      var i :| 0 <= i < |qwen.Changes()| && qwen.Changes()[i] == c.change;
      assert q[i] == c;
      assert (q + k)[i] == c;
    }
    if c.source == Kimi && c.change in kimi.Changes() {
      var i :| 0 <= i < |kimi.Changes()| && kimi.Changes()[i] == c.change;
      assert k[i] == c;
      assert (q + k)[|q| + i] == c;
    }
  }

  ghost predicate Arms(qwen: TextMap, kimi: TextMap) {
    qwen.WellFormed() && kimi.WellFormed() && qwen.base == kimi.base
  }

  lemma {:induction false} ChangesAreReal(qwen: TextMap, kimi: TextMap)
    requires Arms(qwen, kimi)
    ensures SortedSpans(SpansOf(AllChanges(qwen, kimi)))
    ensures RealSpans(|qwen.base|, SpansOf(AllChanges(qwen, kimi)))
  {
    var cs := AllChanges(qwen, kimi);
    SortIsSorted(FromSource(Qwen, qwen.Changes()) + FromSource(Kimi, kimi.Changes()));
    forall i, j | 0 <= i < j < |cs| ensures SpanBefore(SpansOf(cs)[i], SpansOf(cs)[j]) {
      assert KeyBefore(cs[i], cs[j]);
    }
    forall i | 0 <= i < |cs| ensures SpansOf(cs)[i].start <= SpansOf(cs)[i].end <= |qwen.base| {
      AllChangesElements(qwen, kimi, cs[i]);
      var m := if cs[i].source == Qwen then qwen else kimi;
      ChangeIsOpcode(m, m.opcodes, cs[i].change);
      var k :| 0 <= k < |m.opcodes| && !m.opcodes[k].tag.Equal? && m.Change(m.opcodes[k]) == cs[i].change;
      assert m.OpcodeOk(m.opcodes[k]);
    }
  }

  lemma {:induction false} ArmIsHoused(qwen: TextMap, kimi: TextMap, source: Source)
    requires Arms(qwen, kimi) && (source == Qwen || source == Kimi)
    ensures Houses(if source == Qwen then qwen else kimi, ComponentSpans(qwen, kimi))
  {
    var m := if source == Qwen then qwen else kimi;
    var cs := AllChanges(qwen, kimi);
    ChangesAreReal(qwen, kimi);
    forall k | 0 <= k < |m.opcodes| && !m.opcodes[k].tag.Equal?
      ensures Housed(Span(m.opcodes[k].a, m.opcodes[k].b), ComponentSpans(qwen, kimi))
    {
      var c := SourcedChange(source, m.Change(m.opcodes[k]));
      OpcodeIsChange(m, m.opcodes, k);
      AllChangesElements(qwen, kimi, c);
      var i :| 0 <= i < |cs| && cs[i] == c;
      SweepHouses(qwen, kimi, SpansOf(cs), i);
    }
  }

  /**
   * The decomposition theorem: components are separated by non-empty Base intervals that both
   * corrections keep, every change of either correction is inside one component, and putting
   * one arm's candidates into Base gives back that arm's whole text.
   */
  lemma {:induction false} Decomposition(qwen: TextMap, kimi: TextMap)
    requires Arms(qwen, kimi)
    ensures Components(qwen, kimi, ComponentSpans(qwen, kimi))
    ensures Houses(qwen, ComponentSpans(qwen, kimi)) && Houses(kimi, ComponentSpans(qwen, kimi))
    ensures Assemble(qwen.base, 0, ArmPieces(qwen, ComponentSpans(qwen, kimi))) == qwen.variant
    ensures Assemble(kimi.base, 0, ArmPieces(kimi, ComponentSpans(qwen, kimi))) == kimi.variant
  {
    ChangesAreReal(qwen, kimi);
    SweepSeparates(qwen, kimi, SpansOf(AllChanges(qwen, kimi)));
    ArmIsHoused(qwen, kimi, Qwen);
    ArmIsHoused(qwen, kimi, Kimi);
    ArmIsRebuilt(qwen, ComponentSpans(qwen, kimi));
    ArmIsRebuilt(kimi, ComponentSpans(qwen, kimi));
  }

  /** Exactly one component holds a given change. */
  lemma {:induction false} EveryChangeInOneComponent(qwen: TextMap, kimi: TextMap, c: SourcedChange)
    requires Arms(qwen, kimi) && c in AllChanges(qwen, kimi)
    ensures var comps := ComponentSpans(qwen, kimi);
            exists j :: 0 <= j < |comps| && Within(SpanOf(c), comps[j])
              && forall i :: 0 <= i < |comps| && Within(SpanOf(c), comps[i]) ==> i == j
  {
    var cs, comps := AllChanges(qwen, kimi), ComponentSpans(qwen, kimi);
    ChangesAreReal(qwen, kimi);
    SweepSeparates(qwen, kimi, SpansOf(cs));
    var i :| 0 <= i < |cs| && cs[i] == c;
    SweepHouses(qwen, kimi, SpansOf(cs), i);
    assert SpanOf(c) == SpansOf(cs)[i];
    var j :| 0 <= j < |comps| && Within(SpanOf(c), comps[j]);
    forall i | 0 <= i < |comps| && Within(SpanOf(c), comps[i]) ensures i == j {
      HousedOnce(|qwen.base|, comps, SpanOf(c), i, j);
    }
  }

  // ----- accepted text, cases and the preview -----

  datatype Candidate = Candidate(text: string, left: nat, right: nat)

  datatype Component = Component(start: nat, end: nat, original: string, candidates: map<Source, Candidate>)

  datatype Plan = Plan(
    baseText: string, variants: map<Source, string>,
    resolvedEdits: seq<Edit>, cases: seq<Component>, correctedPreview: string)

  function AddCandidate(
    found: map<Source, Candidate>, source: Source, m: TextMap, c: Span, includeEnd: bool): map<Source, Candidate>
  {
    match m.Interval(c.start, c.end, includeEnd)
    case None => found
    case Some((left, right)) => found[source := Candidate(Slice(m.variant, left, right), left, right)]
  }

  /** A peer insertion at the right edge is left to the next interval, except at the end of Base. */
  predicate IncludesEnd(length: nat, source: Source, c: Span) {
    source != Peer || c.end == length || c.start == c.end
  }

  function ComponentOf(qwen: TextMap, kimi: TextMap, peer: TextMap, c: Span): Component {
    var length := |qwen.base|;
    var original := Slice(qwen.base, c.start, c.end);
    var withBase := map[Base := Candidate(original, c.start, c.end)];
    var withQwen := AddCandidate(withBase, Qwen, qwen, c, IncludesEnd(length, Qwen, c));
    var withKimi := AddCandidate(withQwen, Kimi, kimi, c, IncludesEnd(length, Kimi, c));
    Component(c.start, c.end, original, AddCandidate(withKimi, Peer, peer, c, IncludesEnd(length, Peer, c)))
  }

  /** The text accepted without a case: agreement, or a change by one arm only. */
  function Decide(q: string, k: string, original: string): Option<string> {
    if q == k || q == original || k == original then Some(if q == original then k else q) else None
  }

  function DecideSpan(qwen: TextMap, kimi: TextMap, c: Span): Option<string> {
    Decide(CandidateText(qwen, c), CandidateText(kimi, c), Slice(qwen.base, c.start, c.end))
  }

  function EditFor(qwen: TextMap, kimi: TextMap, c: Span): seq<Edit> {
    var original := Slice(qwen.base, c.start, c.end);
    var q, k := CandidateText(qwen, c), CandidateText(kimi, c);
    match Decide(q, k, original)
    case None => []
    case Some(text) =>
      if text == original then []
      else [Edit(c.start, c.end, original, text, if q == k then Agreement else Singleton)]
  }

  function EditsFor(qwen: TextMap, kimi: TextMap, comps: seq<Span>): seq<Edit> {
    if comps == [] then [] else EditFor(qwen, kimi, comps[0]) + EditsFor(qwen, kimi, comps[1..])
  }

  function CaseFor(qwen: TextMap, kimi: TextMap, peer: TextMap, c: Span): seq<Component> {
    if DecideSpan(qwen, kimi, c).None? then [ComponentOf(qwen, kimi, peer, c)] else []
  }

  function CasesFor(qwen: TextMap, kimi: TextMap, peer: TextMap, comps: seq<Span>): seq<Component> {
    if comps == [] then [] else CaseFor(qwen, kimi, peer, comps[0]) + CasesFor(qwen, kimi, peer, comps[1..])
  }

  /** One piece per component: its accepted text, or Base where a case is open. */
  function PreviewPieces(qwen: TextMap, kimi: TextMap, comps: seq<Span>): (r: seq<Piece>)
    ensures |r| == |comps|
    ensures forall j :: 0 <= j < |comps| ==> r[j] == PreviewPiece(qwen, kimi, comps[j])
  {
    seq(|comps|, j requires 0 <= j < |comps| => PreviewPiece(qwen, kimi, comps[j]))
  }

  function PreviewPiece(qwen: TextMap, kimi: TextMap, c: Span): Piece {
    var settled := DecideSpan(qwen, kimi, c);
    Piece(c.start, c.end, if settled.Some? then settled.value else Slice(qwen.base, c.start, c.end))
  }

  ghost function PlanOf(qwen: TextMap, kimi: TextMap, peer: TextMap): Plan {
    var comps := ComponentSpans(qwen, kimi);
    Plan(
      qwen.base,
      map[Base := qwen.base, Peer := peer.variant, Qwen := qwen.variant, Kimi := kimi.variant],
      EditsFor(qwen, kimi, comps),
      CasesFor(qwen, kimi, peer, comps),
      Assemble(qwen.base, 0, PreviewPieces(qwen, kimi, comps)))
  }

  // ----- the accepted edits always apply -----

  lemma {:induction false} SeparatedIsOrdered(base: string, from: nat, comps: seq<Span>, pieces: seq<Piece>)
    requires Separated(|base|, comps) && |pieces| == |comps| && from <= |base|
    requires comps != [] ==> from <= comps[0].start
    requires forall j :: 0 <= j < |comps| ==> pieces[j].start == comps[j].start && pieces[j].end == comps[j].end
    ensures Ordered(base, from, pieces)
  {
    forall i | 0 <= i < |pieces| ensures from <= pieces[i].start <= pieces[i].end <= |base| {
      if i > 0 { assert comps[0].end < comps[i].start; }
    }
    forall i, j | 0 <= i < j < |pieces| ensures pieces[i].end <= pieces[j].start {
      assert comps[i].end < comps[j].start;
    }
  }

  lemma {:induction false} SeparatedTail(length: nat, comps: seq<Span>)
    requires Separated(length, comps) && comps != []
    ensures Separated(length, comps[1..])
  {
  }

  lemma {:induction false} EditsAreAscending(qwen: TextMap, kimi: TextMap, comps: seq<Span>)
    requires Separated(|qwen.base|, comps)
    ensures Ascending(EditsFor(qwen, kimi, comps))
    ensures forall i :: 0 <= i < |EditsFor(qwen, kimi, comps)| ==> Fits(qwen.base, EditsFor(qwen, kimi, comps)[i])
    ensures forall i :: 0 <= i < |EditsFor(qwen, kimi, comps)| ==>
              comps != [] && EditsFor(qwen, kimi, comps)[i].start >= comps[0].start
    decreases |comps|
  {
    if comps != [] {
      SeparatedTail(|qwen.base|, comps);
      EditsAreAscending(qwen, kimi, comps[1..]);
      var rest := EditsFor(qwen, kimi, comps[1..]);
      forall i | 0 <= i < |rest| ensures comps[0].start < rest[i].start {
        assert comps[0].end < comps[1].start;
      }
    }
  }

  /** The edit of a component is its preview piece, unless that piece restates Base. */
  lemma {:induction false} EditOrIdentity(qwen: TextMap, kimi: TextMap, c: Span)
    ensures |EditFor(qwen, kimi, c)| <= 1
    ensures EditFor(qwen, kimi, c) == [] ==> IsIdentity(qwen.base, PreviewPiece(qwen, kimi, c))
    ensures EditFor(qwen, kimi, c) != [] ==> ToPiece(EditFor(qwen, kimi, c)[0]) == PreviewPiece(qwen, kimi, c)
  {
  }

  lemma {:induction false} PiecesConcat(head: seq<Edit>, tail: seq<Edit>)
    requires |head| <= 1
    ensures ToPieces(head + tail) == (if head == [] then [] else [ToPiece(head[0])]) + ToPieces(tail)
  {
    hide ToPiece;
    if head == [] {
      assert head + tail == tail && [] + ToPieces(tail) == ToPieces(tail);
    } else {
      assert (head + tail)[1..] == tail;
    }
  }

  lemma {:induction false} PreviewCons(qwen: TextMap, kimi: TextMap, comps: seq<Span>)
    requires comps != []
    ensures PreviewPieces(qwen, kimi, comps)
            == [PreviewPiece(qwen, kimi, comps[0])] + PreviewPieces(qwen, kimi, comps[1..])
  {
  }

  lemma {:induction false} EditsAreKept(qwen: TextMap, kimi: TextMap, comps: seq<Span>)
    ensures IsKeptFrom(qwen.base, PreviewPieces(qwen, kimi, comps), ToPieces(EditsFor(qwen, kimi, comps)))
    decreases |comps|
  {
    if comps != [] {
      var edit, edits := EditFor(qwen, kimi, comps[0]), EditsFor(qwen, kimi, comps[1..]);
      var piece, pieces := PreviewPiece(qwen, kimi, comps[0]), PreviewPieces(qwen, kimi, comps[1..]);
      EditsAreKept(qwen, kimi, comps[1..]);
      EditOrIdentity(qwen, kimi, comps[0]);
      PiecesConcat(edit, edits);
      PreviewCons(qwen, kimi, comps);
      HeadIsKept(qwen.base, piece, pieces, edit, ToPieces(edits));
    }
  }

  lemma {:induction false} HeadIsKept(base: string, p: Piece, pieces: seq<Piece>, edit: seq<Edit>, kept: seq<Piece>)
    requires IsKeptFrom(base, pieces, kept) && |edit| <= 1
    requires edit == [] ==> IsIdentity(base, p)
    requires edit != [] ==> ToPiece(edit[0]) == p
    ensures IsKeptFrom(base, [p] + pieces, (if edit == [] then [] else [ToPiece(edit[0])]) + kept)
  {
    if edit == [] {
      KeptWithout(base, p, pieces, kept);
      assert [] + kept == kept;
    } else {
      KeptWith(base, p, pieces, kept);
    }
  }

  /** apply_resolved_payload accepts the plan's own edits, and gives the settled pieces in Base. */
  lemma {:induction false} AcceptedEditsApply(qwen: TextMap, kimi: TextMap, comps: seq<Span>)
    requires Separated(|qwen.base|, comps)
    ensures Applied(qwen.base, EditsFor(qwen, kimi, comps))
            == Ok(Assemble(qwen.base, 0, PreviewPieces(qwen, kimi, comps)))
  {
    var pieces, edits := PreviewPieces(qwen, kimi, comps), EditsFor(qwen, kimi, comps);
    SeparatedIsOrdered(qwen.base, 0, comps, pieces);
    EditsAreAscending(qwen, kimi, comps);
    EditsAreKept(qwen, kimi, comps);
    EditsRealise(qwen.base, pieces, edits, edits);
  }

  // ----- build_merge_plan -----

  function MinStart(group: seq<SourcedChange>): nat
    requires group != []
  {
    var n := |group| - 1;
    if n == 0 then group[0].change.start else Min(MinStart(group[..n]), group[n].change.start)
  }

  function MaxEnd(group: seq<SourcedChange>): nat
    requires group != []
  {
    var n := |group| - 1;
    if n == 0 then group[0].change.end else Max(MaxEnd(group[..n]), group[n].change.end)
  }

  /** A group's component: `min(start)` and `max(end)` over its changes. */
  ghost predicate GroupsAre(groups: seq<seq<SourcedChange>>, comps: seq<Span>) {
    && |groups| == |comps|
    && forall j :: 0 <= j < |groups| ==> groups[j] != [] && Span(MinStart(groups[j]), MaxEnd(groups[j])) == comps[j]
  }

  lemma {:induction false} GroupExtended(group: seq<SourcedChange>, c: SourcedChange)
    requires group != []
    ensures MinStart(group + [c]) == Min(MinStart(group), c.change.start)
    ensures MaxEnd(group + [c]) == Max(MaxEnd(group), c.change.end)
  {
    assert (group + [c])[..|group|] == group;
  }

  function AddToGroups(
    qwen: TextMap, kimi: TextMap, groups: seq<seq<SourcedChange>>, c: SourcedChange): seq<seq<SourcedChange>>
    requires groups == [] || groups[|groups| - 1] != []
  {
    if groups != [] && Joins(qwen, kimi, MaxEnd(groups[|groups| - 1]), c.change.start)
    then groups[..|groups| - 1] + [groups[|groups| - 1] + [c]]
    else groups + [[c]]
  }

  lemma {:induction false} AddKeepsOrder(
    qwen: TextMap, kimi: TextMap, groups: seq<seq<SourcedChange>>, c: SourcedChange)
    requires groups == [] || groups[|groups| - 1] != []
    ensures Flatten(AddToGroups(qwen, kimi, groups, c)) == Flatten(groups) + [c]
  {
    var after := AddToGroups(qwen, kimi, groups, c);
    if |after| == |groups| {
      var init, last := groups[..|groups| - 1], groups[|groups| - 1];
      assert after[..|after| - 1] == init;
      assert Flatten(init) + (last + [c]) == (Flatten(init) + last) + [c];
    } else {
      assert after[..|after| - 1] == groups;
    }
  }

  lemma {:induction false} AddExtends(
    qwen: TextMap, kimi: TextMap, groups: seq<seq<SourcedChange>>, comps: seq<Span>, c: SourcedChange)
    requires GroupsAre(groups, comps)
    ensures GroupsAre(AddToGroups(qwen, kimi, groups, c), Extend(qwen, kimi, comps, SpanOf(c)))
  {
    var n := |groups|;
    if n > 0 {
      assert comps[n - 1] == Span(MinStart(groups[n - 1]), MaxEnd(groups[n - 1]));
      GroupExtended(groups[n - 1], c);
    }
  }

  /** What the grouping loop keeps after the changes `done`; `end` is the running maximum. */
  ghost predicate Grouped(
    qwen: TextMap, kimi: TextMap, done: seq<SourcedChange>, groups: seq<seq<SourcedChange>>, end: int)
  {
    && GroupsAre(groups, Sweep(qwen, kimi, SpansOf(done)))
    && Flatten(groups) == done
    && end == if groups == [] then -1 else MaxEnd(groups[|groups| - 1])
  }

  lemma {:induction false} GroupStep(
    qwen: TextMap, kimi: TextMap, done: seq<SourcedChange>, groups: seq<seq<SourcedChange>>, end: int, c: SourcedChange)
    requires Grouped(qwen, kimi, done, groups, end) && c.change.start <= c.change.end
    ensures Grouped(qwen, kimi, done + [c], AddToGroups(qwen, kimi, groups, c), Max(end, c.change.end))
  {
    var spans := SpansOf(done + [c]);
    assert spans[..|done|] == SpansOf(done) && spans[|done|] == SpanOf(c);
    AddExtends(qwen, kimi, groups, Sweep(qwen, kimi, SpansOf(done)), c);
    AddKeepsOrder(qwen, kimi, groups, c);
    if groups != [] {
      GroupExtended(groups[|groups| - 1], c);
    }
  }

  /** The grouping loop: consecutive runs of the sorted changes, one run per component. */
  method GroupChanges(qwen: TextMap, kimi: TextMap, changes: seq<SourcedChange>)
    returns (groups: seq<seq<SourcedChange>>)
    requires forall i :: 0 <= i < |changes| ==> changes[i].change.start <= changes[i].change.end
    ensures GroupsAre(groups, Sweep(qwen, kimi, SpansOf(changes)))
    ensures Flatten(groups) == changes
  {
    hide IsStableAnchor;
    groups := [];
    var end := -1;
    var i := 0;
    while i < |changes|
      invariant 0 <= i <= |changes|
      invariant Grouped(qwen, kimi, changes[..i], groups, end)
    {
      var c := changes[i];
      GroupStep(qwen, kimi, changes[..i], groups, end, c);
      assert changes[..i + 1] == changes[..i] + [c];
      if groups != [] && (c.change.start < end || !IsStableAnchor(qwen, kimi, end, c.change.start)) {
        groups := groups[..|groups| - 1] + [groups[|groups| - 1] + [c]];
      } else {
        groups := groups + [[c]];
      }
      end := Max(end, c.change.end);
      i := i + 1;
    }
    assert changes[..i] == changes;
  }

  /** The candidate loop over the sources of one component. */
  method CollectCandidates(qwen: TextMap, kimi: TextMap, peer: TextMap, c: Span) returns (r: Result<Component>)
    requires qwen.base == kimi.base == peer.base && c.start <= c.end <= |qwen.base|
    ensures r == Ok(ComponentOf(qwen, kimi, peer, c))
  {
    var candidates := map[Base := Candidate(Slice(qwen.base, c.start, c.end), c.start, c.end)];
    var sources, maps := [Qwen, Kimi, Peer], [qwen, kimi, peer];
    ghost var states := [candidates];
    var i := 0;
    while i < 3
      invariant 0 <= i <= 3 && |states| == i + 1 && states[i] == candidates
      invariant states[0] == map[Base := Candidate(Slice(qwen.base, c.start, c.end), c.start, c.end)]
      invariant forall j :: 0 <= j < i ==>
                  states[j + 1] ==
                      AddCandidate(states[j], sources[j], maps[j], c, IncludesEnd(|qwen.base|, sources[j], c))
    {
      var found := maps[i].FindInterval(c.start, c.end, IncludesEnd(|qwen.base|, sources[i], c));
      if found.Err? {
        return Err(ContractError);
      }
      if found.value.Some? {
        var (left, right) := found.value.value;
        candidates := candidates[sources[i] := Candidate(Slice(maps[i].variant, left, right), left, right)];
      }
      states := states + [candidates];
      i := i + 1;
    }
    assert states[1] == AddCandidate(states[0], Qwen, qwen, c, true);
    assert states[2] == AddCandidate(states[1], Kimi, kimi, c, true);
    return Ok(Component(c.start, c.end, Slice(qwen.base, c.start, c.end), candidates));
  }

  lemma {:induction false} ComponentHasArms(qwen: TextMap, kimi: TextMap, peer: TextMap, comps: seq<Span>, j: nat)
    requires Arms(qwen, kimi) && Separated(|qwen.base|, comps) && j < |comps|
    requires Houses(qwen, comps) && Houses(kimi, comps)
    ensures var found := ComponentOf(qwen, kimi, peer, comps[j]).candidates;
      && Base in found && found[Base].text == Slice(qwen.base, comps[j].start, comps[j].end)
      && Qwen in found && found[Qwen].text == CandidateText(qwen, comps[j])
      && Kimi in found && found[Kimi].text == CandidateText(kimi, comps[j])
  {
    EdgesMap(qwen, comps, j);
    EdgesMap(kimi, comps, j);
  }

  predicate Mapped(q: TextMap, k: TextMap, c: Span) {
    && c.start <= c.end <= |q.base|
    && q.Interval(c.start, c.end, true).Some?
    && k.Interval(c.start, c.end, true).Some?
  }

  /** The "cannot map to its source transcripts" error has no component to be raised for. */
  lemma {:induction false} ComponentsAreMapped(q: TextMap, k: TextMap)
    requires Arms(q, k)
    ensures forall j :: 0 <= j < |ComponentSpans(q, k)| ==> Mapped(q, k, ComponentSpans(q, k)[j])
  {
    var comps := ComponentSpans(q, k);
    Decomposition(q, k);
    forall j | 0 <= j < |comps| ensures Mapped(q, k, comps[j]) {
      EdgesMap(q, comps, j);
      EdgesMap(k, comps, j);
    }
  }

  /** One turn of the settling loop: the component is accepted, unchanged, or becomes a case. */
  method SettleComponent(q: TextMap, k: TextMap, p: TextMap, c: Span)
    returns (r: Result<(seq<Edit>, seq<Component>)>)
    requires q.base == k.base == p.base && c.start <= c.end <= |q.base|
    ensures r == if Mapped(q, k, c) then Ok((EditFor(q, k, c), CaseFor(q, k, p, c))) else Err(ContractError)
  {
    var found := CollectCandidates(q, k, p, c);
    var record := found.value;
    if !(Qwen in record.candidates && Kimi in record.candidates) {
      return Err(ContractError);
    }
    var qText, kText := record.candidates[Qwen].text, record.candidates[Kimi].text;
    var original := record.candidates[Base].text;
    if qText == kText || qText == original || kText == original {
      var text := if qText == original then kText else qText;
      if text != original {
        return Ok(([Edit(c.start, c.end, original, text, if qText == kText then Agreement else Singleton)], []));
      }
      return Ok(([], []));
    }
    return Ok(([], [record]));
  }

  lemma {:induction false} SettledPrefix(
    q: TextMap, k: TextMap, p: TextMap, comps: seq<Span>, i: nat, accepted: seq<Edit>, cases: seq<Component>)
    requires i < |comps|
    ensures accepted + EditsFor(q, k, comps[i..])
            == (accepted + EditFor(q, k, comps[i])) + EditsFor(q, k, comps[i + 1..])
    ensures cases + CasesFor(q, k, p, comps[i..])
            == (cases + CaseFor(q, k, p, comps[i])) + CasesFor(q, k, p, comps[i + 1..])
  {
    assert comps[i..][0] == comps[i] && comps[i..][1..] == comps[i + 1..];
  }

  /** The settling loop over all components. */
  method SettleGroups(
    q: TextMap, k: TextMap, p: TextMap, groups: seq<seq<SourcedChange>>, ghost comps: seq<Span>)
    returns (r: Result<(seq<Edit>, seq<Component>)>)
    requires q.base == k.base == p.base
    requires GroupsAre(groups, comps) && forall j :: 0 <= j < |comps| ==> Mapped(q, k, comps[j])
    ensures r == Ok((EditsFor(q, k, comps), CasesFor(q, k, p, comps)))
  {
    var accepted: seq<Edit> := [];
    var cases: seq<Component> := [];
    var i := 0;
    assert comps[0..] == comps;
    while i < |groups|
      invariant 0 <= i <= |groups|
      invariant accepted + EditsFor(q, k, comps[i..]) == EditsFor(q, k, comps)
      invariant cases + CasesFor(q, k, p, comps[i..]) == CasesFor(q, k, p, comps)
    {
      var c := Span(MinStart(groups[i]), MaxEnd(groups[i]));
      assert c == comps[i] && Mapped(q, k, comps[i]);
      var settled := SettleComponent(q, k, p, c);
      if settled.Err? {
        return Err(ContractError);
      }
      SettledPrefix(q, k, p, comps, i, accepted, cases);
      accepted := accepted + settled.value.0;
      cases := cases + settled.value.1;
      i := i + 1;
    }
    assert comps[i..] == [];
    assert accepted + [] == accepted && cases + [] == cases;
    return Ok((accepted, cases));
  }

  /**
   * build_merge_plan. With a diff library that keeps its contract it never raises: every round-trip
   * check passes, every component maps to both corrections, and the accepted edits apply.
   */
  method BuildMergePlan(base: string, peer: string, qwen: string, kimi: string, diff: Differ)
    returns (r: Result<Plan>)
    requires DiffContract(diff)
    ensures r == Ok(PlanOf(MapOf(diff, base, qwen), MapOf(diff, base, kimi), MapOf(diff, base, peer)))
  {
    var baseMap := BuildTextMap(base, base, diff(base, base));
    var peerMap := BuildTextMap(base, peer, diff(base, peer));
    var qwenMap := BuildTextMap(base, qwen, diff(base, qwen));
    var kimiMap := BuildTextMap(base, kimi, diff(base, kimi));
    assert MapOf(diff, base, base).WellFormed() && MapOf(diff, base, peer).WellFormed();
    assert MapOf(diff, base, qwen).WellFormed() && MapOf(diff, base, kimi).WellFormed();
    if baseMap.Err? || peerMap.Err? || qwenMap.Err? || kimiMap.Err? {
      return Err(ContractError);
    }
    var q, k, p := qwenMap.value, kimiMap.value, peerMap.value;
    var changes := SortChanges(FromSource(Qwen, q.Changes()) + FromSource(Kimi, k.Changes()));
    ChangesAreReal(q, k);
    Decomposition(q, k);
    ghost var comps := ComponentSpans(q, k);
    assert forall i :: 0 <= i < |changes| ==> SpansOf(changes)[i] == SpanOf(changes[i]);
    var groups := GroupChanges(q, k, changes);
    ComponentsAreMapped(q, k);
    var settled := SettleGroups(q, k, p, groups, comps);
    if settled.Err? {
      return Err(ContractError);
    }
    var (accepted, cases) := settled.value;
    AcceptedEditsApply(q, k, comps);
    var preview := ApplyResolvedPayload(base, accepted);
    if preview.Err? {
      return Err(ContractError);
    }
    var variants := map[Base := base, Peer := peer, Qwen := qwen, Kimi := kimi];
    return Ok(Plan(base, variants, accepted, cases, preview.value));
  }

  function MapOf(diff: Differ, base: string, variant: string): TextMap {
    TextMap(base, variant, diff(base, variant))
  }
}
