/** src/cueflow/conflict_selection.py: turning open cases into bounded selection batches. */
module SelectionBatches {
  import opened Outcomes
  import opened EditResolution
  import opened TextDiff
  import opened MergePlan
  import MergeLaws

  datatype Config = Config(contextChars: nat, maxContextChars: nat, maxCases: nat, maxInputBytes: nat)

  /** SelectionConfig() of src/cueflow/config.py; validate_batch always uses its `max_cases`. */
  const DEFAULT_CONFIG := Config(400, 500, 8, 48_000)

  /** A digest that never collides: it is the hashed record itself. */
  datatype CaseId = CaseId(record: Component)

  datatype CandidateOption = CandidateOption(candidateId: nat, text: string)

  datatype Version = Version(versionId: nat, candidateId: nat, before: string, target: string, after: string)

  datatype Request = Request(
    caseId: CaseId, candidates: seq<CandidateOption>, versions: seq<Version>, keepCandidateId: nat)

  /** interval [a, b] and context_interval [x, y] in the source's own text. */
  datatype Provenance = Provenance(source: Source, a: nat, b: nat, x: nat, y: nat)

  datatype SelectionCase = SelectionCase(
    request: Request, provenance: map<nat, Provenance>, start: nat, end: nat, original: string)

  datatype Batch = Batch(cases: seq<SelectionCase>, request: seq<Request>)

  type Maps = map<Source, TextMap>

  // ----- the frozen transcripts behind a case -----

  /** Base, the peer and both corrections, each diffed against the same Base. */
  ghost predicate Sources(maps: Maps) {
    && maps.Keys == {Base, Qwen, Kimi, Peer}
    && (forall s :: s in maps ==> maps[s].WellFormed() && maps[s].base == maps[Base].base)
    && maps[Base].variant == maps[Base].base
  }

  /** What build_merge_plan records for a case: exact mapped slices, and a real conflict. */
  ghost predicate CaseOf(maps: Maps, c: Component)
    requires Sources(maps)
  {
    && c.start <= c.end <= |maps[Base].base|
    && c.original == maps[Base].base[c.start..c.end]
    && {Base, Qwen, Kimi} <= c.candidates.Keys
    && (forall s :: s in c.candidates ==> s in maps && CandidateOf(maps[s], c, c.candidates[s]))
    && c.candidates[Base].text == c.original
    && c.candidates[Qwen].text != c.candidates[Kimi].text
    && c.candidates[Qwen].text != c.original && c.candidates[Kimi].text != c.original
  }

  ghost predicate CandidateOf(m: TextMap, c: Component, found: Candidate) {
    && found.left <= found.right <= |m.variant| && found.text == m.variant[found.left..found.right]
    && exists includeEnd :: m.Interval(c.start, c.end, includeEnd) == Some((found.left, found.right))
  }

  lemma {:induction false} FoundIsCandidate(m: TextMap, c: Component, includeEnd: bool)
    requires m.WellFormed() && c.start <= c.end <= |m.base| && m.Interval(c.start, c.end, includeEnd).Some?
    ensures var (left, right) := m.Interval(c.start, c.end, includeEnd).value;
            CandidateOf(m, c, Candidate(Slice(m.variant, left, right), left, right))
  {
    IntervalIsSlice(m, c.start, c.end, includeEnd);
  }

  lemma {:induction false} ComponentIsCase(maps: Maps, c: Span)
    requires Sources(maps) && Mapped(maps[Qwen], maps[Kimi], c)
    requires DecideSpan(maps[Qwen], maps[Kimi], c).None?
    ensures CaseOf(maps, ComponentOf(maps[Qwen], maps[Kimi], maps[Peer], c))
  {
    hide CandidateOf, ComponentOf, DecideSpan;
    var record := ComponentOf(maps[Qwen], maps[Kimi], maps[Peer], c);
    MappedTexts(maps[Qwen], maps[Kimi], maps[Peer], c);
    forall s | s in record.candidates ensures s in maps && CandidateOf(maps[s], record, record.candidates[s]) {
      ComponentCandidate(maps, c, s);
    }
  }

  /** The record of an open component: three candidates with three texts. */
  lemma {:induction false} MappedTexts(q: TextMap, k: TextMap, p: TextMap, c: Span)
    requires Mapped(q, k, c) && DecideSpan(q, k, c).None?
    ensures var r, original := ComponentOf(q, k, p, c), q.base[c.start..c.end];
      && r.start == c.start && r.end == c.end && r.original == original && {Base, Qwen, Kimi} <= r.candidates.Keys
      && r.candidates[Base].text == original && r.candidates[Qwen].text != r.candidates[Kimi].text
      && r.candidates[Qwen].text != original && r.candidates[Kimi].text != original
  {
  }

  lemma {:induction false} ComponentCandidate(maps: Maps, c: Span, s: Source)
    requires Sources(maps) && Mapped(maps[Qwen], maps[Kimi], c)
    requires s in ComponentOf(maps[Qwen], maps[Kimi], maps[Peer], c).candidates
    ensures s in maps
    ensures var record := ComponentOf(maps[Qwen], maps[Kimi], maps[Peer], c);
            CandidateOf(maps[s], record, record.candidates[s])
  {
    var record := ComponentOf(maps[Qwen], maps[Kimi], maps[Peer], c);
    if s == Base {
      MergeLaws.UnchangedBoundary(maps[Base], c.start);
      MergeLaws.UnchangedBoundary(maps[Base], c.end);
      FoundIsCandidate(maps[Base], record, true);
    } else {
      assert s in {Qwen, Kimi, Peer};
      FoundIsCandidate(maps[s], record, IncludesEnd(|maps[Base].base|, s, c));
    }
  }

  lemma {:induction false} CasesComeFrom(q: TextMap, k: TextMap, p: TextMap, comps: seq<Span>, i: nat) returns (j: nat)
    requires i < |CasesFor(q, k, p, comps)|
    ensures j < |comps| && CaseFor(q, k, p, comps[j]) == [CasesFor(q, k, p, comps)[i]]
  {
    hide CaseFor;
    CasesCons(q, k, p, comps);
    var head, tail := CaseFor(q, k, p, comps[0]), CasesFor(q, k, p, comps[1..]);
    IndexInEither(head, tail, i);
    if i < |head| {
      j := 0;
    } else {
      j := CasesComeFrom(q, k, p, comps[1..], i - |head|);
      assert comps[1..][j] == comps[j + 1];
      j := j + 1;
    }
  }

  lemma {:induction false} CasesCons(q: TextMap, k: TextMap, p: TextMap, comps: seq<Span>)
    requires CasesFor(q, k, p, comps) != []
    ensures comps != [] && |CaseFor(q, k, p, comps[0])| <= 1
    ensures CasesFor(q, k, p, comps) == CaseFor(q, k, p, comps[0]) + CasesFor(q, k, p, comps[1..])
  {
  }

  lemma {:induction false} IndexInEither(head: seq<Component>, tail: seq<Component>, i: nat)
    requires |head| <= 1 && i < |head + tail|
    ensures i < |head| ==> head == [(head + tail)[i]]
    ensures i >= |head| ==> (head + tail)[i] == tail[i - |head|]
  {
  }

  /** Every case of a merge plan is a real three-way conflict with exact source intervals. */
  lemma {:induction false} PlanCasesAreCases(maps: Maps)
    requires Sources(maps)
    ensures forall i :: 0 <= i < |PlanOf(maps[Qwen], maps[Kimi], maps[Peer]).cases| ==>
              CaseOf(maps, PlanOf(maps[Qwen], maps[Kimi], maps[Peer]).cases[i])
  {
    var q, k, p := maps[Qwen], maps[Kimi], maps[Peer];
    var comps := ComponentSpans(q, k);
    ComponentsAreMapped(q, k);
    forall i | 0 <= i < |CasesFor(q, k, p, comps)| ensures CaseOf(maps, CasesFor(q, k, p, comps)[i]) {
      var j := CasesComeFrom(q, k, p, comps, i);
      assert Mapped(q, k, comps[j]);
      ComponentIsCase(maps, comps[j]);
    }
  }

  // ----- _context_bounds -----

  predicate IsStop(c: char) {
    c in ['\U{3002}', '\U{FF01}', '\U{FF1F}', '!', '?', '\n']
  }

  /** `base[right - 1]`; at 0 Python wraps around to the last character. */
  function Previous(base: string, right: nat): char
    requires base != "" && right <= |base|
  {
    if right == 0 then base[|base| - 1] else base[right - 1]
  }

  /** Position `p` is passed when the limit is not reached and no sentence ends there. */
  predicate Passed(base: string, p: nat) {
    base != "" && p <= |base| && !IsStop(Previous(base, p))
  }

  ghost predicate AllPassed(base: string, low: nat, high: nat) {
    forall p: nat :: low <= p < high ==> Passed(base, p)
  }

  /** The edge moved left from `first` over every position it passed, and stops at the limit or at a stop. */
  ghost predicate MovedLeft(base: string, first: nat, limit: nat, edge: nat) {
    && edge <= first <= |base| && (edge == first || limit <= edge)
    && (edge <= limit || !Passed(base, edge))
    && AllPassed(base, edge + 1, first + 1)
  }

  ghost predicate MovedRight(base: string, first: nat, limit: nat, edge: nat) {
    && first <= edge <= |base| && (edge == first || edge <= limit)
    && (limit <= edge || !Passed(base, edge))
    && AllPassed(base, first, edge)
  }

  /** The context edges of Base: the nearest sentence stops outside the plain context, or the context limit. */
  ghost predicate IsBounds(base: string, start: nat, end: nat, config: Config, left: nat, right: nat) {
    && start <= end <= |base| && left <= start && end <= right
    && MovedLeft(base, Max(0, start - config.contextChars), Max(0, start - config.maxContextChars), left)
    && MovedRight(
         base, Min(|base|, end + config.contextChars), Min(|base|, end + config.maxContextChars), right)
  }

  /** Both context edges, by two loops. */
  method ContextBounds(base: string, start: nat, end: nat, config: Config) returns (left: nat, right: nat)
    requires start <= end <= |base|
    ensures IsBounds(base, start, end, config, left, right)
  {
    var first, limit := Max(0, start - config.contextChars), Max(0, start - config.maxContextChars);
    left := first;
    while left > limit && !IsStop(base[left - 1])
      invariant 0 <= left <= first
      invariant (left == first || limit <= left) && AllPassed(base, left + 1, first + 1)
    {
      assert Passed(base, left);
      left := left - 1;
    }
    var firstRight, limitRight := Min(|base|, end + config.contextChars), Min(|base|, end + config.maxContextChars);
    right := firstRight;
    while right < limitRight && !IsStop(Previous(base, right))
      invariant firstRight <= right <= |base|
      invariant (right == firstRight || right <= limitRight) && AllPassed(base, firstRight, right)
    {
      assert Passed(base, right);
      right := right + 1;
    }
  }

  // ----- widening a context edge to an exact boundary -----

  /** The widening loops stop at the nearest exact boundaries, at the latest at the ends of Base. */
  method WidenContext(m: TextMap, left: nat, right: nat) returns (r: Result<(nat, nat)>)
    requires m.WellFormed() && left <= right <= |m.base|
    ensures r.Ok? && Widened(m, left, right, r.value.0, r.value.1)
  {
    var l, h := left, right;
    while l > 0 && m.Boundary(l, false).None?
      invariant 0 <= l <= left
      invariant forall p :: l < p <= left ==> m.Boundary(p, false).None?
    {
      l := l - 1;
    }
    while h < |m.base| && m.Boundary(h, false).None?
      invariant right <= h <= |m.base|
      invariant forall p :: right <= p < h ==> m.Boundary(p, false).None?
    {
      h := h + 1;
    }
    BoundaryAtStart(m);
    BoundaryAtEnd(m);
    SameDomain(m, 0, h, []);
    var x, y := m.Boundary(l, false), m.Boundary(h, true);
    assert IsWidened(m, left, right, l, h);
    if x.None? || y.None? {
      return Err(ContractError);
    }
    return Ok((x.value, y.value));
  }

  ghost predicate IsWidened(m: TextMap, left: nat, right: nat, l: nat, h: nat) {
    && l <= left && right <= h <= |m.base|
    && m.Boundary(l, false).Some? && m.Boundary(h, true).Some?
    && (forall p :: l < p <= left ==> m.Boundary(p, false).None?)
    && (forall p :: right <= p < h ==> m.Boundary(p, false).None?)
  }

  /** The variant positions of the widened edges. */
  ghost predicate Widened(m: TextMap, left: nat, right: nat, x: nat, y: nat) {
    exists l: nat, h: nat ::
      IsWidened(m, left, right, l, h) && m.Boundary(l, false) == Some(x) && m.Boundary(h, true) == Some(y)
  }

  /** A widened context encloses the source interval of the case. */
  lemma {:induction false} ContextEncloses(m: TextMap, c: Component, found: Candidate, l: nat, h: nat)
    requires m.WellFormed() && c.start <= c.end <= |m.base| && CandidateOf(m, c, found)
    requires l <= c.start && c.end <= h <= |m.base|
    requires m.Boundary(l, false).Some? && m.Boundary(h, true).Some?
    ensures m.Boundary(l, false).value <= found.left <= found.right <= m.Boundary(h, true).value <= |m.variant|
  {
    BoundaryInRange(m, 0, h, [], true);
    if l < c.start { BeforeMonotone(m, l, c.start); }
    SameDomain(m, 0, c.end, []);
    BeforeAfter(m, 0, c.end, []);
    if c.end < h { AfterMonotone(m, c.end, h); }
  }

  // ----- _selection_case -----

  ghost predicate Distinct<T(!new)>(s: seq<T>) {
    forall i, j :: 0 <= i < j < |s| ==> s[i] != s[j]
  }

  /** Some order of a set's elements; the original sorts by a hash, so every order is allowed for. */
  ghost predicate IsOrdering<T(!new)>(s: seq<T>, elements: set<T>) {
    Distinct(s) && forall x :: x in s <==> x in elements
  }

  function CandidateTexts(c: Component): set<string> {
    set s | s in c.candidates :: c.candidates[s].text
  }

  /** `ids[text]`: the one-based place of the text among the ordered options. */
  function IdOf(texts: seq<string>, text: string): (id: nat)
    requires text in texts
    ensures 1 <= id <= |texts| && texts[id - 1] == text
  {
    if texts[0] == text then 1 else IdOf(texts[1..], text) + 1
  }

  function OptionsOf(texts: seq<string>): (r: seq<CandidateOption>)
    ensures |r| == |texts| && forall i :: 0 <= i < |texts| ==> r[i] == CandidateOption(i + 1, texts[i])
  {
    seq(|texts|, i requires 0 <= i < |texts| => CandidateOption(i + 1, texts[i]))
  }

  /** One version shows a source's own text around the case: before, target and after are contiguous. */
  ghost predicate VersionShows(
    m: TextMap, config: Config, c: Component, source: Source, texts: seq<string>, v: Version, p: Provenance)
    requires source in c.candidates
  {
    && p.source == source && p.a == c.candidates[source].left && p.b == c.candidates[source].right
    && p.x <= p.a <= p.b <= p.y <= |m.variant|
    && v.before == m.variant[p.x..p.a] && v.target == m.variant[p.a..p.b] && v.after == m.variant[p.b..p.y]
    && 1 <= v.candidateId <= |texts| && texts[v.candidateId - 1] == v.target
    && IsContext(m, config, c, p.x, p.y)
  }

  /** The context edges, each widened to the nearest position that maps. */
  ghost predicate IsContext(m: TextMap, config: Config, c: Component, x: nat, y: nat) {
    exists left: nat, right: nat ::
      IsBounds(m.base, c.start, c.end, config, left, right) && Widened(m, left, right, x, y)
  }

  /** What an emitted selection case says about the case it stands for. */
  ghost predicate Faithful(
    maps: Maps, config: Config, c: Component, texts: seq<string>, sources: seq<Source>, item: SelectionCase)
  {
    && item.request.caseId == CaseId(c)
    && item.start == c.start && item.end == c.end && item.original == c.original
    && item.request.candidates == OptionsOf(texts)
    && 1 <= item.request.keepCandidateId <= |texts| && texts[item.request.keepCandidateId - 1] == c.original
    && |item.request.versions| == |sources|
    && VersionsDone(maps, config, c, texts, sources, item.request.versions, item.provenance)
  }

  lemma {:induction false} ContextIsFound(
    m: TextMap, config: Config, c: Component, found: Candidate, left: nat, right: nat, x: nat, y: nat)
    requires m.WellFormed() && CandidateOf(m, c, found) && IsBounds(m.base, c.start, c.end, config, left, right)
    requires Widened(m, left, right, x, y)
    ensures IsContext(m, config, c, x, y) && x <= found.left <= found.right <= y <= |m.variant|
  {
    var l: nat, h: nat :|
      IsWidened(m, left, right, l, h) && m.Boundary(l, false) == Some(x) && m.Boundary(h, true) == Some(y);
    ContextEncloses(m, c, found, l, h);
  }

  /** One version of a case; "Context could not be mapped" is unreachable. */
  method BuildVersion(
    m: TextMap, c: Component, source: Source, texts: seq<string>, id: nat, left: nat, right: nat,
    ghost config: Config)
    returns (r: Result<(Version, Provenance)>)
    requires m.WellFormed() && source in c.candidates && CandidateOf(m, c, c.candidates[source])
    requires IsBounds(m.base, c.start, c.end, config, left, right)
    requires c.candidates[source].text in texts
    ensures r.Ok? && r.value.0.versionId == id
    ensures VersionShows(m, config, c, source, texts, r.value.0, r.value.1)
  {
    hide IsContext, MovedLeft, Widened, AllPassed;
    var found := c.candidates[source];
    var context := WidenContext(m, left, right);
    var (x, y) := context.value;
    ContextIsFound(m, config, c, found, left, right, x, y);
    var v := Version(id, IdOf(texts, found.text), m.variant[x..found.left], m.variant[found.left..found.right],
                     m.variant[found.right..y]);
    return Ok((v, Provenance(source, found.left, found.right, x, y)));
  }

  /** The versions built so far, one per source in order, with their provenance. */
  ghost predicate VersionsDone(
    maps: Maps, config: Config, c: Component, texts: seq<string>, sources: seq<Source>, versions: seq<Version>,
    provenance: map<nat, Provenance>)
  {
    && |versions| <= |sources|
    && forall j :: 0 <= j < |versions| ==> VersionIn(maps, config, c, texts, sources[j], versions[j], provenance, j + 1)
  }

  ghost predicate VersionIn(
    maps: Maps, config: Config, c: Component, texts: seq<string>, source: Source, v: Version,
    provenance: map<nat, Provenance>, id: nat)
  {
    && source in maps && source in c.candidates && v.versionId == id && id in provenance
    && VersionShows(maps[source], config, c, source, texts, v, provenance[id])
  }

  lemma {:induction false} VersionsGrow(
    maps: Maps, config: Config, c: Component, texts: seq<string>, sources: seq<Source>, versions: seq<Version>,
    provenance: map<nat, Provenance>, v: Version, p: Provenance)
    requires VersionsDone(maps, config, c, texts, sources, versions, provenance) && |versions| < |sources|
    requires VersionIn(maps, config, c, texts, sources[|versions|], v, map[|versions| + 1 := p], |versions| + 1)
    ensures VersionsDone(maps, config, c, texts, sources, versions + [v], provenance[|versions| + 1 := p])
  {
    var after := provenance[|versions| + 1 := p];
    forall j | 0 <= j < |versions| + 1
      ensures VersionIn(maps, config, c, texts, sources[j], (versions + [v])[j], after, j + 1)
    {
      if j < |versions| {
        assert VersionIn(maps, config, c, texts, sources[j], versions[j], provenance, j + 1);
      }
    }
  }

  method BuildSelectionCase(maps: Maps, c: Component, config: Config, texts: seq<string>, sources: seq<Source>)
    returns (r: Result<SelectionCase>)
    requires Sources(maps) && CaseOf(maps, c)
    requires IsOrdering(texts, CandidateTexts(c)) && IsOrdering(sources, c.candidates.Keys)
    ensures r.Ok? && Faithful(maps, config, c, texts, sources, r.value)
  {
    var left, right := ContextBounds(maps[Base].base, c.start, c.end, config);
    var versions: seq<Version> := [];
    var provenance: map<nat, Provenance> := map[];
    var i := 0;
    while i < |sources|
      invariant 0 <= i <= |sources| && |versions| == i
      invariant VersionsDone(maps, config, c, texts, sources, versions, provenance)
    {
      var source := sources[i];
      SourceIsReady(maps, c, texts, source);
      var built := BuildVersion(maps[source], c, source, texts, i + 1, left, right, config);
      var (v, p) := built.value;
      VersionsGrow(maps, config, c, texts, sources, versions, provenance, v, p);
      versions := versions + [v];
      provenance := provenance[i + 1 := p];
      i := i + 1;
    }
    SourceIsReady(maps, c, texts, Base);
    FaithfulMade(maps, config, c, texts, sources, versions, provenance);
    var request := Request(CaseId(c), OptionsOf(texts), versions, IdOf(texts, c.original));
    return Ok(SelectionCase(request, provenance, c.start, c.end, c.original));
  }

  lemma {:induction false} FaithfulMade(
    maps: Maps, config: Config, c: Component, texts: seq<string>, sources: seq<Source>, versions: seq<Version>,
    provenance: map<nat, Provenance>)
    requires VersionsDone(maps, config, c, texts, sources, versions, provenance) && |versions| == |sources|
    requires c.original in texts
    ensures Faithful(maps, config, c, texts, sources, SelectionCase(
              Request(CaseId(c), OptionsOf(texts), versions, IdOf(texts, c.original)),
              provenance, c.start, c.end, c.original))
  {
  }

  lemma {:induction false} SourceIsReady(maps: Maps, c: Component, texts: seq<string>, source: Source)
    requires Sources(maps) && CaseOf(maps, c) && IsOrdering(texts, CandidateTexts(c)) && source in c.candidates
    ensures source in maps && maps[source].WellFormed() && maps[source].base == maps[Base].base
    ensures CandidateOf(maps[source], c, c.candidates[source]) && c.candidates[source].text in texts
  {
    assert c.candidates[source].text in CandidateTexts(c);
  }

  // ----- validate_batch -----

  function ById(options: seq<CandidateOption>): (r: map<nat, string>)
    ensures forall id :: id in r ==> CandidateOption(id, r[id]) in options
    ensures forall o :: o in options ==> o.candidateId in r
  {
    if options == [] then map[]
    else
      var n := |options| - 1;
      ById(options[..n])[options[n].candidateId := options[n].text]
  }

  ghost predicate ValidVersion(v: Version, texts: map<nat, string>, provenance: map<nat, Provenance>) {
    && v.candidateId in texts && v.target == texts[v.candidateId]
    && v.versionId in provenance
    && var p := provenance[v.versionId];
       p.x <= p.a <= p.b <= p.y
       && |v.before| == p.a - p.x && |v.target| == p.b - p.a && |v.after| == p.y - p.b
  }

  /** No candidate id and no text is repeated; the code compares lengths. */
  predicate DistinctOptions(options: seq<CandidateOption>) {
    |ById(options)| == |options| && |ById(options).Values| == |options|
  }

  ghost predicate ValidVersions(item: SelectionCase) {
    forall v :: v in item.request.versions ==> ValidVersion(v, ById(item.request.candidates), item.provenance)
  }

  ghost predicate ValidCase(item: SelectionCase) {
    var options, keep := item.request.candidates, item.request.keepCandidateId;
    && 2 <= |options| <= 4 && DistinctOptions(options)
    && keep in ById(options) && ById(options)[keep] == item.original
    && item.start <= item.end && |item.original| == item.end - item.start
    && ValidVersions(item)
  }

  /** Everything validate_batch checks about coordinates, candidates and identities. */
  ghost predicate ValidBatch(batch: Batch) {
    && 1 <= |batch.cases| <= DEFAULT_CONFIG.maxCases
    && batch.request == RequestsOf(batch.cases)
    && ValidCases(batch.cases)
  }

  ghost predicate ValidCases(cases: seq<SelectionCase>) {
    && (forall j, k :: 0 <= j < k < |cases| ==> cases[j].request.caseId != cases[k].request.caseId)
    && (forall j :: 0 <= j < |cases| ==> ValidCase(cases[j]))
  }

  function RequestsOf(cases: seq<SelectionCase>): (r: seq<Request>)
    ensures |r| == |cases| && forall i :: 0 <= i < |cases| ==> r[i] == cases[i].request
  {
    seq(|cases|, i requires 0 <= i < |cases| => cases[i].request)
  }

  lemma {:induction false} OptionsAre(texts: seq<string>)
    ensures var options := OptionsOf(texts);
      |options| == |texts| && forall i :: 0 <= i < |texts| ==> options[i] == CandidateOption(i + 1, texts[i])
  {
  }

  lemma {:induction false} OptionLookup(texts: seq<string>, id: nat)
    requires 1 <= id <= |texts|
    ensures id in ById(OptionsOf(texts)) && ById(OptionsOf(texts))[id] == texts[id - 1]
  {
    hide OptionsOf;
    OptionsAre(texts);
    var options, found := OptionsOf(texts), ById(OptionsOf(texts));
    assert options[id - 1].candidateId == id;
    assert CandidateOption(id, found[id]) in options;
    var k :| 0 <= k < |options| && options[k] == CandidateOption(id, found[id]);
  }

  lemma {:induction false} OrderingSize<T(!new)>(s: seq<T>, elements: set<T>)
    requires IsOrdering(s, elements)
    ensures |s| == |elements|
  {
    if s == [] {
      assert elements == {};
    } else {
      var rest := elements - {s[0]};
      forall x ensures x in s[1..] <==> x in rest {
        if x in s[1..] { assert x in s; }
        if x in rest {
          var k :| 0 <= k < |s| && s[k] == x;
          assert s[1..][k - 1] == x;
        }
      }
      OrderingSize(s[1..], rest);
    }
  }

  lemma {:induction false} TextCount(maps: Maps, c: Component, texts: seq<string>)
    requires Sources(maps) && CaseOf(maps, c) && IsOrdering(texts, CandidateTexts(c))
    ensures 3 <= |texts| <= 4
  {
    hide CandidateOf, IsOrdering, CandidateTexts;
    var b, q, k := c.candidates[Base].text, c.candidates[Qwen].text, c.candidates[Kimi].text;
    var p := if Peer in c.candidates then c.candidates[Peer].text else b;
    OrderingSize(texts, CandidateTexts(c));
    TextsAre(maps, c, b, q, k, p);
    ThreeOrFour(b, q, k, p);
  }

  lemma {:induction false} ThreeOrFour(b: string, q: string, k: string, p: string)
    requires b != q && b != k && q != k
    ensures 3 <= |{b, q, k, p}| <= 4
  {
    assert |{b, q, k}| == 3;
    SubsetSize({b, q, k}, {b, q, k, p});
  }

  lemma {:induction false} TextsAre(maps: Maps, c: Component, b: string, q: string, k: string, p: string)
    requires Sources(maps) && CaseOf(maps, c)
    requires b == c.candidates[Base].text && q == c.candidates[Qwen].text && k == c.candidates[Kimi].text
    requires p == if Peer in c.candidates then c.candidates[Peer].text else b
    ensures CandidateTexts(c) == {b, q, k, p}
  {
    hide CandidateOf;
    var all := CandidateTexts(c);
    forall t | t in all ensures t in {b, q, k, p} {
      var s :| s in c.candidates && c.candidates[s].text == t;
      SourceText(c, s, b, q, k, p);
    }
    assert c.candidates[Base].text in all && c.candidates[Qwen].text in all && c.candidates[Kimi].text in all;
    assert p in all;
  }

  lemma {:induction false} SourceText(c: Component, s: Source, b: string, q: string, k: string, p: string)
    requires {Base, Qwen, Kimi, s} <= c.candidates.Keys
    requires b == c.candidates[Base].text && q == c.candidates[Qwen].text && k == c.candidates[Kimi].text
    requires p == if Peer in c.candidates then c.candidates[Peer].text else b
    ensures c.candidates[s].text == b || c.candidates[s].text == q
            || c.candidates[s].text == k || c.candidates[s].text == p
  {
  }

  lemma {:induction false} SubsetSize<T>(small: set<T>, large: set<T>)
    requires small <= large
    ensures |small| <= |large|
  {
    assert large == small + (large - small);
  }

  /** An emitted case passes every check that validate_batch makes of one case. */
  lemma {:induction false} FaithfulIsValid(
    maps: Maps, config: Config, c: Component, texts: seq<string>, sources: seq<Source>, item: SelectionCase)
    requires Sources(maps) && CaseOf(maps, c)
    requires IsOrdering(texts, CandidateTexts(c)) && IsOrdering(sources, c.candidates.Keys)
    requires Faithful(maps, config, c, texts, sources, item)
    ensures ValidCase(item)
  {
    TextCount(maps, c, texts);
    VersionsAreValid(maps, config, c, texts, sources, item);
    PartsAreValid(texts, item);
  }

  lemma {:induction false} PartsAreValid(texts: seq<string>, item: SelectionCase)
    requires item.request.candidates == OptionsOf(texts) && Distinct(texts) && 2 <= |texts| <= 4
    requires 1 <= item.request.keepCandidateId <= |texts| && texts[item.request.keepCandidateId - 1] == item.original
    requires item.start <= item.end && |item.original| == item.end - item.start && ValidVersions(item)
    ensures ValidCase(item)
  {
    OptionLookup(texts, item.request.keepCandidateId);
    DistinctTexts(texts);
  }

  lemma {:induction false} OptionCount(texts: seq<string>)
    ensures |ById(OptionsOf(texts))| == |texts|
  {
    if texts != [] {
      var n := |texts| - 1;
      OptionCount(texts[..n]);
      var before := ById(OptionsOf(texts[..n]));
      assert OptionsOf(texts)[..n] == OptionsOf(texts[..n]);
      assert n + 1 !in before;
      assert ById(OptionsOf(texts)) == before[n + 1 := texts[n]];
      assert ById(OptionsOf(texts)).Keys == before.Keys + {n + 1};
    }
  }

  lemma {:induction false} DistinctTexts(texts: seq<string>)
    requires Distinct(texts)
    ensures DistinctOptions(OptionsOf(texts))
  {
    var found := ById(OptionsOf(texts));
    OptionCount(texts);
    forall t ensures t in texts <==> t in found.Values {
      if t in texts {
        var i :| 0 <= i < |texts| && texts[i] == t;
        OptionLookup(texts, i + 1);
      }
      if t in found.Values {
        var id :| id in found && found[id] == t;
        assert CandidateOption(id, t) in OptionsOf(texts);
      }
    }
    OrderingSize(texts, found.Values);
  }

  lemma {:induction false} VersionsAreValid(
    maps: Maps, config: Config, c: Component, texts: seq<string>, sources: seq<Source>, item: SelectionCase)
    requires Faithful(maps, config, c, texts, sources, item)
    ensures ValidVersions(item)
  {
    forall v | v in item.request.versions
      ensures ValidVersion(v, ById(item.request.candidates), item.provenance)
    {
      var i :| 0 <= i < |item.request.versions| && item.request.versions[i] == v;
      assert VersionIn(maps, config, c, texts, sources[i], v, item.provenance, i + 1);
      ShownIsValid(maps[sources[i]], config, c, sources[i], texts, v, item.provenance);
    }
  }

  lemma {:induction false} ShownIsValid(
    m: TextMap, config: Config, c: Component, source: Source, texts: seq<string>, v: Version,
    provenance: map<nat, Provenance>)
    requires source in c.candidates && v.versionId in provenance
    requires VersionShows(m, config, c, source, texts, v, provenance[v.versionId])
    ensures ValidVersion(v, ById(OptionsOf(texts)), provenance)
  {
    OptionLookup(texts, v.candidateId);
  }

  // ----- validate_batch and build_selection_batches -----

  method ValidateCase(item: SelectionCase) returns (ok: bool)
    ensures ok <==> ValidCase(item)
  {
    var options, keep := item.request.candidates, item.request.keepCandidateId;
    if !(2 <= |options| <= 4) {
      return false;
    }
    var byId := ById(options);
    if |byId| != |options| || |byId.Values| != |options| {
      return false;
    }
    if keep !in byId || byId[keep] != item.original {
      return false;
    }
    if item.end < item.start || |item.original| != item.end - item.start {
      return false;
    }
    var i := 0;
    while i < |item.request.versions|
      invariant 0 <= i <= |item.request.versions|
      invariant forall j :: 0 <= j < i ==> ValidVersion(item.request.versions[j], byId, item.provenance)
    {
      var v := item.request.versions[i];
      if v.candidateId !in byId || v.target != byId[v.candidateId] || v.versionId !in item.provenance {
        assert !ValidVersion(v, byId, item.provenance);
        return false;
      }
      var p := item.provenance[v.versionId];
      if !(p.x <= p.a <= p.b <= p.y)
         || (|v.before|, |v.target|, |v.after|) != (p.a - p.x, p.b - p.a, p.y - p.b)
      {
        assert !ValidVersion(v, byId, item.provenance);
        return false;
      }
      i := i + 1;
    }
    return true;
  }

  /** The part of validate_batch's case loop that is done: valid cases with new identities. */
  ghost predicate CheckedCases(cases: seq<SelectionCase>, seen: set<CaseId>) {
    ValidCases(cases) && seen == IdsOf(cases)
  }

  function IdsOf(cases: seq<SelectionCase>): set<CaseId> {
    set item | item in cases :: item.request.caseId
  }

  lemma {:induction false} CheckedStep(cases: seq<SelectionCase>, seen: set<CaseId>, item: SelectionCase)
    requires CheckedCases(cases, seen) && ValidCase(item) && item.request.caseId !in seen
    ensures CheckedCases(cases + [item], seen + {item.request.caseId})
  {
    hide ValidCase;
    var all := cases + [item];
    forall j, k | 0 <= j < k < |all| ensures all[j].request.caseId != all[k].request.caseId {
      assert all[j] in cases;
      assert all[j].request.caseId in IdsOf(cases);
    }
    assert forall x :: x in all <==> x in cases || x == item;
    assert IdsOf(all) == IdsOf(cases) + {item.request.caseId};
  }

  lemma {:induction false} Repeated(cases: seq<SelectionCase>, i: nat)
    requires i < |cases| && cases[i].request.caseId in IdsOf(cases[..i])
    ensures !ValidCases(cases)
  {
    hide ValidCase;
    var same :| same in cases[..i] && same.request.caseId == cases[i].request.caseId;
    var j :| 0 <= j < i && cases[j] == same;
  }

  method ValidateCases(cases: seq<SelectionCase>) returns (ok: bool)
    ensures ok <==> ValidCases(cases)
  {
    hide ValidCase;
    var seen: set<CaseId> := {};
    var i := 0;
    while i < |cases|
      invariant 0 <= i <= |cases|
      invariant CheckedCases(cases[..i], seen)
    {
      var item := cases[i];
      if item.request.caseId in seen {
        Repeated(cases, i);
        return false;
      }
      var valid := ValidateCase(item);
      if !valid {
        return false;
      }
      CheckedStep(cases[..i], seen, item);
      assert cases[..i + 1] == cases[..i] + [item];
      seen := seen + {item.request.caseId};
      i := i + 1;
    }
    assert cases[..i] == cases;
    return true;
  }

  /** The digests of the code, each an arbitrary function here. */
  datatype Digests = Digests(identity: Batch -> string, text: string -> string)

  /** A batch as it is stored: with its identity, and the prompt that is frozen with it. */
  datatype StoredBatch = StoredBatch(batch: Batch, batchId: string, prompt: Option<string>, promptHash: string)

  ghost predicate ValidStored(stored: StoredBatch, digests: Digests) {
    && ValidBatch(stored.batch)
    && stored.batchId == "batch_" + digests.identity(stored.batch)
    && stored.prompt.Some? && stored.promptHash == "sha256:" + digests.text(stored.prompt.value)
  }

  method ValidateBatch(stored: StoredBatch, digests: Digests) returns (r: Result<()>)
    ensures r == if ValidStored(stored, digests) then Ok(()) else Err(ContractError)
  {
    var batch := stored.batch;
    if !(1 <= |batch.cases| <= DEFAULT_CONFIG.maxCases) || batch.request != RequestsOf(batch.cases) {
      return Err(ContractError);
    }
    var ok := ValidateCases(batch.cases);
    if !ok || stored.batchId != "batch_" + digests.identity(batch) {
      return Err(ContractError);
    }
    if stored.prompt.None? || stored.promptHash != "sha256:" + digests.text(stored.prompt.value) {
      return Err(ContractError);
    }
    return Ok(());
  }

  /** The byte size of a request list; JSON itself is not modelled. */
  type Size = seq<Request> -> nat

  function ItemFits(item: SelectionCase, size: Size, config: Config): bool {
    size([item.request]) <= config.maxInputBytes
  }

  /** The cases that go to a batch, and the ones that go to review, in their order. */
  function Fitting(items: seq<SelectionCase>, size: Size, config: Config): seq<SelectionCase> {
    if items == [] then []
    else
      var n := |items| - 1;
      Fitting(items[..n], size, config) + if ItemFits(items[n], size, config) then [items[n]] else []
  }

  function OverBudget(items: seq<SelectionCase>, size: Size, config: Config): seq<Component> {
    if items == [] then []
    else
      var n := |items| - 1;
      OverBudget(items[..n], size, config)
      + if ItemFits(items[n], size, config) then [] else [items[n].request.caseId.record]
  }

  function CasesIn(batches: seq<Batch>): seq<SelectionCase> {
    if batches == [] then [] else CasesIn(batches[..|batches| - 1]) + batches[|batches| - 1].cases
  }

  /** Limits of one batch. With `max_cases` 0 the counter never meets the limit again, so it does not bind. */
  ghost predicate WithinLimits(cases: seq<SelectionCase>, size: Size, config: Config) {
    && cases != []
    && (1 <= config.maxCases ==> |cases| <= config.maxCases)
    && size(RequestsOf(cases)) <= config.maxInputBytes
  }

  /** A batch was closed only because the case that opens the next one no longer fitted. */
  ghost predicate Greedy(batch: seq<SelectionCase>, next: SelectionCase, size: Size, config: Config) {
    |batch| == config.maxCases || size(RequestsOf(batch + [next])) > config.maxInputBytes
  }

  ghost predicate Packed(batches: seq<Batch>, size: Size, config: Config) {
    && (forall b :: 0 <= b < |batches| ==>
          WithinLimits(batches[b].cases, size, config) && batches[b].request == RequestsOf(batches[b].cases))
    && (forall b, d :: 0 <= b < d < |batches| && d == b + 1 ==>
          batches[d].cases != [] && Greedy(batches[b].cases, batches[d].cases[0], size, config))
  }

  /** What the packing loop keeps: closed batches, and the pending one that is still within its limits. */
  ghost predicate Packing(
    done: seq<SelectionCase>, batches: seq<Batch>, pending: seq<SelectionCase>, size: Size, config: Config)
  {
    && Packed(batches, size, config)
    && (pending != [] ==> WithinLimits(pending, size, config))
    && (pending == [] ==> batches == [])
    && (pending != [] && batches != [] ==> Greedy(batches[|batches| - 1].cases, pending[0], size, config))
    && CasesIn(batches) + pending == Fitting(done, size, config)
  }

  lemma {:induction false} Close(batches: seq<Batch>, pending: seq<SelectionCase>, size: Size, config: Config)
    requires Packed(batches, size, config) && WithinLimits(pending, size, config)
    requires batches != [] ==> Greedy(batches[|batches| - 1].cases, pending[0], size, config)
    ensures Packed(batches + [Batch(pending, RequestsOf(pending))], size, config)
    ensures CasesIn(batches + [Batch(pending, RequestsOf(pending))]) == CasesIn(batches) + pending
  {
    assert (batches + [Batch(pending, RequestsOf(pending))])[..|batches|] == batches;
  }

  lemma {:induction false} FittingStep(items: seq<SelectionCase>, item: SelectionCase, size: Size, config: Config)
    ensures Fitting(items + [item], size, config)
            == Fitting(items, size, config) + if ItemFits(item, size, config) then [item] else []
    ensures OverBudget(items + [item], size, config)
            == OverBudget(items, size, config)
               + if ItemFits(item, size, config) then [] else [item.request.caseId.record]
  {
    assert (items + [item])[..|items|] == items;
  }

  /** The new case joins the pending batch. */
  lemma {:induction false} Append(
    done: seq<SelectionCase>, batches: seq<Batch>, pending: seq<SelectionCase>, item: SelectionCase,
    size: Size, config: Config)
    requires Packing(done, batches, pending, size, config) && ItemFits(item, size, config)
    requires pending == []
             || (|pending| != config.maxCases && size(RequestsOf(pending + [item])) <= config.maxInputBytes)
    ensures Packing(done + [item], batches, pending + [item], size, config)
  {
    FittingStep(done, item, size, config);
    assert CasesIn(batches) + (pending + [item]) == (CasesIn(batches) + pending) + [item];
    assert RequestsOf([] + [item]) == [item.request];
  }

  /** The pending batch is closed and the new case opens the next one. */
  lemma {:induction false} CloseAndOpen(
    done: seq<SelectionCase>, batches: seq<Batch>, pending: seq<SelectionCase>, item: SelectionCase,
    size: Size, config: Config)
    requires Packing(done, batches, pending, size, config) && ItemFits(item, size, config)
    requires pending != [] && Greedy(pending, item, size, config)
    ensures Packing(done + [item], batches + [Batch(pending, RequestsOf(pending))], [item], size, config)
  {
    FittingStep(done, item, size, config);
    Close(batches, pending, size, config);
    assert RequestsOf([item]) == [item.request];
  }

  // ----- every emitted batch passes validate_batch -----

  /** The hash orders of the original, arbitrary but complete. */
  datatype Orders = Orders(texts: Component -> seq<string>, sources: Component -> seq<Source>)

  ghost predicate OrdersAll(orders: Orders) {
    forall c ::
      IsOrdering(orders.texts(c), CandidateTexts(c)) && IsOrdering(orders.sources(c), c.candidates.Keys)
  }

  /** One faithful item per case, in order. */
  ghost predicate Emitted(
    maps: Maps, config: Config, cases: seq<Component>, orders: Orders, items: seq<SelectionCase>)
  {
    && |items| == |cases|
    && forall i :: 0 <= i < |cases| ==>
        Faithful(maps, config, cases[i], orders.texts(cases[i]), orders.sources(cases[i]), items[i])
  }

  ghost predicate CasesOf(maps: Maps, cases: seq<Component>)
    requires Sources(maps)
  {
    Distinct(cases) && forall i :: 0 <= i < |cases| ==> CaseOf(maps, cases[i])
  }

  lemma {:induction false} EmittedAreValid(
    maps: Maps, config: Config, cases: seq<Component>, orders: Orders, items: seq<SelectionCase>)
    requires Sources(maps) && CasesOf(maps, cases) && OrdersAll(orders) && Emitted(maps, config, cases, orders, items)
    ensures ValidCases(items)
  {
    forall i | 0 <= i < |items| ensures ValidCase(items[i]) && items[i].request.caseId == CaseId(cases[i]) {
      FaithfulIsValid(maps, config, cases[i], orders.texts(cases[i]), orders.sources(cases[i]), items[i]);
    }
  }

  lemma {:induction false} FittingFrom(items: seq<SelectionCase>, size: Size, config: Config, k: nat)
    requires k < |Fitting(items, size, config)|
    ensures Fitting(items, size, config)[k] in items && ItemFits(Fitting(items, size, config)[k], size, config)
  {
    var n := |items| - 1;
    var before := Fitting(items[..n], size, config);
    if k < |before| {
      FittingFrom(items[..n], size, config, k);
    }
  }

  lemma {:induction false} FittingValid(items: seq<SelectionCase>, size: Size, config: Config)
    requires ValidCases(items)
    ensures ValidCases(Fitting(items, size, config))
  {
    if items != [] {
      var n := |items| - 1;
      var before := Fitting(items[..n], size, config);
      FittingValid(items[..n], size, config);
      forall k | 0 <= k < |before| ensures before[k].request.caseId != items[n].request.caseId {
        FittingFrom(items[..n], size, config, k);
      }
    }
  }

  lemma {:induction false} ChunkValid(batches: seq<Batch>, b: nat)
    requires ValidCases(CasesIn(batches)) && b < |batches|
    ensures ValidCases(batches[b].cases)
  {
    var n := |batches| - 1;
    var init, last := CasesIn(batches[..n]), batches[n].cases;
    assert CasesIn(batches) == init + last;
    if b < n {
      assert forall j :: 0 <= j < |init| ==> (init + last)[j] == init[j];
      ChunkValid(batches[..n], b);
    } else {
      assert forall j :: 0 <= j < |last| ==> (init + last)[|init| + j] == last[j];
    }
  }

  /** Every packed batch meets validate_batch, when the configured case limit is one that it accepts. */
  lemma {:induction false} PackedAreValid(
    items: seq<SelectionCase>, batches: seq<Batch>, size: Size, config: Config)
    requires ValidCases(items) && Packed(batches, size, config) && CasesIn(batches) == Fitting(items, size, config)
    requires 1 <= config.maxCases <= DEFAULT_CONFIG.maxCases
    ensures forall b :: 0 <= b < |batches| ==> ValidBatch(batches[b])
  {
    FittingValid(items, size, config);
    forall b | 0 <= b < |batches| ensures ValidBatch(batches[b]) {
      ChunkValid(batches, b);
      assert WithinLimits(batches[b].cases, size, config);
    }
  }

  function RecordsOf(items: seq<SelectionCase>): (r: seq<Component>)
    ensures |r| == |items| && forall i :: 0 <= i < |items| ==> r[i] == items[i].request.caseId.record
  {
    seq(|items|, i requires 0 <= i < |items| => items[i].request.caseId.record)
  }

  /** A case is batched exactly when its own request is within the byte limit, and else goes to review. */
  lemma {:induction false} SizeDecides(items: seq<SelectionCase>, size: Size, config: Config, item: SelectionCase)
    ensures item in Fitting(items, size, config) <==> item in items && size([item.request]) <= config.maxInputBytes
    ensures item in items && size([item.request]) > config.maxInputBytes ==>
              item.request.caseId.record in OverBudget(items, size, config)
    ensures forall record :: record in OverBudget(items, size, config) ==>
              exists other :: other in items && other.request.caseId.record == record
                              && size([other.request]) > config.maxInputBytes
  {
    if items != [] {
      var n := |items| - 1;
      SizeDecides(items[..n], size, config, item);
      assert items == items[..n] + [items[n]];
    }
  }

  /** Batched and over-budget cases together are all the cases, each once. */
  lemma {:induction false} NothingLost(items: seq<SelectionCase>, size: Size, config: Config)
    ensures multiset(RecordsOf(Fitting(items, size, config))) + multiset(OverBudget(items, size, config))
            == multiset(RecordsOf(items))
  {
    if items == [] {
      assert RecordsOf(items) == [] && RecordsOf(Fitting(items, size, config)) == [];
    } else {
      var n := |items| - 1;
      var before, record := Fitting(items[..n], size, config), items[n].request.caseId.record;
      NothingLost(items[..n], size, config);
      assert RecordsOf(items) == RecordsOf(items[..n]) + [record];
      if ItemFits(items[n], size, config) {
        assert RecordsOf(before + [items[n]]) == RecordsOf(before) + [record];
        assert OverBudget(items, size, config) == OverBudget(items[..n], size, config);
      } else {
        assert Fitting(items, size, config) == before;
      }
    }
  }

  lemma {:induction false} CaseStartsInside(q: TextMap, k: TextMap, p: TextMap, comps: seq<Span>, i: nat)
    requires Separated(|q.base|, comps) && i < |CasesFor(q, k, p, comps)|
    ensures comps != [] && comps[0].start <= CasesFor(q, k, p, comps)[i].start
  {
    var j := CasesComeFrom(q, k, p, comps, i);
    assert CaseFor(q, k, p, comps[j])[0].start == comps[j].start;
    if j > 0 { assert comps[0].end < comps[j].start; }
  }

  /** The cases of a plan are pairwise different: they lie in different components. */
  lemma {:induction false} PlanCasesDistinct(q: TextMap, k: TextMap, p: TextMap, comps: seq<Span>)
    requires Separated(|q.base|, comps)
    ensures Distinct(CasesFor(q, k, p, comps))
    decreases |comps|
  {
    if comps != [] {
      SeparatedTail(|q.base|, comps);
      PlanCasesDistinct(q, k, p, comps[1..]);
      var rest := CasesFor(q, k, p, comps[1..]);
      forall i | 0 <= i < |rest| ensures comps[0].start < rest[i].start {
        CaseStartsInside(q, k, p, comps[1..], i);
        assert comps[0].start <= comps[0].end < comps[1].start;
      }
    }
  }

  /** A merge plan's cases are exactly what build_selection_batches asks for. */
  lemma {:induction false} PlanIsReady(maps: Maps)
    requires Sources(maps)
    ensures CasesOf(maps, PlanOf(maps[Qwen], maps[Kimi], maps[Peer]).cases)
  {
    PlanCasesAreCases(maps);
    Decomposition(maps[Qwen], maps[Kimi]);
    PlanCasesDistinct(maps[Qwen], maps[Kimi], maps[Peer], ComponentSpans(maps[Qwen], maps[Kimi]));
  }

  /** One turn of the packing loop. finish() on an empty pending list does nothing. */
  method PackOne(
    ghost items: seq<SelectionCase>, batches: seq<Batch>, pending: seq<SelectionCase>, reviews: seq<Component>,
    item: SelectionCase, size: Size, config: Config)
    returns (batches': seq<Batch>, pending': seq<SelectionCase>, reviews': seq<Component>)
    requires Packing(items, batches, pending, size, config) && reviews == OverBudget(items, size, config)
    ensures Packing(items + [item], batches', pending', size, config)
    ensures reviews' == OverBudget(items + [item], size, config)
  {
    batches', pending', reviews' := batches, pending, reviews;
    FittingStep(items, item, size, config);
    if size([item.request]) > config.maxInputBytes {
      reviews' := reviews + [item.request.caseId.record];
    } else if pending != []
              && (|pending| == config.maxCases || size(RequestsOf(pending + [item])) > config.maxInputBytes) {
      CloseAndOpen(items, batches, pending, item, size, config);
      batches', pending' := batches + [Batch(pending, RequestsOf(pending))], [item];
    } else {
      Append(items, batches, pending, item, size, config);
      pending' := pending + [item];
    }
  }

  lemma {:induction false} EmittedStep(
    maps: Maps, config: Config, cases: seq<Component>, orders: Orders, items: seq<SelectionCase>, c: Component,
    item: SelectionCase)
    requires Emitted(maps, config, cases, orders, items)
    requires Faithful(maps, config, c, orders.texts(c), orders.sources(c), item)
    ensures Emitted(maps, config, cases + [c], orders, items + [item])
  {
  }

  lemma {:induction false} NothingPackedYet(
    maps: Maps, cases: seq<Component>, orders: Orders, size: Size, config: Config)
    ensures Emitted(maps, config, cases[..0], orders, [])
    ensures Packing([], [], [], size, config) && OverBudget([], size, config) == []
  {
  }

  /** The last batch is closed when something is pending. */
  lemma {:induction false} PackingEnds(
    items: seq<SelectionCase>, batches: seq<Batch>, pending: seq<SelectionCase>, size: Size, config: Config)
    requires Packing(items, batches, pending, size, config)
    ensures var all := if pending == [] then batches else batches + [Batch(pending, RequestsOf(pending))];
      Packed(all, size, config) && CasesIn(all) == Fitting(items, size, config)
  {
    if pending != [] {
      Close(batches, pending, size, config);
    }
  }

  /** build_selection_batches: greedy packing in order. */
  method BuildSelectionBatches(maps: Maps, cases: seq<Component>, size: Size, config: Config, orders: Orders)
    returns (batches: seq<Batch>, reviews: seq<Component>, ghost items: seq<SelectionCase>)
    requires Sources(maps) && CasesOf(maps, cases) && OrdersAll(orders)
    ensures Emitted(maps, config, cases, orders, items)
    ensures Packed(batches, size, config)
    ensures CasesIn(batches) == Fitting(items, size, config)
    ensures reviews == OverBudget(items, size, config)
    ensures 1 <= config.maxCases <= DEFAULT_CONFIG.maxCases ==>
              forall b :: 0 <= b < |batches| ==> ValidBatch(batches[b])
  {
    hide Emitted, Packing, Packed, Fitting, OverBudget, CasesIn, ValidBatch, Sources, Faithful, CaseOf, IsOrdering;
    batches, reviews, items := [], [], [];
    var pending: seq<SelectionCase> := [];
    var i := 0;
    NothingPackedYet(maps, cases, orders, size, config);
    while i < |cases|
      invariant 0 <= i <= |cases|
      invariant Emitted(maps, config, cases[..i], orders, items)
      invariant Packing(items, batches, pending, size, config)
      invariant reviews == OverBudget(items, size, config)
    {
      var built := BuildSelectionCase(maps, cases[i], config, orders.texts(cases[i]), orders.sources(cases[i]));
      var item := built.value;
      EmittedStep(maps, config, cases[..i], orders, items, cases[i], item);
      TakeSnoc(cases, i);
      batches, pending, reviews := PackOne(items, batches, pending, reviews, item, size, config);
      items := items + [item];
      i := i + 1;
    }
    assert cases[..i] == cases;
    PackingEnds(items, batches, pending, size, config);
    if pending != [] {
      batches := batches + [Batch(pending, RequestsOf(pending))];
    }
    EmittedAreValid(maps, config, cases, orders, items);
    if 1 <= config.maxCases <= DEFAULT_CONFIG.maxCases {
      PackedAreValid(items, batches, size, config);
    }
  }
}
