/** src/cueflow/text_diff.py: the opcode map between Base and one variant, and its exact boundaries. */
module TextDiff {
  import opened Outcomes
  import opened EditResolution

  datatype Tag = Equal | Replace | Delete | Insert

  /** One opcode: base[a..b] corresponds to variant[c..d]. */
  datatype Opcode = Opcode(tag: Tag, a: nat, b: nat, c: nat, d: nat)

  datatype TextChange = TextChange(start: nat, end: nat, variantStart: nat, variantEnd: nat, replacement: string)

  /** The pure part of difflib: it is called, never modelled; see DiffContract. */
  type Differ = (string, string) -> seq<Opcode>

  datatype TextMap = TextMap(base: string, variant: string, opcodes: seq<Opcode>) {

    /** What SequenceMatcher.get_opcodes promises about its two strings. */
    ghost predicate WellFormed() {
      && (opcodes == [] <==> base == "" && variant == "")
      && (forall i :: 0 <= i < |opcodes| ==> OpcodeOk(opcodes[i]))
      && (opcodes != [] ==> opcodes[0].a == 0 && opcodes[0].c == 0)
      && (opcodes != [] ==> opcodes[|opcodes| - 1].b == |base| && opcodes[|opcodes| - 1].d == |variant|)
      && (forall i, j :: 0 <= i < j < |opcodes| && j == i + 1 ==> Joined(opcodes[i], opcodes[j]))
      && (base == variant ==> forall i :: 0 <= i < |opcodes| ==> opcodes[i].tag.Equal?)
    }

    /** Equal opcodes carry identical, non-empty text; the others are non-empty on one side. */
    ghost predicate OpcodeOk(o: Opcode) {
      && o.a <= o.b <= |base| && o.c <= o.d <= |variant|
      && (if o.tag.Equal? then o.a < o.b && base[o.a..o.b] == variant[o.c..o.d] else o.a < o.b || o.c < o.d)
    }

    function Change(o: Opcode): TextChange {
      TextChange(o.a, o.b, o.c, o.d, Slice(variant, o.c, o.d))
    }

    /** The `changes` property: every opcode that is not `equal`, in order. */
    function ChangesOf(ops: seq<Opcode>): seq<TextChange> {
      if ops == [] then []
      else (if ops[0].tag.Equal? then [] else [Change(ops[0])]) + ChangesOf(ops[1..])
    }

    function Changes(): seq<TextChange> {
      ChangesOf(opcodes)
    }

    /** The points collected so far decide unless a later opcode straddles the position. */
    function BoundaryFrom(i: nat, position: nat, points: seq<nat>, afterInsert: bool): Option<nat>
      requires i <= |opcodes|
      decreases |opcodes| - i
    {
      if i == |opcodes| then
        if points == [] then (if base == "" && variant == "" then Some(0) else None)
        else Some(if afterInsert then Largest(points) else Smallest(points))
      else
        var o := opcodes[i];
        if o.a < position < o.b then (if o.tag.Equal? then Some(o.c + position - o.a) else None)
        else BoundaryFrom(i + 1, position, points + Touching(o, position), afterInsert)
    }

    /** Where a Base position falls in the variant, when that is exact. */
    function Boundary(position: nat, afterInsert: bool): Option<nat> {
      BoundaryFrom(0, position, [], afterInsert)
    }

    function Interval(start: nat, end: nat, includeEndInsert: bool): Option<(nat, nat)> {
      match (Boundary(start, false), Boundary(end, includeEndInsert))
      case (Some(left), Some(right)) => Some((left, right))
      case _ => None
    }

    method FindBoundary(position: int, afterInsert: bool) returns (r: Result<Option<nat>>)
      ensures r == if 0 <= position <= |base| then Ok(Boundary(position, afterInsert)) else Err(ContractError)
    {
      if !(0 <= position <= |base|) {
        return Err(ContractError);
      }
      var points: seq<nat> := [];
      var i := 0;
      while i < |opcodes|
        invariant 0 <= i <= |opcodes|
        invariant BoundaryFrom(i, position, points, afterInsert) == Boundary(position, afterInsert)
      {
        var o := opcodes[i];
        points := points + Touching(o, position);
        if o.a < position < o.b {
          return Ok(if o.tag.Equal? then Some(o.c + position - o.a) else None);
        }
        i := i + 1;
      }
      if points == [] {
        return Ok(if base == "" && variant == "" then Some(0) else None);
      }
      return Ok(Some(if afterInsert then Largest(points) else Smallest(points)));
    }

    method FindInterval(start: int, end: int, includeEndInsert: bool) returns (r: Result<Option<(nat, nat)>>)
      ensures r == if 0 <= start <= end <= |base| then Ok(Interval(start, end, includeEndInsert))
                   else Err(ContractError)
    {
      if start > end {
        return Err(ContractError);
      }
      var left := FindBoundary(start, false);
      if left.Err? {
        return Err(left.error);
      }
      var right := FindBoundary(end, includeEndInsert);
      if right.Err? {
        return Err(right.error);
      }
      return Ok(if left.value.Some? && right.value.Some? then Some((left.value.value, right.value.value)) else None);
    }
  }

  ghost predicate Joined(o: Opcode, next: Opcode) {
    o.b == next.a && o.d == next.c && (o.tag.Equal? || next.tag.Equal?)
  }

  /** The library's contract, for every pair of strings. */
  ghost predicate DiffContract(diff: Differ) {
    forall b, v {:trigger diff(b, v)} :: TextMap(b, v, diff(b, v)).WellFormed()
  }

  function Touching(o: Opcode, position: nat): seq<nat> {
    (if o.a == position then [o.c] else []) + (if o.b == position then [o.d] else [])
  }

  function Smallest(points: seq<nat>): (r: nat)
    requires points != []
    ensures r in points && forall x :: x in points ==> r <= x
  {
    if |points| == 1 then points[0]
    else
      assert points == [points[0]] + points[1..];
      Min(points[0], Smallest(points[1..]))
  }

  function Largest(points: seq<nat>): (r: nat)
    requires points != []
    ensures r in points && forall x :: x in points ==> x <= r
  {
    if |points| == 1 then points[0]
    else
      assert points == [points[0]] + points[1..];
      Max(points[0], Largest(points[1..]))
  }

  // ----- the opcodes tile both texts -----

  lemma {:induction false} TilesForward(m: TextMap, i: nat, j: nat)
    requires m.WellFormed() && i < j < |m.opcodes|
    ensures m.opcodes[i].b <= m.opcodes[j].a && m.opcodes[i].d <= m.opcodes[j].c
    decreases j
  {
    assert Joined(m.opcodes[j - 1], m.opcodes[j]);
    if i < j - 1 {
      TilesForward(m, i, j - 1);
      assert m.OpcodeOk(m.opcodes[j - 1]);
    }
  }

  /** The opcode that a Base character belongs to. */
  lemma {:induction false} Covering(m: TextMap, p: nat) returns (k: nat)
    requires m.WellFormed() && p < |m.base|
    ensures k < |m.opcodes| && m.opcodes[k].a <= p < m.opcodes[k].b
  {
    k := 0;
    while m.opcodes[k].b <= p
      invariant k < |m.opcodes| && m.opcodes[k].a <= p
      decreases |m.opcodes| - k
    {
      assert k < |m.opcodes| - 1;
      assert Joined(m.opcodes[k], m.opcodes[k + 1]);
      k := k + 1;
    }
  }

  // ----- what Boundary computes -----

  lemma {:induction false} SkipLeft(m: TextMap, p: nat, i: nat, k: nat, after: bool)
    requires m.WellFormed() && i <= k < |m.opcodes| && m.opcodes[k].a < p
    ensures m.BoundaryFrom(i, p, [], after) == m.BoundaryFrom(k, p, [], after)
    decreases k - i
  {
    if i < k {
      TilesForward(m, i, k);
      assert m.OpcodeOk(m.opcodes[i]);
      assert Touching(m.opcodes[i], p) == [];
      assert [] + Touching(m.opcodes[i], p) == [];
      SkipLeft(m, p, i + 1, k, after);
    }
  }

  lemma {:induction false} SmallestStays(m: TextMap, p: nat, i: nat, x: nat, points: seq<nat>)
    requires m.WellFormed() && i <= |m.opcodes|
    requires x in points && forall y :: y in points ==> x <= y
    requires forall j :: i <= j < |m.opcodes| ==> p <= m.opcodes[j].a && x <= m.opcodes[j].c
    ensures m.BoundaryFrom(i, p, points, false) == Some(x)
    decreases |m.opcodes| - i
  {
    if i < |m.opcodes| {
      assert m.OpcodeOk(m.opcodes[i]);
      SmallestStays(m, p, i + 1, x, points + Touching(m.opcodes[i], p));
    }
  }

  /** The boundary before insertions, read off the opcode that covers the position from the left. */
  lemma {:induction false} BoundaryBefore(m: TextMap, p: nat, k: nat)
    requires m.WellFormed() && k < |m.opcodes| && m.opcodes[k].a < p <= m.opcodes[k].b
    ensures m.Boundary(p, false) ==
            if p == m.opcodes[k].b then Some(m.opcodes[k].d)
            else if m.opcodes[k].tag.Equal? then Some(m.opcodes[k].c + p - m.opcodes[k].a) else None
  {
    SkipLeft(m, p, 0, k, false);
    var o := m.opcodes[k];
    if p == o.b {
      assert [] + Touching(o, p) == [o.d];
      forall j | k + 1 <= j < |m.opcodes| ensures p <= m.opcodes[j].a && o.d <= m.opcodes[j].c {
        TilesForward(m, k, j);
      }
      SmallestStays(m, p, k + 1, o.d, [o.d]);
    }
  }

  lemma {:induction false} NothingRight(m: TextMap, p: nat, i: nat, points: seq<nat>, after: bool)
    requires m.WellFormed() && i <= |m.opcodes| && points != []
    requires forall j :: i <= j < |m.opcodes| ==> p < m.opcodes[j].a
    ensures m.BoundaryFrom(i, p, points, after) == Some(if after then Largest(points) else Smallest(points))
    decreases |m.opcodes| - i
  {
    if i < |m.opcodes| {
      assert m.OpcodeOk(m.opcodes[i]);
      assert points + Touching(m.opcodes[i], p) == points;
      NothingRight(m, p, i + 1, points, after);
    }
  }

  lemma {:induction false} LargestStays(m: TextMap, p: nat, i: nat, k: nat, points: seq<nat>)
    requires m.WellFormed() && i <= k < |m.opcodes| && m.opcodes[k].a <= p < m.opcodes[k].b
    requires forall y :: y in points ==> y <= m.opcodes[k].c
    ensures m.BoundaryFrom(i, p, points, true) ==
            if p == m.opcodes[k].a then Some(m.opcodes[k].c)
            else if m.opcodes[k].tag.Equal? then Some(m.opcodes[k].c + p - m.opcodes[k].a) else None
    decreases k - i
  {
    var o := m.opcodes[i];
    assert m.OpcodeOk(o);
    if i < k {
      TilesForward(m, i, k);
      LargestStays(m, p, i + 1, k, points + Touching(o, p));
    } else if p == o.a {
      var all := points + Touching(o, p);
      assert o.c in all;
      forall j | k + 1 <= j < |m.opcodes| ensures p < m.opcodes[j].a {
        TilesForward(m, k, j);
      }
      NothingRight(m, p, k + 1, all, true);
    }
  }

  /** The boundary after insertions, read off the opcode that covers the position from the right. */
  lemma {:induction false} BoundaryAfter(m: TextMap, p: nat, k: nat)
    requires m.WellFormed() && k < |m.opcodes| && m.opcodes[k].a <= p < m.opcodes[k].b
    ensures m.Boundary(p, true) ==
            if p == m.opcodes[k].a then Some(m.opcodes[k].c)
            else if m.opcodes[k].tag.Equal? then Some(m.opcodes[k].c + p - m.opcodes[k].a) else None
  {
    LargestStays(m, p, 0, k, []);
  }

  lemma {:induction false} BoundaryAtStart(m: TextMap)
    requires m.WellFormed()
    ensures m.Boundary(0, false) == Some(0)
  {
    if m.opcodes != [] {
      var o := m.opcodes[0];
      assert m.OpcodeOk(o);
      var points := [] + Touching(o, 0);
      assert 0 in points;
      SmallestStays(m, 0, 1, 0, points);
    }
  }

  lemma {:induction false} LargestAtEnd(m: TextMap, i: nat, points: seq<nat>)
    requires m.WellFormed() && i <= |m.opcodes|
    requires i == |m.opcodes| ==> (|m.variant| in points || m.opcodes == [])
    requires forall y :: y in points ==> y <= |m.variant|
    requires m.opcodes == [] ==> points == []
    ensures m.BoundaryFrom(i, |m.base|, points, true) == Some(|m.variant|)
    decreases |m.opcodes| - i
  {
    if i < |m.opcodes| {
      var o := m.opcodes[i];
      assert m.OpcodeOk(o);
      LargestAtEnd(m, i + 1, points + Touching(o, |m.base|));
    }
  }

  lemma {:induction false} BoundaryAtEnd(m: TextMap)
    requires m.WellFormed()
    ensures m.Boundary(|m.base|, true) == Some(|m.variant|)
  {
    LargestAtEnd(m, 0, []);
  }

  /** Whether a position maps exactly does not depend on the side of an insertion asked for. */
  lemma {:induction false} SameDomain(m: TextMap, i: nat, p: nat, points: seq<nat>)
    requires i <= |m.opcodes|
    ensures m.BoundaryFrom(i, p, points, true).Some? == m.BoundaryFrom(i, p, points, false).Some?
    decreases |m.opcodes| - i
  {
    if i < |m.opcodes| {
      SameDomain(m, i + 1, p, points + Touching(m.opcodes[i], p));
    }
  }

  // ----- unchanged runs carry the same text -----

  ghost predicate AllEqual(m: TextMap, i: nat, j: nat)
    requires j <= |m.opcodes|
  {
    forall k :: i <= k < j ==> m.opcodes[k].tag.Equal?
  }

  lemma {:induction false} EqualRun(m: TextMap, i: nat, j: nat)
    requires m.WellFormed() && i <= j < |m.opcodes| && AllEqual(m, i, j + 1)
    ensures m.opcodes[i].a <= m.opcodes[j].b <= |m.base| && m.opcodes[i].c <= m.opcodes[j].d <= |m.variant|
    ensures m.base[m.opcodes[i].a..m.opcodes[j].b] == m.variant[m.opcodes[i].c..m.opcodes[j].d]
    ensures m.opcodes[j].a - m.opcodes[i].a == m.opcodes[j].c - m.opcodes[i].c
    decreases j
  {
    var first, last := m.opcodes[i], m.opcodes[j];
    assert m.OpcodeOk(last);
    if i < j {
      EqualRun(m, i, j - 1);
      assert Joined(m.opcodes[j - 1], last);
      assert m.OpcodeOk(m.opcodes[j - 1]);
      assert m.base[first.a..last.b] == m.base[first.a..last.a] + m.base[last.a..last.b];
      assert m.variant[first.c..last.d] == m.variant[first.c..last.c] + m.variant[last.c..last.d];
    }
  }

  /** No change of this map reaches into the Base interval, except at its outer edges. */
  ghost predicate Untouched(m: TextMap, start: nat, end: nat) {
    forall k :: 0 <= k < |m.opcodes| && !m.opcodes[k].tag.Equal? ==> m.opcodes[k].b <= start || end <= m.opcodes[k].a
  }

  lemma {:induction false} UntouchedRun(m: TextMap, start: nat, end: nat, i: nat, j: nat)
    requires m.WellFormed() && start < end <= |m.base| && Untouched(m, start, end)
    requires i < |m.opcodes| && m.opcodes[i].a <= start < m.opcodes[i].b
    requires j < |m.opcodes| && m.opcodes[j].a < end <= m.opcodes[j].b
    ensures i <= j && AllEqual(m, i, j + 1)
  {
    if j < i { TilesForward(m, j, i); }
    forall k | i <= k < j + 1 ensures m.opcodes[k].tag.Equal? {
      assert m.OpcodeOk(m.opcodes[k]);
      if i < k { TilesForward(m, i, k); }
      if k < j { TilesForward(m, k, j); }
    }
  }

  /** A non-empty untouched interval is copied verbatim, from after any insertion at its left edge. */
  lemma {:induction false} GapText(m: TextMap, start: nat, end: nat)
    requires m.WellFormed() && start < end <= |m.base| && Untouched(m, start, end)
    ensures m.Boundary(start, true).Some? && m.Boundary(end, false).Some?
    ensures var x, y := m.Boundary(start, true).value, m.Boundary(end, false).value;
            y <= |m.variant| && y - x == end - start && m.variant[x..y] == m.base[start..end]
  {
    var i := Covering(m, start);
    var j := Covering(m, end - 1);
    UntouchedRun(m, start, end, i, j);
    BoundaryAfter(m, start, i);
    BoundaryBefore(m, end, j);
    EqualRun(m, i, j);
    RunSlice(m, i, j, start, end);
  }

  lemma {:induction false} RunSlice(m: TextMap, i: nat, j: nat, start: nat, end: nat)
    requires m.WellFormed() && i <= j < |m.opcodes| && AllEqual(m, i, j + 1)
    requires m.opcodes[i].a <= start <= end <= m.opcodes[j].b
    ensures var x, y := m.opcodes[i].c + start - m.opcodes[i].a, m.opcodes[i].c + end - m.opcodes[i].a;
            0 <= x <= y <= |m.variant| && end <= |m.base| && m.variant[x..y] == m.base[start..end]
  {
    EqualRun(m, i, j);
    var o := m.opcodes[i];
    var b, v := m.base[o.a..m.opcodes[j].b], m.variant[o.c..m.opcodes[j].d];
    SliceOfSlice(m.base, o.a, m.opcodes[j].b, start - o.a, end - o.a);
    SliceOfSlice(m.variant, o.c, m.opcodes[j].d, start - o.a, end - o.a);
    assert b[start - o.a..end - o.a] == v[start - o.a..end - o.a];
  }

  lemma {:induction false} SliceOfSlice(s: string, lo: nat, hi: nat, start: nat, end: nat)
    requires lo <= hi <= |s| && start <= end <= hi - lo
    ensures s[lo..hi][start..end] == s[lo + start..lo + end]
  {
    forall i | 0 <= i < end - start
      ensures s[lo..hi][start..end][i] == s[lo + start..lo + end][i]
    {
      assert s[lo..hi][start + i] == s[lo + start + i];
    }
  }

  /** Base text before the first change is copied from position 0. */
  lemma {:induction false} PrefixText(m: TextMap, end: nat)
    requires m.WellFormed() && end <= |m.base| && (end > 0 ==> Untouched(m, 0, end))
    requires forall k :: 0 <= k < |m.opcodes| && !m.opcodes[k].tag.Equal? ==> end <= m.opcodes[k].a
    ensures m.Boundary(end, false) == Some(end)
    ensures end <= |m.variant| && m.variant[..end] == m.base[..end]
  {
    if end == 0 {
      BoundaryAtStart(m);
    } else {
      var j := Covering(m, end - 1);
      var i := Covering(m, 0);
      UntouchedRun(m, 0, end, i, j);
      FirstCovers(m, i);
      BoundaryBefore(m, end, j);
      EqualRun(m, 0, j);
      RunSlice(m, 0, j, 0, end);
    }
  }

  lemma {:induction false} FirstCovers(m: TextMap, i: nat)
    requires m.WellFormed() && i < |m.opcodes| && m.opcodes[i].a <= 0 < m.opcodes[i].b
    requires forall k :: 0 <= k < |m.opcodes| && !m.opcodes[k].tag.Equal? ==> 0 < m.opcodes[k].a
    ensures i == 0
  {
    assert m.OpcodeOk(m.opcodes[0]);
    if i > 0 {
      TilesForward(m, 0, i);
    }
  }

  // ----- order of boundaries -----

  lemma {:induction false} BoundaryInRange(m: TextMap, i: nat, p: nat, points: seq<nat>, after: bool)
    requires m.WellFormed() && i <= |m.opcodes| && forall y :: y in points ==> y <= |m.variant|
    ensures m.BoundaryFrom(i, p, points, after).Some? ==> m.BoundaryFrom(i, p, points, after).value <= |m.variant|
    decreases |m.opcodes| - i
  {
    if i < |m.opcodes| {
      assert m.OpcodeOk(m.opcodes[i]);
      BoundaryInRange(m, i + 1, p, points + Touching(m.opcodes[i], p), after);
    }
  }

  /** At one position the boundary before insertions never exceeds the one after them. */
  lemma {:induction false} BeforeAfter(m: TextMap, i: nat, p: nat, points: seq<nat>)
    requires i <= |m.opcodes|
    requires m.BoundaryFrom(i, p, points, false).Some?
    ensures m.BoundaryFrom(i, p, points, true).Some?
    ensures m.BoundaryFrom(i, p, points, false).value <= m.BoundaryFrom(i, p, points, true).value
    decreases |m.opcodes| - i
  {
    if i < |m.opcodes| {
      var o := m.opcodes[i];
      if !(o.a < p < o.b) {
        BeforeAfter(m, i + 1, p, points + Touching(o, p));
      }
    } else if points != [] {
      assert Smallest(points) in points;
    }
  }

  lemma {:induction false} BeforeMonotone(m: TextMap, p: nat, q: nat)
    requires m.WellFormed() && p < q <= |m.base|
    requires m.Boundary(p, false).Some? && m.Boundary(q, false).Some?
    ensures m.Boundary(p, false).value <= m.Boundary(q, false).value
  {
    var j := Covering(m, q - 1);
    BoundaryBefore(m, q, j);
    assert m.OpcodeOk(m.opcodes[j]);
    if p == 0 {
      BoundaryAtStart(m);
    } else {
      var i := Covering(m, p - 1);
      BoundaryBefore(m, p, i);
      assert m.OpcodeOk(m.opcodes[i]);
      if i < j { TilesForward(m, i, j); }
      if j < i { TilesForward(m, j, i); }
    }
  }

  lemma {:induction false} AfterMonotone(m: TextMap, p: nat, q: nat)
    requires m.WellFormed() && p < q <= |m.base|
    requires m.Boundary(p, true).Some? && m.Boundary(q, true).Some?
    ensures m.Boundary(p, true).value <= m.Boundary(q, true).value
  {
    var i := Covering(m, p);
    BoundaryAfter(m, p, i);
    assert m.OpcodeOk(m.opcodes[i]);
    if q == |m.base| {
      BoundaryAtEnd(m);
    } else {
      var j := Covering(m, q);
      BoundaryAfter(m, q, j);
      assert m.OpcodeOk(m.opcodes[j]);
      if i < j { TilesForward(m, i, j); }
      if j < i { TilesForward(m, j, i); }
    }
  }

  /** A mapped interval is a real slice of the variant. */
  lemma {:induction false} IntervalIsSlice(m: TextMap, start: nat, end: nat, includeEnd: bool)
    requires m.WellFormed() && start <= end <= |m.base|
    ensures m.Interval(start, end, includeEnd).Some? ==>
              var (left, right) := m.Interval(start, end, includeEnd).value; left <= right <= |m.variant|
  {
    if m.Interval(start, end, includeEnd).Some? {
      BoundaryInRange(m, 0, end, [], includeEnd);
      SameDomain(m, 0, end, []);
      BeforeAfter(m, 0, end, []);
      if start < end { BeforeMonotone(m, start, end); }
    }
  }

  // ----- build_text_map: the diff round-trips -----

  function ChangePiece(c: TextChange): Piece {
    Piece(c.start, c.end, c.replacement)
  }

  function ChangePieces(cs: seq<TextChange>): (r: seq<Piece>)
    ensures |r| == |cs|
  {
    if cs == [] then [] else [ChangePiece(cs[0])] + ChangePieces(cs[1..])
  }

  lemma {:induction false} OrderedCons(base: string, from: nat, p: Piece, rest: seq<Piece>)
    requires from <= p.start <= p.end <= |base| && Ordered(base, p.end, rest)
    ensures Ordered(base, from, [p] + rest)
  {
  }

  lemma {:induction false} PrependChange(base: string, from: nat, c: TextChange, cs: seq<TextChange>)
    ensures ChangePieces([c] + cs) == [ChangePiece(c)] + ChangePieces(cs)
    ensures Assemble(base, from, ChangePieces([c] + cs))
            == Slice(base, from, c.start) + (c.replacement + Assemble(base, c.end, ChangePieces(cs)))
  {
    assert ([c] + cs)[1..] == cs;
    var all := [ChangePiece(c)] + ChangePieces(cs);
    assert all[1..] == ChangePieces(cs);
  }

  lemma {:induction false} KeepRun(m: TextMap, o: Opcode, rest: seq<Piece>)
    requires m.WellFormed() && m.OpcodeOk(o) && o.tag.Equal?
    requires Ordered(m.base, o.b, rest) && Assemble(m.base, o.b, rest) == m.variant[o.d..]
    ensures Ordered(m.base, o.a, rest) && Assemble(m.base, o.a, rest) == m.variant[o.c..]
  {
    AssembleShift(m.base, o.a, o.b, rest);
    assert m.base[o.a..o.b] == m.variant[o.c..o.d];
    assert m.variant[o.c..] == m.variant[o.c..o.d] + m.variant[o.d..];
  }

  lemma {:induction false} ReplaceRun(m: TextMap, o: Opcode, cs: seq<TextChange>)
    requires m.WellFormed() && m.OpcodeOk(o) && !o.tag.Equal?
    requires Ordered(m.base, o.b, ChangePieces(cs)) && Assemble(m.base, o.b, ChangePieces(cs)) == m.variant[o.d..]
    ensures Ordered(m.base, o.a, ChangePieces([m.Change(o)] + cs))
    ensures Assemble(m.base, o.a, ChangePieces([m.Change(o)] + cs)) == m.variant[o.c..]
  {
    PrependChange(m.base, o.a, m.Change(o), cs);
    assert Slice(m.base, o.a, o.a) == [] && m.Change(o).replacement == m.variant[o.c..o.d];
    assert [] + (m.variant[o.c..o.d] + m.variant[o.d..]) == m.variant[o.c..];
    OrderedCons(m.base, o.a, ChangePiece(m.Change(o)), ChangePieces(cs));
  }

  /** Replacing each change of Base by its recorded text gives the variant, from any opcode on. */
  lemma {:induction false} ChangesRebuild(m: TextMap, k: nat, from: nat, x: nat)
    requires m.WellFormed() && k <= |m.opcodes|
    requires from == (if k < |m.opcodes| then m.opcodes[k].a else |m.base|)
    requires x == (if k < |m.opcodes| then m.opcodes[k].c else |m.variant|)
    ensures from <= |m.base| && x <= |m.variant|
    ensures Ordered(m.base, from, ChangePieces(m.ChangesOf(m.opcodes[k..])))
    ensures Assemble(m.base, from, ChangePieces(m.ChangesOf(m.opcodes[k..]))) == m.variant[x..]
    decreases |m.opcodes| - k
  {
    if k < |m.opcodes| {
      var o, cs := m.opcodes[k], m.ChangesOf(m.opcodes[k + 1..]);
      assert m.OpcodeOk(o);
      assert m.opcodes[k..][0] == o && m.opcodes[k..][1..] == m.opcodes[k + 1..];
      if k + 1 < |m.opcodes| { assert Joined(o, m.opcodes[k + 1]); }
      ChangesRebuild(m, k + 1, o.b, o.d);
      if o.tag.Equal? {
        assert m.ChangesOf(m.opcodes[k..]) == cs;
        KeepRun(m, o, ChangePieces(cs));
      } else {
        assert m.ChangesOf(m.opcodes[k..]) == [m.Change(o)] + cs;
        ReplaceRun(m, o, cs);
      }
    }
  }

  ghost predicate RoundTrips(m: TextMap) {
    Assemble(m.base, 0, ChangePieces(m.Changes())) == m.variant
  }

  /** Under the library's contract the round-trip check of build_text_map always succeeds. */
  lemma {:induction false} WellFormedRoundTrips(m: TextMap)
    requires m.WellFormed()
    ensures RoundTrips(m)
  {
    if m.opcodes == [] {
      assert m.Changes() == [];
    } else {
      ChangesRebuild(m, 0, 0, 0);
      assert m.opcodes[0..] == m.opcodes;
    }
  }

  // ----- the changes as edits -----

  function ChangeEdit(base: string, c: TextChange, reason: Reason): Edit {
    Edit(c.start, c.end, Slice(base, c.start, c.end), c.replacement, reason)
  }

  function ChangeEdits(base: string, cs: seq<TextChange>, reason: Reason): (r: seq<Edit>)
    ensures |r| == |cs| && forall i :: 0 <= i < |cs| ==> r[i] == ChangeEdit(base, cs[i], reason)
  {
    seq(|cs|, i requires 0 <= i < |cs| => ChangeEdit(base, cs[i], reason))
  }

  /** Changes from an opcode on: they start no earlier, and strictly later when it is not a change itself. */
  ghost predicate StartFrom(m: TextMap, cs: seq<TextChange>, from: nat, strictly: bool) {
    && (forall i :: 0 <= i < |cs| ==> cs[i].start <= cs[i].end <= |m.base|)
    && (forall i :: 0 <= i < |cs| ==> if strictly then from < cs[i].start else from <= cs[i].start)
    && (forall i, j :: 0 <= i < j < |cs| ==> cs[i].start < cs[j].start)
  }

  /** Two changes are never adjacent, so no two of them start at the same place. */
  lemma {:induction false} ChangesAscend(m: TextMap, k: nat)
    requires m.WellFormed() && k < |m.opcodes|
    ensures StartFrom(m, m.ChangesOf(m.opcodes[k..]), m.opcodes[k].a, m.opcodes[k].tag.Equal?)
    decreases |m.opcodes| - k
  {
    var o, cs := m.opcodes[k], m.ChangesOf(m.opcodes[k + 1..]);
    assert m.OpcodeOk(o);
    assert m.opcodes[k..][0] == o && m.opcodes[k..][1..] == m.opcodes[k + 1..];
    assert m.ChangesOf(m.opcodes[k..]) == (if o.tag.Equal? then [] else [m.Change(o)]) + cs;
    if k + 1 < |m.opcodes| {
      assert Joined(o, m.opcodes[k + 1]);
      ChangesAscend(m, k + 1);
    }
  }

  lemma {:induction false} KeptAll(base: string, pieces: seq<Piece>)
    ensures IsKeptFrom(base, pieces, pieces)
  {
    if pieces != [] {
      KeptAll(base, pieces[1..]);
    }
  }

  lemma {:induction false} ChangePiecesAt(cs: seq<TextChange>, i: nat)
    requires i < |cs|
    ensures ChangePieces(cs)[i] == ChangePiece(cs[i])
    decreases |cs|
  {
    if i > 0 {
      ChangePiecesAt(cs[1..], i - 1);
    }
  }

  lemma {:induction false} EditsArePieces(base: string, cs: seq<TextChange>, reason: Reason)
    ensures ToPieces(ChangeEdits(base, cs, reason)) == ChangePieces(cs)
  {
    forall i | 0 <= i < |cs| ensures ToPieces(ChangeEdits(base, cs, reason))[i] == ChangePieces(cs)[i] {
      ChangePiecesAt(cs, i);
    }
  }

  lemma {:induction false} ChangesAreEdits(m: TextMap, reason: Reason)
    requires m.WellFormed()
    ensures var asc := ChangeEdits(m.base, m.Changes(), reason);
      Ascending(asc) && forall i :: 0 <= i < |asc| ==> Fits(m.base, asc[i])
    ensures Ordered(m.base, 0, ChangePieces(m.Changes()))
    ensures Assemble(m.base, 0, ChangePieces(m.Changes())) == m.variant
  {
    WellFormedRoundTrips(m);
    if m.opcodes != [] {
      assert m.opcodes[0..] == m.opcodes;
      ChangesAscend(m, 0);
      ChangesRebuild(m, 0, 0, 0);
    }
  }

  /** Applied as edits, in any order, the recorded changes of Base are accepted and give exactly the variant. */
  lemma {:induction false} ChangesApply(m: TextMap, edits: seq<Edit>, reason: Reason)
    requires m.WellFormed() && multiset(edits) == multiset(ChangeEdits(m.base, m.Changes(), reason))
    ensures Applied(m.base, edits) == Ok(m.variant)
  {
    hide *;
    ChangesAreEdits(m, reason);
    EditsArePieces(m.base, m.Changes(), reason);
    KeptAll(m.base, ChangePieces(m.Changes()));
    EditsRealise(m.base, ChangePieces(m.Changes()), ChangeEdits(m.base, m.Changes(), reason), edits);
  }

  lemma {:induction false} RebuildStep(base: string, cursor: nat, c: TextChange, cs: seq<TextChange>, rebuilt: string)
    ensures rebuilt + (Slice(base, cursor, c.start) + c.replacement) + Assemble(base, c.end, ChangePieces(cs))
            == rebuilt + Assemble(base, cursor, ChangePieces([c] + cs))
  {
    PrependChange(base, cursor, c, cs);
  }

  /** build_text_map: any opcodes are accepted exactly when they rebuild the variant. */
  method BuildTextMap(base: string, variant: string, opcodes: seq<Opcode>) returns (r: Result<TextMap>)
    ensures r == if RoundTrips(TextMap(base, variant, opcodes)) then Ok(TextMap(base, variant, opcodes))
                 else Err(ContractError)
    ensures TextMap(base, variant, opcodes).WellFormed() ==> r.Ok?
  {
    var m := TextMap(base, variant, opcodes);
    var changes := m.Changes();
    var cursor := 0;
    var rebuilt := "";
    var i := 0;
    assert changes[0..] == changes;
    while i < |changes|
      invariant 0 <= i <= |changes|
      invariant rebuilt + Assemble(base, cursor, ChangePieces(changes[i..])) == Assemble(base, 0, ChangePieces(changes))
    {
      var change := changes[i];
      assert changes[i..] == [change] + changes[i + 1..];
      RebuildStep(base, cursor, change, changes[i + 1..], rebuilt);
      rebuilt := rebuilt + (Slice(base, cursor, change.start) + change.replacement);
      cursor := change.end;
      i := i + 1;
    }
    rebuilt := rebuilt + Slice(base, cursor, |base|);
    if m.WellFormed() { WellFormedRoundTrips(m); }
    if rebuilt != variant {
      return Err(ContractError);
    }
    return Ok(m);
  }
}
