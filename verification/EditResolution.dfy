/** src/cueflow/edit_resolution.py: splicing resolved edits into the frozen Base text. */
module EditResolution {
  import opened Outcomes

  /** A replacement text for a half-open Base interval. */
  datatype Piece = Piece(start: nat, end: nat, text: string)

  datatype Reason = Agreement | Singleton | Selection | Human

  datatype Edit = Edit(start: int, end: int, original: string, replacement: string, reason: Reason)

  // ----- left-to-right assembly -----

  /** Base from position `from` on, with every piece put in the place of its interval. */
  function Assemble(base: string, from: nat, pieces: seq<Piece>): string
    decreases |pieces|
  {
    if pieces == [] then Slice(base, from, |base|)
    else Slice(base, from, pieces[0].start) + (pieces[0].text + Assemble(base, pieces[0].end, pieces[1..]))
  }

  /** Pieces in Base order, possibly touching, never overlapping. */
  ghost predicate Ordered(base: string, from: nat, pieces: seq<Piece>) {
    && from <= |base|
    && (forall i :: 0 <= i < |pieces| ==> from <= pieces[i].start <= pieces[i].end <= |base|)
    && (forall i, j :: 0 <= i < j < |pieces| ==> pieces[i].end <= pieces[j].start)
  }

  predicate IsIdentity(base: string, p: Piece) {
    p.text == Slice(base, p.start, p.end)
  }

  /** Keeping only part of the pieces changes nothing when the others restate Base. */
  lemma {:induction false} DropIdentities(base: string, from: nat, pieces: seq<Piece>, kept: seq<Piece>)
    requires Ordered(base, from, pieces)
    requires IsKeptFrom(base, pieces, kept)
    ensures Assemble(base, from, kept) == Assemble(base, from, pieces)
    decreases |pieces|
  {
    if pieces == [] {
    } else if IsIdentity(base, pieces[0]) && IsKeptFrom(base, pieces[1..], kept) {
      var p, rest := pieces[0], pieces[1..];
      DropIdentities(base, p.end, rest, kept);
      KeptAreOrdered(base, p.end, rest, kept);
      AssembleShift(base, from, p.end, kept);
      assert p.text == base[p.start..p.end];
      SplitAt(base, from, p.start, p.end, Assemble(base, p.end, rest));
    } else {
      DropIdentities(base, pieces[0].end, pieces[1..], kept[1..]);
    }
  }

  lemma {:induction false} SplitAt(base: string, from: nat, mid: nat, end: nat, rest: string)
    requires from <= mid <= end <= |base|
    ensures base[from..end] + rest == base[from..mid] + (base[mid..end] + rest)
  {
  }

  /** `kept` is `pieces` without some of the pieces that restate Base. */
  ghost predicate IsKeptFrom(base: string, pieces: seq<Piece>, kept: seq<Piece>)
    decreases |pieces|
  {
    if pieces == [] then kept == []
    else
      || (IsIdentity(base, pieces[0]) && IsKeptFrom(base, pieces[1..], kept))
      || (kept != [] && kept[0] == pieces[0] && IsKeptFrom(base, pieces[1..], kept[1..]))
  }

  lemma {:induction false} KeptWith(base: string, p: Piece, pieces: seq<Piece>, kept: seq<Piece>)
    requires IsKeptFrom(base, pieces, kept)
    ensures IsKeptFrom(base, [p] + pieces, [p] + kept)
  {
    assert ([p] + pieces)[1..] == pieces && ([p] + kept)[1..] == kept;
  }

  lemma {:induction false} KeptWithout(base: string, p: Piece, pieces: seq<Piece>, kept: seq<Piece>)
    requires IsKeptFrom(base, pieces, kept) && IsIdentity(base, p)
    ensures IsKeptFrom(base, [p] + pieces, kept)
  {
    assert ([p] + pieces)[1..] == pieces;
  }

  lemma {:induction false} KeptAreOrdered(base: string, from: nat, pieces: seq<Piece>, kept: seq<Piece>)
    requires Ordered(base, from, pieces) && IsKeptFrom(base, pieces, kept)
    ensures Ordered(base, from, kept)
    decreases |pieces|
  {
    if pieces == [] {
    } else if IsIdentity(base, pieces[0]) && IsKeptFrom(base, pieces[1..], kept) {
      KeptAreOrdered(base, pieces[0].end, pieces[1..], kept);
    } else {
      KeptAreOrdered(base, pieces[0].end, pieces[1..], kept[1..]);
    }
  }

  /** Starting further left only prepends the Base text in between. */
  lemma {:induction false} AssembleShift(base: string, from: nat, mid: nat, pieces: seq<Piece>)
    requires from <= mid && Ordered(base, mid, pieces)
    ensures Assemble(base, from, pieces) == base[from..mid] + Assemble(base, mid, pieces)
  {
    if pieces == [] {
      SplitAt(base, from, mid, |base|, []);
      assert base[from..] + [] == base[from..] && base[mid..] + [] == base[mid..];
    } else {
      SplitAt(base, from, mid, pieces[0].start, pieces[0].text + Assemble(base, pieces[0].end, pieces[1..]));
    }
  }

  /** How much longer the text gets by the pieces. */
  function Growth(pieces: seq<Piece>): int {
    if pieces == [] then 0
    else |pieces[0].text| - (pieces[0].end - pieces[0].start) + Growth(pieces[1..])
  }

  /** Where the Base text before a piece starts. */
  function GapStart(from: nat, pieces: seq<Piece>, j: nat): nat
    requires j <= |pieces|
  {
    if j == 0 then from else pieces[j - 1].end
  }

  /** At the place that lengths give, `text` holds the Base text before a piece, and then the piece. */
  ghost predicate HoldsAt(base: string, from: nat, pieces: seq<Piece>, j: nat, text: string)
    requires j < |pieces|
  {
    var grown, gap, p := Growth(pieces[..j]) - from, GapStart(from, pieces, j), pieces[j];
    && 0 <= gap + grown <= p.start + grown <= p.start + grown + |p.text| <= |text|
    && gap <= p.start <= |base| && text[gap + grown..p.start + grown] == base[gap..p.start]
    && text[p.start + grown..p.start + grown + |p.text|] == p.text
  }

  lemma {:induction false} AssembleAt(base: string, from: nat, pieces: seq<Piece>, j: nat)
    requires Ordered(base, from, pieces) && j < |pieces|
    ensures HoldsAt(base, from, pieces, j, Assemble(base, from, pieces))
    decreases |pieces|
  {
    hide Ordered, HoldsAt;
    OrderedTail(base, from, pieces);
    if j == 0 {
      FirstHolds(base, from, pieces);
    } else {
      AssembleAt(base, pieces[0].end, pieces[1..], j - 1);
      LaterHolds(base, from, pieces, j, Assemble(base, pieces[0].end, pieces[1..]));
    }
  }

  lemma {:induction false} FirstHolds(base: string, from: nat, pieces: seq<Piece>)
    requires pieces != [] && from <= pieces[0].start <= pieces[0].end <= |base|
    ensures HoldsAt(base, from, pieces, 0, Assemble(base, from, pieces))
  {
    var p := pieces[0];
    var gap, tail := base[from..p.start], Assemble(base, p.end, pieces[1..]);
    assert Assemble(base, from, pieces) == gap + (p.text + tail);
    assert (gap + (p.text + tail))[..p.start - from] == gap;
    assert (gap + (p.text + tail))[p.start - from..p.start - from + |p.text|] == p.text;
  }

  lemma {:induction false} GrowthCons(pieces: seq<Piece>, j: nat)
    requires 0 < j <= |pieces|
    ensures Growth(pieces[..j])
            == |pieces[0].text| - (pieces[0].end - pieces[0].start) + Growth(pieces[1..][..j - 1])
  {
    assert pieces[..j][1..] == pieces[1..][..j - 1];
  }

  lemma {:induction false} LaterHolds(base: string, from: nat, pieces: seq<Piece>, j: nat, tail: string)
    requires 0 < j < |pieces| && from <= pieces[0].start <= pieces[0].end <= |base|
    requires HoldsAt(base, pieces[0].end, pieces[1..], j - 1, tail)
    ensures HoldsAt(base, from, pieces, j, base[from..pieces[0].start] + (pieces[0].text + tail))
  {
    hide Growth;
    var p, rest := pieces[0], pieces[1..];
    GrowthCons(pieces, j);
    assert GapStart(p.end, rest, j - 1) == GapStart(from, pieces, j);
    assert rest[j - 1] == pieces[j];
    var grown := Growth(rest[..j - 1]) - p.end;
    var a, b := GapStart(from, pieces, j) + grown, pieces[j].start + grown;
    AfterBoth(base[from..p.start], p.text, tail, a, b);
    AfterBoth(base[from..p.start], p.text, tail, b, b + |pieces[j].text|);
  }

  lemma {:induction false} OrderedTail(base: string, from: nat, pieces: seq<Piece>)
    requires Ordered(base, from, pieces) && pieces != []
    ensures from <= pieces[0].start <= pieces[0].end <= |base| && Ordered(base, pieces[0].end, pieces[1..])
  {
  }

  lemma {:induction false} AfterBoth(x: string, y: string, tail: string, i: nat, j: nat)
    requires i <= j <= |tail|
    ensures (x + (y + tail))[|x| + |y| + i..|x| + |y| + j] == tail[i..j]
  {
  }

  // ----- which edit lists are accepted -----

  /** An edit's own checks: a real Base interval whose text is the recorded original. */
  predicate Fits(base: string, e: Edit) {
    0 <= e.start <= e.end <= |base| && base[e.start..e.end] == e.original
  }

  /** Pairwise: different starts, and the earlier one ends before the later one starts. */
  predicate Apart(e: Edit, f: Edit) {
    e.start != f.start && (e.start < f.start ==> e.end <= f.start) && (f.start < e.start ==> f.end <= e.start)
  }

  /** Acceptance of a whole collection; it never mentions an order. */
  ghost predicate Admissible(base: string, edits: multiset<Edit>) {
    && (forall e :: e in edits ==> Fits(base, e) && edits[e] == 1)
    && (forall e, f :: e in edits && f in edits && e != f ==> Apart(e, f))
  }

  ghost predicate Ascending(edits: seq<Edit>) {
    forall i, j :: 0 <= i < j < |edits| ==> edits[i].start < edits[j].start
  }

  function ToPiece(e: Edit): Piece {
    Piece(if e.start < 0 then 0 else e.start, if e.end < 0 then 0 else e.end, e.replacement)
  }

  function ToPieces(edits: seq<Edit>): (r: seq<Piece>)
    ensures |r| == |edits|
    ensures forall i :: 0 <= i < |edits| ==> r[i] == ToPiece(edits[i])
  {
    seq(|edits|, i requires 0 <= i < |edits| => ToPiece(edits[i]))
  }

  // ----- Python's sorted(..., reverse=True): descending, ties in input order -----

  ghost predicate Descending(edits: seq<Edit>) {
    forall i, j :: 0 <= i < j < |edits| ==> edits[i].start >= edits[j].start
  }

  function InsertDescending(e: Edit, sorted: seq<Edit>): (r: seq<Edit>)
    ensures multiset(r) == multiset(sorted) + multiset{e}
  {
    if sorted == [] || e.start >= sorted[0].start then [e] + sorted
    else
      assert sorted == [sorted[0]] + sorted[1..];
      [sorted[0]] + InsertDescending(e, sorted[1..])
  }

  lemma {:induction false} InsertKeepsDescending(e: Edit, sorted: seq<Edit>)
    requires Descending(sorted)
    ensures Descending(InsertDescending(e, sorted))
  {
    if sorted != [] && e.start < sorted[0].start {
      var rest := InsertDescending(e, sorted[1..]);
      InsertKeepsDescending(e, sorted[1..]);
      forall k | 0 <= k < |rest| ensures rest[k].start <= sorted[0].start {
        assert rest[k] in multiset(rest);
        assert rest[k] == e || rest[k] in multiset(sorted[1..]);
      }
    }
  }

  function SortDescending(edits: seq<Edit>): (r: seq<Edit>)
    ensures multiset(r) == multiset(edits)
  {
    if edits == [] then []
    else
      assert edits == [edits[0]] + edits[1..];
      InsertDescending(edits[0], SortDescending(edits[1..]))
  }

  lemma {:induction false} SortIsDescending(edits: seq<Edit>)
    ensures Descending(SortDescending(edits))
  {
    if edits != [] {
      SortIsDescending(edits[1..]);
      InsertKeepsDescending(edits[0], SortDescending(edits[1..]));
    }
  }

  function Reverse<T>(s: seq<T>): (r: seq<T>)
    ensures |r| == |s| && (forall i :: 0 <= i < |s| ==> r[i] == s[|s| - 1 - i])
  {
    seq(|s|, i requires 0 <= i < |s| => s[|s| - 1 - i])
  }

  lemma {:induction false} ReverseSnoc<T>(s: seq<T>, x: T)
    ensures Reverse(s + [x]) == [x] + Reverse(s)
  {
  }

  lemma {:induction false} ReverseKeepsElements<T>(s: seq<T>)
    ensures multiset(Reverse(s)) == multiset(s)
  {
    if s != [] {
      var rest, last := s[..|s| - 1], s[|s| - 1];
      assert s == rest + [last];
      ReverseSnoc(rest, last);
      ReverseKeepsElements(rest);
    } else {
      assert Reverse(s) == [];
    }
  }

  // ----- the specification and the right-to-left loop -----

  ghost function Applied(base: string, edits: seq<Edit>): Result<string> {
    if Admissible(base, multiset(edits))
    then Ok(Assemble(base, 0, ToPieces(Reverse(SortDescending(edits)))))
    else Err(ContractError)
  }

  /** What the scan has checked of a descending list: each edit fits and ends where the next may start. */
  ghost predicate Chained(base: string, desc: seq<Edit>) {
    && (forall k :: 0 <= k < |desc| ==> Fits(base, desc[k]))
    && (forall k, l :: 0 <= k < l < |desc| ==> desc[l].start < desc[k].start && desc[l].end <= desc[k].start)
  }

  lemma {:induction false} CountTwice<T>(s: seq<T>, i: nat, j: nat)
    requires i < j < |s| && s[i] == s[j]
    ensures multiset(s)[s[i]] >= 2
  {
    assert s == s[..j] + s[j..];
    assert s[i] in s[..j] && s[j] in s[j..];
  }

  lemma {:induction false} CountOnce(base: string, desc: seq<Edit>, e: Edit)
    requires Chained(base, desc) && e in desc
    ensures multiset(desc)[e] == 1
    decreases |desc|
  {
    assert desc == [desc[0]] + desc[1..];
    if e in desc[1..] {
      CountOnce(base, desc[1..], e);
    }
  }

  lemma {:induction false} ChainedIsAdmissible(base: string, desc: seq<Edit>)
    requires Chained(base, desc)
    ensures Admissible(base, multiset(desc))
  {
    forall e | e in multiset(desc) ensures Fits(base, e) && multiset(desc)[e] == 1 {
      assert e in desc;
      CountOnce(base, desc, e);
    }
    forall e, f | e in multiset(desc) && f in multiset(desc) && e != f ensures Apart(e, f) {
      var k :| 0 <= k < |desc| && desc[k] == e;
      var l :| 0 <= l < |desc| && desc[l] == f;
    }
  }

  lemma {:induction false} AdmissibleIsChained(base: string, desc: seq<Edit>)
    requires Admissible(base, multiset(desc)) && Descending(desc)
    ensures Chained(base, desc)
  {
    forall k | 0 <= k < |desc| ensures Fits(base, desc[k]) {
      assert desc[k] in multiset(desc);
    }
    forall k, l | 0 <= k < l < |desc|
      ensures desc[l].start < desc[k].start && desc[l].end <= desc[k].start
    {
      if desc[k] == desc[l] { CountTwice(desc, k, l); }
      assert desc[k] in multiset(desc) && desc[l] in multiset(desc);
      assert desc[k] == desc[l] || Apart(desc[k], desc[l]);
    }
  }

  /** Where the text right of the edits done so far begins. */
  function Front(base: string, done: seq<Edit>): int {
    if done == [] then |base| else done[|done| - 1].start
  }

  lemma {:induction false} ChainedPieces(base: string, desc: seq<Edit>)
    requires Chained(base, desc)
    ensures 0 <= Front(base, desc) <= |base|
    ensures Ordered(base, Front(base, desc), ToPieces(Reverse(desc)))
  {
    var asc := Reverse(desc);
    var pieces := ToPieces(asc);
    forall i | 0 <= i < |pieces|
      ensures Front(base, desc) <= pieces[i].start <= pieces[i].end <= |base|
    {
      assert pieces[i] == ToPiece(asc[i]) && asc[i] == desc[|desc| - 1 - i];
      assert Fits(base, asc[i]);
    }
    forall i, j | 0 <= i < j < |pieces| ensures pieces[i].end <= pieces[j].start {
      assert asc[i] == desc[|desc| - 1 - i] && asc[j] == desc[|desc| - 1 - j];
      assert Fits(base, asc[i]) && Fits(base, asc[j]);
    }
  }

  lemma {:induction false} AssembleCons(base: string, from: nat, piece: Piece, tail: seq<Piece>)
    ensures Assemble(base, from, [piece] + tail)
         == Slice(base, from, piece.start) + (piece.text + Assemble(base, piece.end, tail))
  {
    assert ([piece] + tail)[1..] == tail;
  }

  lemma {:induction false} Regroup(a: string, b: string, c: string)
    ensures a + b + c == a + (b + c)
  {
  }

  /** One turn of the loop: splicing at `e` prepends its piece to the assembled tail. */
  lemma {:induction false} SpliceStep(base: string, done: seq<Edit>, tail: seq<Piece>, e: Edit, result: string)
    requires Fits(base, e) && e.end <= Front(base, done) <= |base|
    requires Ordered(base, Front(base, done), tail)
    requires result == base[..Front(base, done)] + Assemble(base, Front(base, done), tail)
    ensures result[..e.start] + e.replacement + result[e.end..]
            == base[..e.start] + Assemble(base, e.start, [ToPiece(e)] + tail)
  {
    var p := Front(base, done);
    AssembleShift(base, e.end, p, tail);
    AssembleCons(base, e.start, ToPiece(e), tail);
    assert result[..e.start] == base[..e.start];
    assert result[e.end..] == base[e.end..p] + Assemble(base, p, tail);
    Regroup(result[..e.start], e.replacement, result[e.end..]);
    assert Slice(base, e.start, e.start) + (e.replacement + result[e.end..]) == e.replacement + result[e.end..];
  }

  lemma {:induction false} ChainedSnoc(base: string, done: seq<Edit>, e: Edit)
    requires Chained(base, done) && Fits(base, e)
    requires done != [] ==> e.end <= Front(base, done) && e.start < Front(base, done)
    ensures Chained(base, done + [e])
    ensures ToPieces(Reverse(done + [e])) == [ToPiece(e)] + ToPieces(Reverse(done))
  {
    var all := done + [e];
    ReverseSnoc(done, e);
    forall k, l | 0 <= k < l < |all| ensures all[l].start < all[k].start && all[l].end <= all[k].start {
      if l == |done| {
        assert done[k].start >= done[|done| - 1].start;
      }
    }
  }

  /** Everything the loop keeps: `done` is spliced into `result`, the text left of it is still Base. */
  ghost predicate ScanState(base: string, done: seq<Edit>, result: string) {
    && Chained(base, done)
    && 0 <= Front(base, done) <= |base|
    && result == base[..Front(base, done)] + Assemble(base, Front(base, done), ToPieces(Reverse(done)))
  }

  lemma {:induction false} ScanStep(base: string, done: seq<Edit>, e: Edit, result: string)
    requires ScanState(base, done, result) && Fits(base, e)
    requires done != [] ==> e.end <= Front(base, done) && e.start < Front(base, done)
    ensures e.end <= |result|
    ensures ScanState(base, done + [e], result[..e.start] + e.replacement + result[e.end..])
  {
    ChainedPieces(base, done);
    SpliceStep(base, done, ToPieces(Reverse(done)), e, result);
    ChainedSnoc(base, done, e);
  }

  lemma {:induction false} ScanEnd(base: string, desc: seq<Edit>, result: string)
    requires ScanState(base, desc, result)
    ensures Admissible(base, multiset(desc))
    ensures result == Assemble(base, 0, ToPieces(Reverse(desc)))
  {
    ChainedIsAdmissible(base, desc);
    ChainedPieces(base, desc);
    AssembleShift(base, 0, Front(base, desc), ToPieces(Reverse(desc)));
  }

  lemma {:induction false} ScanStart(base: string)
    ensures ScanState(base, [], base)
  {
    assert Reverse<Edit>([]) == [];
    assert base == base[..|base|] + [];
  }

  /** The loop of apply_resolved_payload: splice from the right, so that earlier offsets stay valid. */
  method ApplyResolvedPayload(base: string, edits: seq<Edit>) returns (r: Result<string>)
    ensures r == Applied(base, edits)
  {
    hide ScanState, Assemble, Reverse, Admissible, SortDescending;
    var desc := SortDescending(edits);
    SortIsDescending(edits);
    var result := base;
    var previousStart := |base| + 1;
    ScanStart(base);
    var i := 0;
    while i < |desc|
      invariant 0 <= i <= |desc|
      invariant previousStart == if i == 0 then |base| + 1 else desc[i - 1].start
      invariant ScanState(base, desc[..i], result)
    {
      var e := desc[i];
      if !(0 <= e.start <= e.end <= |base|) || e.end > previousStart || e.start == previousStart
         || base[e.start..e.end] != e.original
      {
        RejectStep(base, desc, i);
        return Err(ContractError);
      }
      assert e.start <= previousStart;
      ScanStep(base, desc[..i], e, result);
      assert desc[..i + 1] == desc[..i] + [e];
      result := result[..e.start] + e.replacement + result[e.end..];
      previousStart := e.start;
      i := i + 1;
    }
    assert desc[..i] == desc;
    ScanEnd(base, desc, result);
    return Ok(result);
  }

  lemma {:induction false} RejectStep(base: string, desc: seq<Edit>, i: nat)
    requires i < |desc| && Descending(desc)
    requires !Fits(base, desc[i]) || (i > 0 && (desc[i].end > desc[i - 1].start || desc[i].start == desc[i - 1].start))
    ensures !Admissible(base, multiset(desc))
  {
    if Admissible(base, multiset(desc)) {
      AdmissibleIsChained(base, desc);
    }
  }

  // ----- laws -----

  ghost predicate StrictlyDescending(edits: seq<Edit>) {
    forall k, l :: 0 <= k < l < |edits| ==> edits[l].start < edits[k].start
  }

  lemma {:induction false} FirstIsLargest(x: seq<Edit>, y: seq<Edit>)
    requires multiset(x) == multiset(y) && x != [] && y != []
    requires StrictlyDescending(x) && StrictlyDescending(y)
    ensures x[0] == y[0]
  {
    assert x[0] in multiset(y) && y[0] in multiset(x);
    var k :| 0 <= k < |y| && y[k] == x[0];
    var l :| 0 <= l < |x| && x[l] == y[0];
  }

  lemma {:induction false} TailElements<T>(s: seq<T>)
    requires s != []
    ensures multiset(s[1..]) == multiset(s) - multiset{s[0]}
  {
    assert s == [s[0]] + s[1..];
  }

  lemma {:induction false} SameLength<T>(x: seq<T>, y: seq<T>)
    requires multiset(x) == multiset(y)
    ensures |x| == |y|
  {
    assert |multiset(x)| == |x| && |multiset(y)| == |y|;
  }

  lemma {:induction false} UniqueDescending(x: seq<Edit>, y: seq<Edit>)
    requires multiset(x) == multiset(y)
    requires StrictlyDescending(x) && StrictlyDescending(y)
    ensures x == y
    decreases |x|
  {
    SameLength(x, y);
    if x != [] {
      FirstIsLargest(x, y);
      TailElements(x);
      TailElements(y);
      assert StrictlyDescending(x[1..]) && StrictlyDescending(y[1..]);
      UniqueDescending(x[1..], y[1..]);
      assert x == [x[0]] + x[1..] && y == [y[0]] + y[1..];
    }
  }

  /** Sorting any permutation of a chained list gives that list. */
  lemma {:induction false} SortGivesChain(base: string, edits: seq<Edit>, desc: seq<Edit>)
    requires Chained(base, desc) && multiset(edits) == multiset(desc)
    ensures Admissible(base, multiset(edits)) && SortDescending(edits) == desc
  {
    ChainedIsAdmissible(base, desc);
    SortIsDescending(edits);
    AdmissibleIsChained(base, SortDescending(edits));
    UniqueDescending(SortDescending(edits), desc);
  }

  /** Neither acceptance nor the result depends on the order of the edits. */
  lemma {:induction false} OrderDoesNotMatter(base: string, edits: seq<Edit>, permuted: seq<Edit>)
    requires multiset(edits) == multiset(permuted)
    ensures Applied(base, edits) == Applied(base, permuted)
  {
    if Admissible(base, multiset(edits)) {
      SortIsDescending(edits);
      AdmissibleIsChained(base, SortDescending(edits));
      SortGivesChain(base, permuted, SortDescending(edits));
    }
  }

  /**
   * Edits that are, in any order, the pieces of an ordered cover of Base minus some that restate
   * Base are accepted, and give exactly the text that the whole cover gives.
   */
  lemma {:induction false} EditsRealise(base: string, pieces: seq<Piece>, asc: seq<Edit>, edits: seq<Edit>)
    requires Ordered(base, 0, pieces) && IsKeptFrom(base, pieces, ToPieces(asc))
    requires Ascending(asc) && (forall i :: 0 <= i < |asc| ==> Fits(base, asc[i]))
    requires multiset(edits) == multiset(asc)
    ensures Applied(base, edits) == Ok(Assemble(base, 0, pieces))
  {
    hide *;
    KeptAreOrdered(base, 0, pieces, ToPieces(asc));
    AscendingReversed(base, asc);
    ReverseKeepsElements(asc);
    SortGivesChain(base, edits, Reverse(asc));
    ReverseTwice(asc);
    AppliedIs(base, edits);
    DropIdentities(base, 0, pieces, ToPieces(asc));
  }

  lemma {:induction false} AppliedIs(base: string, edits: seq<Edit>)
    requires Admissible(base, multiset(edits))
    ensures Applied(base, edits) == Ok(Assemble(base, 0, ToPieces(Reverse(SortDescending(edits)))))
  {
  }

  lemma {:induction false} ReverseTwice<T>(s: seq<T>)
    ensures Reverse(Reverse(s)) == s
  {
  }

  lemma {:induction false} AscendingReversed(base: string, asc: seq<Edit>)
    requires Ascending(asc) && (forall i :: 0 <= i < |asc| ==> Fits(base, asc[i]))
    requires Ordered(base, 0, ToPieces(asc))
    ensures Chained(base, Reverse(asc))
  {
    var desc, kept := Reverse(asc), ToPieces(asc);
    forall k, l | 0 <= k < l < |desc|
      ensures desc[l].start < desc[k].start && desc[l].end <= desc[k].start
    {
      var i, j := |asc| - 1 - l, |asc| - 1 - k;
      assert kept[i].end <= kept[j].start;
      assert Fits(base, asc[i]) && Fits(base, asc[j]);
    }
  }

  // ----- exactly what is refused -----

  /** The edit does not replace what Base has there. */
  ghost predicate Stale(base: string, e: Edit) {
    !(0 <= e.start <= e.end <= |base|) || Slice(base, e.start, e.end) != e.original
  }

  /** Two edits start together, or one reaches into the other. */
  ghost predicate Clash(e: Edit, f: Edit) {
    if e.start <= f.start then e.start == f.start || e.end > f.start else f.end > e.start
  }

  lemma {:induction false} OnceEach<T>(s: seq<T>, x: T)
    requires x in s && forall i, j :: 0 <= i < j < |s| ==> s[i] != s[j]
    ensures multiset(s)[x] == 1
  {
    var n := |s| - 1;
    assert s == s[..n] + [s[n]];
    if x == s[n] {
      assert x !in s[..n];
    } else {
      OnceEach(s[..n], x);
    }
  }

  /** Edits are refused exactly when one of them is stale or two of them clash. */
  lemma {:induction false} RefusedExactly(base: string, edits: seq<Edit>)
    ensures Applied(base, edits).Err? <==>
            || (exists i :: 0 <= i < |edits| && Stale(base, edits[i]))
            || (exists i, j :: 0 <= i < j < |edits| && Clash(edits[i], edits[j]))
  {
    forall e | e in edits
      ensures Stale(base, e) <==> !Fits(base, e)
    {
    }
    if Admissible(base, multiset(edits)) {
      forall i | 0 <= i < |edits|
        ensures !Stale(base, edits[i])
      {
        assert edits[i] in multiset(edits);
      }
      forall i, j | 0 <= i < j < |edits|
        ensures !Clash(edits[i], edits[j])
      {
        assert edits[i] in multiset(edits) && edits[j] in multiset(edits);
        if edits[i] == edits[j] {
          CountTwice(edits, i, j);
        }
        assert Apart(edits[i], edits[j]);
      }
    } else if (forall i :: 0 <= i < |edits| ==> !Stale(base, edits[i]))
              && (forall i, j :: 0 <= i < j < |edits| ==> !Clash(edits[i], edits[j])) {
      UnrefusedIsAdmissible(base, edits);
    }
  }

  lemma {:induction false} UnrefusedIsAdmissible(base: string, edits: seq<Edit>)
    requires forall i :: 0 <= i < |edits| ==> !Stale(base, edits[i])
    requires forall i, j :: 0 <= i < j < |edits| ==> !Clash(edits[i], edits[j])
    ensures Admissible(base, multiset(edits))
  {
    forall e | e in multiset(edits)
      ensures Fits(base, e) && multiset(edits)[e] == 1
    {
      assert e in edits;
      OnceEach(edits, e);
    }
    forall e, f | e in multiset(edits) && f in multiset(edits) && e != f
      ensures Apart(e, f)
    {
      assert e in edits && f in edits;
      var i :| 0 <= i < |edits| && edits[i] == e;
      var j :| 0 <= j < |edits| && edits[j] == f;
      assert if i < j then !Clash(edits[i], edits[j]) else !Clash(edits[j], edits[i]);
    }
  }
}
