/** What every operation on the phone ledger keeps (src/cueflow/phone_reputation.py). */
module LedgerSoundness {
  import opened Outcomes
  import opened PhoneReputation

  // ----- what the tables guarantee by themselves: keys and references -----

  ghost predicate EventsOk(l: Ledger, key: Key)
    requires key in l.log
  {
    && key.0 in l.rows && l.log[key] != []
    && (forall i :: 0 <= i < |l.log[key]| ==> l.log[key][i].id in l.place && l.place[l.log[key][i].id] == key)
    && (forall i, j :: 0 <= i < j < |l.log[key]| ==> l.log[key][i].id != l.log[key][j].id)
  }

  ghost predicate TablesOk(l: Ledger) {
    && (forall key {:trigger EventsOk(l, key)} :: key in l.log ==> EventsOk(l, key))
    && (forall id {:trigger HasEvent(l, id)} :: id in l.place ==> HasEvent(l, id))
    && (forall opId :: opId in l.ops ==> l.ops[opId].rep in l.rows)
    && (forall id :: id in l.bans ==> id in l.place)
  }

  ghost predicate HasEvent(l: Ledger, id: Id)
    requires id in l.place
  {
    l.place[id] in l.log && exists i :: 0 <= i < |l.log[l.place[id]]| && l.log[l.place[id]][i].id == id
  }

  /** validate_one without the replay: complete operations and contiguous generations. */
  ghost predicate ShapeOk(l: Ledger, rep: Id) {
    && rep in l.rows
    && (forall opId {:trigger OpComplete(l, opId)} :: opId in l.ops && l.ops[opId].rep == rep ==> OpComplete(l, opId))
    && (forall key {:trigger GenerationOk(l, key)} :: key in l.log && key.0 == rep ==> GenerationOk(l, key))
    && Events(l, (rep, l.rows[rep].generation)) != []
  }

  // ----- appending -----

  lemma {:induction false} ReplayAppend(events: seq<Event>, e: Event)
    ensures ReplayOf(events + [e]) == ReplayStep(ReplayOf(events), |events|, e)
  {
    assert (events + [e])[..|events|] == events;
  }

  lemma {:induction false} CountAppend(x: seq<Event>, y: seq<Event>, opId: Id, sanctions: bool)
    ensures CountOf(x + y, opId, sanctions) == CountOf(x, opId, sanctions) + CountOf(y, opId, sanctions)
  {
    if y == [] {
      assert x + y == x;
    } else {
      var n := |y| - 1;
      assert (x + y)[..|x| + n] == x + y[..n];
      CountAppend(x, y[..n], opId, sanctions);
    }
  }

  lemma {:induction false} CountNone(events: seq<Event>, opId: Id, sanctions: bool)
    requires forall i :: 0 <= i < |events| ==> events[i].operationId != opId
    ensures CountOf(events, opId, sanctions) == 0
  {
    if events != [] {
      CountNone(events[..|events| - 1], opId, sanctions);
    }
  }

  lemma {:induction false} Placed(place: map<Id, Key>, events: seq<Event>, key: Key, id: Id)
    ensures var after := PlaceAll(place, events, key);
      if exists i :: 0 <= i < |events| && events[i].id == id
      then id in after && after[id] == key
      else (id in after <==> id in place) && (id in place ==> after[id] == place[id])
  {
    if events != [] {
      var n := |events| - 1;
      Placed(place, events[..n], key, id);
      if i :| 0 <= i < |events| && events[i].id == id {
        if i < n { assert events[..n][i].id == id; }
      }
    }
  }

  /** A well-formed transaction: a new operation whose new events continue one generation. */
  ghost predicate Continues(l: Ledger, opId: Id, op: Operation, row: Row, events: seq<Event>) {
    var past := Events(l, (op.rep, op.generation));
    && opId !in l.ops
    && (forall i :: 0 <= i < |events| ==> NewEvent(l, opId, op, events[i]) && events[i].sequenceNo == |past| + i + 1)
    && (forall i, j :: 0 <= i < j < |events| ==> events[i].id != events[j].id)
    && CountOf(events, opId, true) == op.expectedSanction && CountOf(events, opId, false) == op.expectedStatus
    && op.generation <= row.generation
    && (op.rep in l.rows ==> l.rows[op.rep].generation <= row.generation)
    && (if row.generation == op.generation then past + events != [] else Events(l, (op.rep, row.generation)) != [])
  }

  ghost predicate NewEvent(l: Ledger, opId: Id, op: Operation, e: Event) {
    e.id !in l.place && e.operationId == opId && e.actor == op.actor && e.reason == op.reason
  }

  lemma {:induction false} RecordKeepsTables(l: Ledger, opId: Id, op: Operation, row: Row, events: seq<Event>)
    requires TablesOk(l) && Continues(l, opId, op, row, events)
    ensures TablesOk(Record(l, opId, op, row, events))
  {
    var after, key := Record(l, opId, op, row, events), (op.rep, op.generation);
    var past := Events(l, key);
    forall k | k in after.log ensures EventsOk(after, k) {
      RecordKeepsEvents(l, opId, op, row, events, k);
    }
    forall id | id in after.place ensures HasEvent(after, id) {
      Placed(l.place, events, key, id);
      if i :| 0 <= i < |events| && events[i].id == id {
        assert after.log[key][|past| + i].id == id;
      } else {
        assert HasEvent(l, id);
        var i :| 0 <= i < |l.log[l.place[id]]| && l.log[l.place[id]][i].id == id;
        assert after.log[after.place[id]][i].id == id;
      }
    }
    forall id | id in after.bans ensures id in after.place {
      Placed(l.place, events, key, id);
    }
  }

  lemma {:induction false} RecordKeepsEvents(l: Ledger, opId: Id, op: Operation, row: Row, events: seq<Event>, k: Key)
    requires TablesOk(l) && Continues(l, opId, op, row, events)
    requires k in Record(l, opId, op, row, events).log
    ensures EventsOk(Record(l, opId, op, row, events), k)
  {
    var after, key := Record(l, opId, op, row, events), (op.rep, op.generation);
    var past := Events(l, key);
    if k in l.log { assert EventsOk(l, k); }
    forall i | 0 <= i < |after.log[k]|
      ensures after.log[k][i].id in after.place && after.place[after.log[k][i].id] == k
    {
      var id := after.log[k][i].id;
      Placed(l.place, events, key, id);
      if k == key && events != [] && i >= |past| {
        assert events[i - |past|].id == id;
      } else {
        assert id in l.place;
        assert forall j :: 0 <= j < |events| ==> NewEvent(l, opId, op, events[j]);
      }
    }
    forall i, j | 0 <= i < j < |after.log[k]| ensures after.log[k][i].id != after.log[k][j].id {
      if k == key && events != [] && j >= |past| {
        assert NewEvent(l, opId, op, events[j - |past|]);
        if i < |past| { assert past[i].id in l.place; }
      }
    }
  }

  /** The transaction leaves every other generation alone. */
  lemma {:induction false} OtherEvents(l: Ledger, opId: Id, op: Operation, row: Row, events: seq<Event>, key: Key)
    ensures Events(Record(l, opId, op, row, events), key)
            == Events(l, key) + if key == (op.rep, op.generation) then events else []
  {
    assert Events(l, key) + [] == Events(l, key);
  }

  lemma {:induction false} RecordGeneration(
    l: Ledger, opId: Id, op: Operation, row: Row, events: seq<Event>, key: Key)
    requires Continues(l, opId, op, row, events)
    requires key in Record(l, opId, op, row, events).log && key.0 in Record(l, opId, op, row, events).rows
    requires key in l.log ==> key.0 in l.rows && GenerationOk(l, key)
    ensures GenerationOk(Record(l, opId, op, row, events), key)
  {
    var after := Record(l, opId, op, row, events);
    var past := Events(l, key);
    OtherEvents(l, opId, op, row, events, key);
    forall i | 0 <= i < |after.log[key]| ensures OpAgrees(after, key, after.log[key][i]) {
      if i < |past| {
        assert OpAgrees(l, key, past[i]);
      } else {
        assert NewEvent(l, opId, op, events[i - |past|]);
      }
    }
    assert Contiguous(after.log[key]);
  }

  lemma {:induction false} RecordCompletes(
    l: Ledger, opId: Id, op: Operation, row: Row, events: seq<Event>, some: Id)
    requires Continues(l, opId, op, row, events)
    requires forall key :: key in l.log && key.0 == op.rep ==> key.0 in l.rows && GenerationOk(l, key)
    requires some == opId || (some in l.ops && OpComplete(l, some))
    ensures OpComplete(Record(l, opId, op, row, events), some)
  {
    var after := Record(l, opId, op, row, events);
    var its := after.ops[some];
    var key := (its.rep, its.generation);
    var past := Events(l, key);
    OtherEvents(l, opId, op, row, events, key);
    assert forall i :: 0 <= i < |events| ==> NewEvent(l, opId, op, events[i]);
    CountAppend(past, events, some, true);
    CountAppend(past, events, some, false);
    if some == opId {
      forall i | 0 <= i < |past| ensures past[i].operationId != opId {
        assert OpAgrees(l, key, past[i]);
      }
      CountNone(past, opId, true);
      CountNone(past, opId, false);
    } else {
      CountNone(events, some, true);
      CountNone(events, some, false);
    }
  }

  /** A well-formed transaction keeps the shape of every reputation. */
  lemma {:induction false} RecordKeepsShape(
    l: Ledger, opId: Id, op: Operation, row: Row, events: seq<Event>, rep: Id)
    requires TablesOk(l) && Continues(l, opId, op, row, events)
    requires op.rep in l.rows ==> ShapeOk(l, op.rep)
    requires rep == op.rep || ShapeOk(l, rep)
    ensures ShapeOk(Record(l, opId, op, row, events), rep)
  {
    var after := Record(l, opId, op, row, events);
    forall key | key in l.log && key.0 == op.rep ensures key.0 in l.rows && GenerationOk(l, key) {
      assert EventsOk(l, key);
    }
    forall some | some in after.ops && after.ops[some].rep == rep ensures OpComplete(after, some) {
      RecordCompletes(l, opId, op, row, events, some);
    }
    forall key | key in after.log && key.0 == rep ensures GenerationOk(after, key) {
      if key in l.log { assert EventsOk(l, key); }
      RecordGeneration(l, opId, op, row, events, key);
    }
    OtherEvents(l, opId, op, row, events, (rep, after.rows[rep].generation));
  }

  // ----- the invariant -----

  /** No two rows are for one phone, whatever keys they were written under. */
  ghost predicate OneRowPerPhone(l: Ledger) {
    forall a, b :: a in l.rows && b in l.rows && l.rows[a].phone == l.rows[b].phone ==> a == b
  }

  predicate IsUnblock(e: Event) {
    e.detail.Change? && e.detail.change.PhoneUnblocked?
  }

  /** Three live bans block the phone unless someone unblocked it in this generation. */
  ghost predicate Threshold(l: Ledger, rep: Id)
    requires rep in l.rows
  {
    var events := Events(l, (rep, l.rows[rep].generation));
    (forall i :: 0 <= i < |events| ==> !IsUnblock(events[i])) && l.rows[rep].count >= 3
    ==> l.rows[rep].status == Blocked
  }

  /** Every reputation is one that validate_one accepts. */
  ghost predicate Accepted(l: Ledger) {
    TablesOk(l) && forall rep {:trigger Accepts(l, rep)} :: rep in l.rows ==> Accepts(l, rep)
  }

  ghost predicate Thresholds(l: Ledger) {
    forall rep {:trigger Threshold(l, rep)} :: rep in l.rows ==> Threshold(l, rep)
  }

  ghost predicate Sound(l: Ledger) {
    Accepted(l) && OneRowPerPhone(l) && Thresholds(l)
  }

  /** Acceptance is kept by itself; unique rows and the threshold are kept where they hold. */
  ghost predicate Carries(l: Ledger, after: Ledger) {
    && Accepted(after)
    && (OneRowPerPhone(l) ==> OneRowPerPhone(after))
    && (Thresholds(l) ==> Thresholds(after))
  }

  /** What a transaction must do to the projection: follow the replay of the generation it ends in. */
  ghost predicate Follows(l: Ledger, op: Operation, row: Row, events: seq<Event>) {
    var key, current := (op.rep, op.generation), (op.rep, row.generation);
    && ReplayOf(Events(l, key) + events).Replayed?
    && Matches(row, ReplayOf(if current == key then Events(l, key) + events else Events(l, current)))
  }

  lemma {:induction false} RecordReplays(
    l: Ledger, opId: Id, op: Operation, row: Row, events: seq<Event>, key: Key)
    requires Follows(l, op, row, events) && key in Record(l, opId, op, row, events).log
    requires key in l.log && key != (op.rep, op.generation) ==> ReplayOf(l.log[key]).Replayed?
    ensures ReplayOf(Record(l, opId, op, row, events).log[key]).Replayed?
  {
    OtherEvents(l, opId, op, row, events, key);
    assert Events(l, key) + [] == Events(l, key);
    assert Record(l, opId, op, row, events).log[key] == Events(Record(l, opId, op, row, events), key);
  }

  lemma {:induction false} RecordMatches(l: Ledger, opId: Id, op: Operation, row: Row, events: seq<Event>, rep: Id)
    requires Follows(l, op, row, events)
    requires rep == op.rep
             || (rep in l.rows && Matches(l.rows[rep], ReplayOf(Events(l, (rep, l.rows[rep].generation)))))
    ensures var after := Record(l, opId, op, row, events);
            Matches(after.rows[rep], ReplayOf(Events(after, (rep, after.rows[rep].generation))))
  {
    var current := (rep, if rep == op.rep then row.generation else l.rows[rep].generation);
    OtherEvents(l, opId, op, row, events, current);
    assert Events(l, current) + [] == Events(l, current);
  }

  lemma {:induction false} AcceptsFromParts(l: Ledger, rep: Id)
    requires ShapeOk(l, rep)
    requires forall key {:trigger ReplayOf(l.log[key])} :: key in l.log && key.0 == rep ==>
        ReplayOf(l.log[key]).Replayed?
    requires Matches(l.rows[rep], ReplayOf(Events(l, (rep, l.rows[rep].generation))))
    ensures Accepts(l, rep)
  {
  }

  lemma {:induction false} RecordAccepts(l: Ledger, opId: Id, op: Operation, row: Row, events: seq<Event>, rep: Id)
    requires TablesOk(l) && Continues(l, opId, op, row, events) && Follows(l, op, row, events)
    requires op.rep in l.rows ==> Accepts(l, op.rep)
    requires rep == op.rep || Accepts(l, rep)
    ensures Accepts(Record(l, opId, op, row, events), rep)
  {
    var after := Record(l, opId, op, row, events);
    RecordKeepsShape(l, opId, op, row, events, rep);
    forall key | key in after.log && key.0 == rep ensures ReplayOf(after.log[key]).Replayed? {
      if key in l.log { assert EventsOk(l, key); }
      RecordReplays(l, opId, op, row, events, key);
    }
    RecordMatches(l, opId, op, row, events, rep);
    AcceptsFromParts(after, rep);
  }

  lemma {:induction false} RecordThreshold(l: Ledger, opId: Id, op: Operation, row: Row, events: seq<Event>, rep: Id)
    requires rep in l.rows && rep != op.rep && Threshold(l, rep)
    ensures Threshold(Record(l, opId, op, row, events), rep)
  {
    OtherEvents(l, opId, op, row, events, (rep, l.rows[rep].generation));
    assert Events(l, (rep, l.rows[rep].generation)) + [] == Events(l, (rep, l.rows[rep].generation));
  }

  ghost predicate PhoneStays(l: Ledger, op: Operation, row: Row) {
    if op.rep in l.rows then row.phone == l.rows[op.rep].phone
    else forall rep :: rep in l.rows ==> l.rows[rep].phone != row.phone
  }

  lemma {:induction false} RecordKeepsPhones(l: Ledger, opId: Id, op: Operation, row: Row, events: seq<Event>)
    requires OneRowPerPhone(l) && PhoneStays(l, op, row)
    ensures OneRowPerPhone(Record(l, opId, op, row, events))
  {
  }

  /** A well-formed transaction that follows the replay keeps what it finds. */
  lemma {:induction false} RecordCarries(l: Ledger, opId: Id, op: Operation, row: Row, events: seq<Event>)
    requires Accepted(l) && Continues(l, opId, op, row, events) && Follows(l, op, row, events)
    requires PhoneStays(l, op, row) && (Thresholds(l) ==> Threshold(Record(l, opId, op, row, events), op.rep))
    ensures Carries(l, Record(l, opId, op, row, events))
  {
    var after := Record(l, opId, op, row, events);
    RecordKeepsTables(l, opId, op, row, events);
    if OneRowPerPhone(l) {
      RecordKeepsPhones(l, opId, op, row, events);
    }
    forall rep | rep in after.rows ensures Accepts(after, rep) {
      RecordAccepts(l, opId, op, row, events, rep);
    }
    if Thresholds(l) {
      forall rep | rep in after.rows ensures Threshold(after, rep) {
        if rep != op.rep {
          RecordThreshold(l, opId, op, row, events, rep);
        }
      }
    }
  }

  // ----- facts about an accepted reputation -----

  lemma {:induction false} FoundAtMostOne(l: Ledger, ring: Keyring, phone: string, rep: Id)
    requires OneRowPerPhone(l) && rep in Found(l, ring, phone)
    ensures Found(l, ring, phone) == {rep} && TheOne(Found(l, ring, phone)) == rep
  {
    var found := Found(l, ring, phone);
    assert found == {rep};
    assert TheOne(found) in found;
  }

  /** The process finds a row for the phone whose encryption key it does not hold. */
  ghost predicate FindsWithoutKey(l: Ledger, ring: Keyring, phone: string) {
    exists rep :: rep in Found(l, ring, phone) && l.rows[rep].encryptionKeyId !in ring.encryption
  }

  /** A process finds two rows for a phone, or one that it cannot decrypt. */
  ghost predicate Obstructed(l: Ledger, ring: Keyring, phone: string) {
    |Found(l, ring, phone)| > 1 || FindsWithoutKey(l, ring, phone)
  }

  /** With unique rows, only a missing encryption key obstructs. */
  lemma {:induction false} OnlyTheKeyObstructs(l: Ledger, ring: Keyring, phone: string)
    requires OneRowPerPhone(l)
    ensures Obstructed(l, ring, phone) <==> FindsWithoutKey(l, ring, phone)
  {
    if rep :| rep in Found(l, ring, phone) {
      FoundAtMostOne(l, ring, phone, rep);
    }
  }

  /** Where every reputation is accepted, a lookup fails exactly when it is obstructed, and else tells the truth. */
  lemma {:induction false} LookupIsSafe(l: Ledger, ring: Keyring, phone: string)
    requires Accepted(l)
    ensures FindByPhone(l, ring, phone).Err? <==> Obstructed(l, ring, phone)
    ensures match FindByPhone(l, ring, phone)
            case Err(e) => e == IntegrityError
            case Ok(Some(rep)) =>
              rep in l.rows && l.rows[rep].phone == phone && DecryptError(ring, l.rows[rep]).None?
            case Ok(None) => forall rep :: rep in l.rows && l.rows[rep].keyId in ring.lookup ==>
                l.rows[rep].phone != phone
  {
    var found := Found(l, ring, phone);
    if found == {} {
      forall rep | rep in l.rows && l.rows[rep].keyId in ring.lookup ensures l.rows[rep].phone != phone {
        assert rep !in found;
      }
    } else if |found| == 1 {
      var rep := TheOne(found);
      assert rep in found && Accepts(l, rep);
      assert forall other :: other in found ==> other == rep;
    } else {
      var rep :| rep in found;
      assert |found| > 1;
    }
  }

  /** What is needed of an accepted reputation: its current generation is a contiguous, matching history. */
  ghost predicate Current(l: Ledger, rep: Id) {
    && rep in l.rows
    && var events := Events(l, (rep, l.rows[rep].generation));
       events != [] && Contiguous(events) && Matches(l.rows[rep], ReplayOf(events))
  }

  lemma {:induction false} AcceptedIsCurrent(l: Ledger, rep: Id)
    requires Accepts(l, rep)
    ensures Current(l, rep)
  {
    assert GenerationOk(l, (rep, l.rows[rep].generation));
  }

  lemma {:induction false} CountOne(e: Event, opId: Id, sanctions: bool)
    ensures CountOf([e], opId, sanctions) == if e.operationId == opId && e.detail.Sanction? == sanctions then 1 else 0
  {
    assert [e][..0] == [];
  }

  lemma {:induction false} CountTwo(e: Event, f: Event, opId: Id, sanctions: bool)
    ensures CountOf([e, f], opId, sanctions) == CountOf([e], opId, sanctions) + CountOf([f], opId, sanctions)
  {
    assert [e, f] == [e] + [f];
    CountAppend([e], [f], opId, sanctions);
  }

  lemma {:induction false} ReplayTwo(events: seq<Event>, e: Event, f: Event)
    ensures ReplayOf(events + [e, f]) == ReplayStep(ReplayStep(ReplayOf(events), |events|, e), |events| + 1, f)
  {
    assert events + [e, f] == (events + [e]) + [f];
    ReplayAppend(events, e);
    ReplayAppend(events + [e], f);
  }

  /** The threshold survives when the new events hold no unblock and a full count means blocked. */
  lemma {:induction false} ThresholdStep(l: Ledger, rep: Id, opId: Id, op: Operation, row: Row, events: seq<Event>)
    requires rep in l.rows && op.rep == rep && Threshold(l, rep)
    requires op.generation == row.generation == l.rows[rep].generation
    requires (exists i :: 0 <= i < |events| && IsUnblock(events[i])) || row.count < 3 || row.status == Blocked
             || (row.status == l.rows[rep].status && row.count <= l.rows[rep].count)
    ensures Threshold(Record(l, opId, op, row, events), rep)
  {
    var past := Events(l, (rep, row.generation));
    OtherEvents(l, opId, op, row, events, (rep, row.generation));
    if forall i :: 0 <= i < |past + events| ==> !IsUnblock((past + events)[i]) {
      forall i | 0 <= i < |past| ensures !IsUnblock(past[i]) {
        assert (past + events)[i] == past[i];
      }
      forall i | 0 <= i < |events| ensures !IsUnblock(events[i]) {
        assert (past + events)[|past| + i] == events[i];
      }
    }
  }

  lemma {:induction false} OneContinues(l: Ledger, opId: Id, op: Operation, row: Row, e: Event)
    requires opId !in l.ops && NewEvent(l, opId, op, e)
    requires e.sequenceNo == |Events(l, (op.rep, op.generation))| + 1
    requires op.expectedSanction == (if e.detail.Sanction? then 1 else 0)
    requires op.expectedStatus == (if e.detail.Sanction? then 0 else 1)
    requires op.generation <= row.generation && (op.rep in l.rows ==> l.rows[op.rep].generation <= row.generation)
    requires op.generation == row.generation || Events(l, (op.rep, row.generation)) != []
    ensures Continues(l, opId, op, row, [e])
  {
    CountOne(e, opId, true);
    CountOne(e, opId, false);
  }

  lemma {:induction false} TwoContinue(l: Ledger, opId: Id, op: Operation, row: Row, e: Event, f: Event)
    requires opId !in l.ops && NewEvent(l, opId, op, e) && NewEvent(l, opId, op, f) && e.id != f.id
    requires e.sequenceNo == |Events(l, (op.rep, op.generation))| + 1 && f.sequenceNo == e.sequenceNo + 1
    requires e.detail.Sanction? != f.detail.Sanction? && op.expectedSanction == 1 && op.expectedStatus == 1
    requires op.generation == row.generation && (op.rep in l.rows ==> l.rows[op.rep].generation <= row.generation)
    ensures Continues(l, opId, op, row, [e, f])
  {
    CountTwo(e, f, opId, true);
    CountTwo(e, f, opId, false);
    CountOne(e, opId, true);
    CountOne(e, opId, false);
    CountOne(f, opId, true);
    CountOne(f, opId, false);
  }

  /** A no-op request is recorded without events. */
  lemma {:induction false} NoEventCarries(l: Ledger, rep: Id, opId: Id, op: Operation)
    requires Accepted(l) && rep in l.rows && opId !in l.ops && op.rep == rep
    requires op.generation == l.rows[rep].generation && op.expectedSanction == 0 && op.expectedStatus == 0
    ensures Carries(l, Record(l, opId, op, l.rows[rep], []))
  {
    var past := Events(l, (rep, op.generation));
    AcceptedIsCurrent(l, rep);
    assert past + [] == past;
    assert Continues(l, opId, op, l.rows[rep], []);
    if Thresholds(l) {
      ThresholdStep(l, rep, opId, op, l.rows[rep], []);
    }
    RecordCarries(l, opId, op, l.rows[rep], []);
  }

  /** One status event in the current generation. */
  lemma {:induction false} ChangeCarries(l: Ledger, rep: Id, call: Call, op: Operation, id: Id, change: StatusDetail)
    requires Accepted(l) && rep in l.rows && call.opId !in l.ops && id !in l.place
    requires op == OpOf(rep, l.rows[rep].generation, op.kind, call, op.fingerprint, 0, 1)
    requires change.From() == Some(l.rows[rep].status)
    ensures Carries(l, Record(l, call.opId, op, Changed(l.rows[rep], change, call.now),
                              [EventOf(id, NextSequence(Events(l, (rep, l.rows[rep].generation))), call,
                                       Change(change))]))
  {
    var row, key := Changed(l.rows[rep], change, call.now), (rep, l.rows[rep].generation);
    var e := EventOf(id, NextSequence(Events(l, key)), call, Change(change));
    AcceptedIsCurrent(l, rep);
    OneContinues(l, call.opId, op, row, e);
    ReplayAppend(Events(l, key), e);
    assert change.PhoneUnblocked? ==> IsUnblock([e][0]);
    if Thresholds(l) {
      ThresholdStep(l, rep, call.opId, op, row, [e]);
    }
    RecordCarries(l, call.opId, op, row, [e]);
  }

  function Changed(row: Row, change: StatusDetail, now: int): Row {
    row.(status := change.To(), blockedAt := if change.To() == Blocked then Some(now) else None)
  }

  // ----- administrative block and unblock -----

  /**
   * An operation raises the integrity error exactly when it is obstructed, and when it succeeds it keeps
   * the ledger.
   */
  ghost predicate Keeps(l: Ledger, r: Result<Ledger>, obstructed: bool) {
    && (r == Err(IntegrityError) <==> obstructed)
    && (r.Ok? ==> Carries(l, r.value))
  }

  lemma {:induction false} ReloadIsSafe(l: Ledger, ring: Keyring, rep: Id)
    requires Accepted(l) && rep in l.rows
    ensures Reload(l, ring, rep) ==
            if DecryptError(ring, l.rows[rep]).Some? then Err(DecryptError(ring, l.rows[rep]).value) else Ok(l)
  {
  }

  lemma {:induction false} CarriesItself(l: Ledger)
    requires Accepted(l)
    ensures Carries(l, l)
  {
  }

  /** The first step of every operation on a phone. */
  lemma {:induction false} RequireIsSafe(l: Ledger, ring: Keyring, phone: string)
    requires Accepted(l)
    ensures RequireRow(l, ring, phone) == Err(IntegrityError) <==> Obstructed(l, ring, phone)
    ensures match RequireRow(l, ring, phone)
            case Ok(rep) => rep in l.rows && l.rows[rep].phone == phone && DecryptError(ring, l.rows[rep]).None?
            case Err(e) => e == AccountNotFoundError || e == IntegrityError
  {
    LookupIsSafe(l, ring, phone);
  }

  lemma {:induction false} BlockStep(l: Ledger, ring: Keyring, rep: Id, call: Call, event: Id)
    requires Accepted(l) && rep in l.rows && DecryptError(ring, l.rows[rep]).None?
    requires call.opId !in l.ops && event !in l.place
    ensures Keeps(l, BlockRow(l, ring, rep, call, event), false)
    ensures BlockRow(l, ring, rep, call, event).Ok? <==> ValidReason(call.reason)
  {
    hide Accepts, ValidReason;
    var row, fingerprint := l.rows[rep], [rep, "administrative_block", call.reason];
    if row.status == Blocked {
      NoEventCarries(l, rep, call.opId, OpOf(rep, row.generation, AdministrativeBlock, call, fingerprint, 0, 0));
    } else {
      var op := OpOf(rep, row.generation, AdministrativeBlock, call, fingerprint, 0, 1);
      var next := NextSequence(Events(l, (rep, row.generation)));
      ChangeCarries(l, rep, call, op, event, PhoneBlocked(None));
      ReloadIsSafe(Record(l, call.opId, op, Changed(row, PhoneBlocked(None), call.now),
                          [EventOf(event, next, call, Change(PhoneBlocked(None)))]), ring, rep);
    }
  }

  lemma {:induction false} BlockKeeps(l: Ledger, ring: Keyring, phone: string, call: Call, event: Id)
    requires Accepted(l) && event !in l.place
    ensures Keeps(l, Block(l, ring, phone, call, event), Obstructed(l, ring, phone))
  {
    hide Accepts, Obstructed;
    RequireIsSafe(l, ring, phone);
    CarriesItself(l);
    if RequireRow(l, ring, phone).Ok? {
      var rep := RequireRow(l, ring, phone).value;
      if call.opId in l.ops {
        ReloadIsSafe(l, ring, rep);
      } else {
        BlockStep(l, ring, rep, call, event);
      }
    }
  }

  lemma {:induction false} UnblockStep(l: Ledger, ring: Keyring, rep: Id, call: Call, event: Id)
    requires Accepted(l) && rep in l.rows && DecryptError(ring, l.rows[rep]).None?
    requires call.opId !in l.ops && event !in l.place
    ensures Keeps(l, UnblockRow(l, ring, rep, call, event), false)
    ensures UnblockRow(l, ring, rep, call, event).Ok? <==> ValidReason(call.reason)
  {
    hide Accepts, ValidReason;
    var row, fingerprint := l.rows[rep], [rep, "administrative_unblock", call.reason];
    if row.status == Normal {
      var op := OpOf(rep, row.generation, AdministrativeUnblock, call, fingerprint, 0, 0);
      NoEventCarries(l, rep, call.opId, op);
      ReloadIsSafe(Record(l, call.opId, op, row, []), ring, rep);
    } else {
      var op := OpOf(rep, row.generation, AdministrativeUnblock, call, fingerprint, 0, 1);
      var next := NextSequence(Events(l, (rep, row.generation)));
      ChangeCarries(l, rep, call, op, event, PhoneUnblocked(None));
      ReloadIsSafe(Record(l, call.opId, op, Changed(row, PhoneUnblocked(None), call.now),
                          [EventOf(event, next, call, Change(PhoneUnblocked(None)))]), ring, rep);
    }
  }

  lemma {:induction false} UnblockKeeps(l: Ledger, ring: Keyring, phone: string, call: Call, event: Id)
    requires Accepted(l) && event !in l.place
    ensures Keeps(l, Unblock(l, ring, phone, call, event), Obstructed(l, ring, phone))
  {
    hide Accepts, Obstructed;
    RequireIsSafe(l, ring, phone);
    CarriesItself(l);
    if RequireRow(l, ring, phone).Ok? {
      var rep := RequireRow(l, ring, phone).value;
      if call.opId in l.ops {
        ReloadIsSafe(l, ring, rep);
      } else {
        UnblockStep(l, ring, rep, call, event);
      }
    }
  }

  // ----- first registration and reassignment: a new, empty generation -----

  lemma {:induction false} EmptyGenerationReplays(first: Event, second: Event)
    requires first.detail == Change(StatusStarted) && second.detail == Sanction(SanctionStarted)
    ensures ReplayOf([first, second]) == START
  {
    assert [first, second][..1] == [first] && [first][..0] == [];
    assert ReplayOf([first]) == ReplayStep(START, 0, first);
  }

  /** Starting a generation that no event belongs to yet. */
  lemma {:induction false} StartCarries(l: Ledger, call: Call, op: Operation, row: Row, ids: (Id, Id))
    requires Accepted(l) && call.opId !in l.ops && ids.0 !in l.place && ids.1 !in l.place && ids.0 != ids.1
    requires op == OpOf(op.rep, op.generation, op.kind, call, op.fingerprint, 1, 1) && op.generation == row.generation
    requires (op.rep, op.generation) !in l.log && (op.rep in l.rows ==> l.rows[op.rep].generation <= op.generation)
    requires PhoneStays(l, op, row)
    requires row.count == 0 && row.status == Normal && row.blockedAt == None && row.lastBanAt == None
    ensures Carries(l, Record(l, call.opId, op, row, [EventOf(ids.0, 1, call, Change(StatusStarted)),
                                                      EventOf(ids.1, 2, call, Sanction(SanctionStarted))]))
  {
    var first := EventOf(ids.0, 1, call, Change(StatusStarted));
    var second := EventOf(ids.1, 2, call, Sanction(SanctionStarted));
    var none := Events(l, (op.rep, op.generation));
    TwoContinue(l, call.opId, op, row, first, second);
    EmptyGenerationReplays(first, second);
    assert none + [first, second] == [first, second];
    RecordCarries(l, call.opId, op, row, [first, second]);
  }

  lemma {:induction false} NoRowNoEvents(l: Ledger, rep: Id, generation: nat)
    requires TablesOk(l) && (rep !in l.rows || (Accepts(l, rep) && l.rows[rep].generation < generation))
    ensures (rep, generation) !in l.log
  {
    var key := (rep, generation);
    if rep in l.rows {
      assert key in l.log ==> GenerationOk(l, key);
    } else {
      assert key in l.log ==> EventsOk(l, key);
    }
  }

  /** _assert_keyrings_cover_database */
  ghost predicate Covers(ring: Keyring, l: Ledger) {
    forall rep :: rep in l.rows ==> l.rows[rep].keyId in ring.lookup && l.rows[rep].encryptionKeyId in ring.encryption
  }

  /**
   * A first registration leaves a row for the phone; it fails exactly when the phone is obstructed, or is not found
   * by a process that lacks a key of some row.
   */
  lemma {:induction false} EnsureKeeps(l: Ledger, ring: Keyring, phone: string, now: int, ids: (Id, Id, Id, Id))
    requires Accepted(l) && RingOk(ring)
    requires ids.0 !in l.rows && ids.1 !in l.ops && ids.2 !in l.place && ids.3 !in l.place && ids.2 != ids.3
    ensures var r := EnsurePhone(l, ring, phone, now, ids);
            && Keeps(l, r, Obstructed(l, ring, phone) || (Found(l, ring, phone) == {} && !Covers(ring, l)))
            && (r.Err? ==> r.error == IntegrityError)
            && (r.Ok? ==> exists rep :: rep in r.value.rows && r.value.rows[rep].phone == phone)
  {
    hide Accepts;
    LookupIsSafe(l, ring, phone);
    CarriesItself(l);
    var r := EnsurePhone(l, ring, phone, now, ids);
    if FindByPhone(l, ring, phone) == Ok(None) && r.Ok? {
      var call := Call(ids.1, Actor("system", "cueflow-auth"), "first_registration", now);
      var op := OpOf(ids.0, 1, GenerationStarted, call, [ids.0, "1", "generation_started"], 1, 1);
      var row := Row(ring.activeLookup, phone, ring.activeEncryption, 1, 0, Normal, None, None);
      NoRowNoEvents(l, ids.0, 1);
      StartCarries(l, call, op, row, (ids.2, ids.3));
      assert r.value.rows[ids.0].phone == phone;
    }
  }

  lemma {:induction false} ResetStep(l: Ledger, ring: Keyring, rep: Id, call: Call, ids: (Id, Id))
    requires Accepted(l) && rep in l.rows && DecryptError(ring, l.rows[rep]).None?
    requires call.opId !in l.ops && ids.0 !in l.place && ids.1 !in l.place && ids.0 != ids.1
    ensures Keeps(l, ResetRow(l, ring, rep, call, ids), false)
    ensures ResetRow(l, ring, rep, call, ids).Ok? <==> ValidReason(call.reason)
  {
    hide Accepts, ValidReason;
    var row, generation := l.rows[rep], l.rows[rep].generation + 1;
    var op := OpOf(rep, generation, PhoneReassignment, call, [rep, "phone_reassignment", call.reason], 1, 1);
    var row' := row.(generation := generation, count := 0, status := Normal, blockedAt := None, lastBanAt := None);
    NoRowNoEvents(l, rep, generation);
    StartCarries(l, call, op, row', ids);
    ReloadIsSafe(Record(l, call.opId, op, row', [EventOf(ids.0, 1, call, Change(StatusStarted)),
                                                 EventOf(ids.1, 2, call, Sanction(SanctionStarted))]), ring, rep);
  }

  predicate HasOwner(l: Ledger, phone: string) {
    exists user :: user in l.phones && l.phones[user] == phone
  }

  lemma {:induction false} ResetKeeps(l: Ledger, ring: Keyring, phone: string, call: Call, ids: (Id, Id))
    requires Accepted(l) && ids.0 !in l.place && ids.1 !in l.place && ids.0 != ids.1
    ensures Keeps(l, Reset(l, ring, phone, call, ids), !HasOwner(l, phone) && Obstructed(l, ring, phone))
  {
    hide Accepts, Obstructed;
    RequireIsSafe(l, ring, phone);
    CarriesItself(l);
    if RequireRow(l, ring, phone).Ok? {
      var rep := RequireRow(l, ring, phone).value;
      if call.opId in l.ops {
        ReloadIsSafe(l, ring, rep);
      } else {
        ResetStep(l, ring, rep, call, ids);
      }
    }
  }

  // ----- qualifying bans -----

  /** The tables of the accounts replaced. */
  function WithAccounts(l: Ledger, phones: map<Id, string>, bans: map<Id, Ban>, suspended: set<Id>): Ledger {
    l.(phones := phones, bans := bans, suspended := suspended)
  }

  /** validate_one does not read the tables of the accounts. */
  lemma {:induction false} AccountsUnread(
    l: Ledger, phones: map<Id, string>, bans: map<Id, Ban>, suspended: set<Id>, rep: Id)
    requires Accepts(l, rep)
    ensures Accepts(WithAccounts(l, phones, bans, suspended), rep)
  {
    var after := WithAccounts(l, phones, bans, suspended);
    forall opId | opId in after.ops && after.ops[opId].rep == rep ensures OpComplete(after, opId) {
      assert OpComplete(l, opId);
    }
    forall key | key in after.log && key.0 == rep ensures GenerationOk(after, key) {
      assert GenerationOk(l, key);
      forall i | 0 <= i < |l.log[key]| ensures OpAgrees(after, key, l.log[key][i]) {
        assert OpAgrees(l, key, l.log[key][i]);
      }
    }
    assert Events(after, (rep, l.rows[rep].generation)) == Events(l, (rep, l.rows[rep].generation));
  }

  lemma {:induction false} AccountsKeepTables(
    l: Ledger, phones: map<Id, string>, bans: map<Id, Ban>, suspended: set<Id>)
    requires TablesOk(l) && forall id :: id in bans ==> id in l.place
    ensures TablesOk(WithAccounts(l, phones, bans, suspended))
  {
    var after := WithAccounts(l, phones, bans, suspended);
    forall key | key in after.log ensures EventsOk(after, key) {
      assert EventsOk(l, key);
    }
    forall id | id in after.place ensures HasEvent(after, id) {
      assert HasEvent(l, id);
    }
  }

  lemma {:induction false} AccountsCarry(
    l: Ledger, phones: map<Id, string>, bans: map<Id, Ban>, suspended: set<Id>)
    requires Accepted(l) && forall id :: id in bans ==> id in l.place
    ensures Carries(l, WithAccounts(l, phones, bans, suspended))
  {
    var after := WithAccounts(l, phones, bans, suspended);
    AccountsKeepTables(l, phones, bans, suspended);
    forall rep | rep in after.rows ensures Accepts(after, rep) {
      AccountsUnread(l, phones, bans, suspended, rep);
    }
    if Thresholds(l) {
      forall rep | rep in after.rows ensures Threshold(after, rep) {
        assert Threshold(l, rep);
        assert Events(after, (rep, l.rows[rep].generation)) == Events(l, (rep, l.rows[rep].generation));
      }
    }
  }

  lemma {:induction false} BanCarries(l: Ledger, rep: Id, call: Call, op: Operation, ids: (Id, Id))
    requires Accepted(l) && rep in l.rows
    requires call.opId !in l.ops && ids.0 !in l.place && ids.1 !in l.place && ids.0 != ids.1
    requires op == OpOf(rep, l.rows[rep].generation, op.kind, call, op.fingerprint,
                        1, if BanBlocks(l.rows[rep]) then 1 else 0)
    ensures Carries(l, Record(l, call.opId, op, BannedRow(l.rows[rep], call.now),
                              BanEvents(NextSequence(Events(l, (rep, l.rows[rep].generation))), l.rows[rep],
                                        call, ids)))
  {
    var row := BannedRow(l.rows[rep], call.now);
    var past := Events(l, (rep, row.generation));
    var events := BanEvents(NextSequence(past), l.rows[rep], call, ids);
    AcceptedIsCurrent(l, rep);
    if BanBlocks(l.rows[rep]) {
      TwoContinue(l, call.opId, op, row, events[0], events[1]);
      ReplayTwo(past, events[0], events[1]);
      assert events == [events[0], events[1]];
    } else {
      OneContinues(l, call.opId, op, row, events[0]);
      ReplayAppend(past, events[0]);
    }
    if Thresholds(l) {
      ThresholdStep(l, rep, call.opId, op, row, events);
    }
    RecordCarries(l, call.opId, op, row, events);
  }

  /** The bridge row of a ban refers to one of the transaction's own events. */
  lemma {:induction false} BanRowCarries(
    l: Ledger, opId: Id, op: Operation, row: Row, events: seq<Event>, id: Id, ban: Ban, suspended: set<Id>)
    requires Carries(l, Record(l, opId, op, row, events)) && events != [] && events[0].id == id
    ensures Carries(l, Record(l, opId, op, row, events).(bans := l.bans[id := ban], suspended := suspended))
  {
    var mid, bans := Record(l, opId, op, row, events), l.bans[id := ban];
    forall other | other in bans ensures other in mid.place {
      if other == id {
        Placed(l.place, events, (op.rep, op.generation), id);
      }
    }
    AccountsCarry(mid, mid.phones, bans, suspended);
  }

  lemma {:induction false} BanStep(l: Ledger, ring: Keyring, rep: Id, user: Id, call: Call, ids: (Id, Id))
    requires Accepted(l) && rep in l.rows && DecryptError(ring, l.rows[rep]).None?
    requires call.opId !in l.ops && ids.0 !in l.place && ids.1 !in l.place && ids.0 != ids.1
    ensures Keeps(l, BanRow(l, ring, rep, user, call, ids), false)
    ensures BanRow(l, ring, rep, user, call, ids).Ok? <==> !LiveBan(l, user) && ValidReason(call.reason)
  {
    hide Accepts, Carries;
    CarriesAccepted();
    if !LiveBan(l, user) && ValidReason(call.reason) {
      var row, fingerprint := l.rows[rep], [user, rep, "qualifying_ban", call.reason];
      var events := BanEvents(NextSequence(Events(l, (rep, row.generation))), row, call, ids);
      var op := OpOf(rep, row.generation, QualifyingBan, call, fingerprint, 1, if BanBlocks(row) then 1 else 0);
      var mid := Record(l, call.opId, op, BannedRow(row, call.now), events);
      var ban, suspended := Ban(user, rep, false), l.suspended + {user};
      BanCarries(l, rep, call, op, ids);
      BanRowCarries(l, call.opId, op, BannedRow(row, call.now), events, ids.0, ban, suspended);
      ReloadIsSafe(mid.(bans := l.bans[ids.0 := ban], suspended := suspended), ring, rep);
    }
  }

  lemma {:induction false} CarriesAccepted()
    ensures forall l, after {:trigger Carries(l, after)} :: Carries(l, after) ==> Accepted(after)
  {
  }

  lemma {:induction false} ApplyBanKeeps(l: Ledger, ring: Keyring, user: Id, call: Call, ids: (Id, Id))
    requires Accepted(l) && ids.0 !in l.place && ids.1 !in l.place && ids.0 != ids.1
    ensures Keeps(l, ApplyBan(l, ring, user, call, ids), user in l.phones && Obstructed(l, ring, l.phones[user]))
  {
    hide Accepts, Obstructed;
    CarriesItself(l);
    if user in l.phones {
      RequireIsSafe(l, ring, l.phones[user]);
      if RequireRow(l, ring, l.phones[user]).Ok? {
        var rep := RequireRow(l, ring, l.phones[user]).value;
        if call.opId in l.ops {
          ReloadIsSafe(l, ring, rep);
        } else {
          BanStep(l, ring, rep, user, call, ids);
        }
      }
    }
  }

  // ----- what a replayed generation holds -----

  ghost predicate DistinctEvents(events: seq<Event>) {
    forall i, j :: 0 <= i < j < |events| ==> events[i].id != events[j].id
  }

  predicate IsBan(e: Event) {
    e.detail == Sanction(BanApplied)
  }

  predicate BannedIn(events: seq<Event>, id: Id) {
    exists i :: 0 <= i < |events| && events[i].id == id && IsBan(events[i])
  }

  lemma {:induction false} BannedAppend(past: seq<Event>, e: Event, id: Id)
    ensures BannedIn(past + [e], id) <==> BannedIn(past, id) || (e.id == id && IsBan(e))
  {
    if BannedIn(past, id) {
      var i :| 0 <= i < |past| && past[i].id == id && IsBan(past[i]);
      assert (past + [e])[i] == past[i];
    }
    assert (past + [e])[|past|] == e;
  }

  lemma {:induction false} OverturnedAppend(past: seq<Event>, e: Event, id: Id)
    ensures OverturnedIn(past + [e], id) <==> OverturnedIn(past, id) || e.detail == Sanction(BanOverturned(id))
  {
    if OverturnedIn(past, id) {
      var i :| 0 <= i < |past| && past[i].detail == Sanction(BanOverturned(id));
      assert (past + [e])[i] == past[i];
    }
    assert (past + [e])[|past|] == e;
  }

  lemma {:induction false} LastChangeAppend(past: seq<Event>, e: Event)
    ensures LastChange(past + [e]) == if e.detail.Change? then Some(e.detail.change) else LastChange(past)
  {
    assert (past + [e])[..|past|] == past;
  }

  /** What the replay of a generation says about its events. */
  ghost predicate Means(events: seq<Event>, r: Replay) {
    && r.Replayed?
    && r.overturned <= r.applied && r.count == |r.applied| - |r.overturned|
    && MeansBans(events, r)
    && r.status == (if LastChange(events).Some? then LastChange(events).value.To() else Normal)
  }

  ghost predicate MeansBans(events: seq<Event>, r: Replay)
    requires r.Replayed?
  {
    && (forall id :: id in r.applied <==> BannedIn(events, id))
    && (forall id :: id in r.overturned <==> OverturnedIn(events, id))
  }

  lemma {:induction false} MeansBansStep(past: seq<Event>, r: Replay, e: Event)
    requires r.Replayed? && MeansBans(past, r) && ReplayStep(r, |past|, e).Replayed?
    ensures MeansBans(past + [e], ReplayStep(r, |past|, e))
  {
    var next := ReplayStep(r, |past|, e);
    forall id ensures id in next.applied <==> BannedIn(past + [e], id) {
      BannedAppend(past, e, id);
    }
    forall id ensures id in next.overturned <==> OverturnedIn(past + [e], id) {
      OverturnedAppend(past, e, id);
    }
  }

  lemma {:induction false} CountStep(r: Replay, index: nat, e: Event)
    requires r.Replayed? && r.overturned <= r.applied && r.count == |r.applied| - |r.overturned|
    requires e.id !in r.applied && ReplayStep(r, index, e).Replayed?
    ensures var next := ReplayStep(r, index, e);
            next.overturned <= next.applied && next.count == |next.applied| - |next.overturned|
  {
  }

  lemma {:induction false} MeansStep(past: seq<Event>, r: Replay, e: Event)
    requires Means(past, r) && ReplayStep(r, |past|, e).Replayed?
    requires forall i :: 0 <= i < |past| ==> past[i].id != e.id
    ensures Means(past + [e], ReplayStep(r, |past|, e))
  {
    MeansBansStep(past, r, e);
    LastChangeAppend(past, e);
    assert !BannedIn(past, e.id);
    CountStep(r, |past|, e);
  }

  lemma {:induction false} NothingMeans()
    ensures Means([], START)
  {
  }

  /** A replay counts the bans that are applied and not overturned, and follows the last status change. */
  lemma {:induction false} ReplayMeans(events: seq<Event>)
    requires ReplayOf(events).Replayed? && DistinctEvents(events)
    ensures Means(events, ReplayOf(events))
    decreases |events|
  {
    hide Means;
    if events == [] {
      NothingMeans();
    } else {
      var n := |events| - 1;
      ReplayMeans(events[..n]);
      MeansStep(events[..n], ReplayOf(events[..n]), events[n]);
      assert events == events[..n] + [events[n]];
    }
  }

  lemma {:induction false} EventWithFound(events: seq<Event>, id: Id) returns (i: nat)
    requires EventWith(events, id).Some?
    ensures i < |events| && events[i].id == id && events[i] == EventWith(events, id).value
  {
    var n := |events| - 1;
    if events[n].id == id {
      i := n;
    } else {
      i := EventWithFound(events[..n], id);
    }
  }

  /** A ban blocks the phone when it leaves three or more live bans in the history of the generation. */
  lemma {:induction false} BanBlocksAtThree(l: Ledger, ring: Keyring, rep: Id, user: Id, call: Call, ids: (Id, Id))
    requires Accepted(l) && rep in l.rows && DecryptError(ring, l.rows[rep]).None?
    requires call.opId !in l.ops && ids.0 !in l.place && ids.1 !in l.place && ids.0 != ids.1
    requires BanRow(l, ring, rep, user, call, ids).Ok?
    ensures var after := BanRow(l, ring, rep, user, call, ids).value;
      var events := Events(after, (rep, after.rows[rep].generation));
      var r := ReplayOf(events);
      && r.Replayed? && ids.0 in r.applied && ids.0 !in r.overturned
      && (|r.applied - r.overturned| >= 3 ==> LastChange(events).Some? && LastChange(events).value.PhoneBlocked?)
  {
    hide BanRow, BanEvents, Accepts, Accepted, ReplayOf, OverturnedIn, BannedIn, MeansBans, DecryptError;
    var key := (rep, l.rows[rep].generation);
    var past, more := Events(l, key), BanEvents(NextSequence(Events(l, key)), l.rows[rep], call, ids);
    var after := BanRow(l, ring, rep, user, call, ids).value;
    BanTakesEffect(l, ring, rep, user, call, ids);
    BanAppends(l, ring, rep, user, call, ids);
    CurrentMeans(after, rep);
    BannedThere(past, more, ids.0);
    NotYetOverturned(l, rep, ids.0);
    NotAddedOverturned(past, more, ids.0);
    LiveCount(ReplayOf(Events(after, key)));
    MeantBans(Events(after, key), ReplayOf(Events(after, key)), ids.0);
  }

  lemma {:induction false} MeantBans(events: seq<Event>, r: Replay, id: Id)
    requires Means(events, r)
    ensures (id in r.applied <==> BannedIn(events, id)) && (id in r.overturned <==> OverturnedIn(events, id))
  {
  }

  /** What the current generation of an accepted reputation says. */
  lemma {:induction false} CurrentMeans(l: Ledger, rep: Id)
    requires Accepted(l) && rep in l.rows
    ensures var events := Events(l, (rep, l.rows[rep].generation));
      Means(events, ReplayOf(events)) && Matches(l.rows[rep], ReplayOf(events))
  {
    hide ReplayOf, Accepts;
    assert Accepts(l, rep);
    AcceptedIsCurrent(l, rep);
    assert EventsOk(l, (rep, l.rows[rep].generation));
    ReplayMeans(Events(l, (rep, l.rows[rep].generation)));
  }

  lemma {:induction false} BanTakesEffect(l: Ledger, ring: Keyring, rep: Id, user: Id, call: Call, ids: (Id, Id))
    requires rep in l.rows && BanRow(l, ring, rep, user, call, ids).Ok?
    ensures var after := BanRow(l, ring, rep, user, call, ids).value;
      rep in after.rows && after.rows[rep] == BannedRow(l.rows[rep], call.now)
  {
    hide Accepts, ValidReason, LiveBan;
  }

  lemma {:induction false} BanAppends(l: Ledger, ring: Keyring, rep: Id, user: Id, call: Call, ids: (Id, Id))
    requires Accepted(l) && rep in l.rows && DecryptError(ring, l.rows[rep]).None?
    requires call.opId !in l.ops && ids.0 !in l.place && ids.1 !in l.place && ids.0 != ids.1
    requires BanRow(l, ring, rep, user, call, ids).Ok?
    ensures var after, key := BanRow(l, ring, rep, user, call, ids).value, (rep, l.rows[rep].generation);
      var more := BanEvents(NextSequence(Events(l, key)), l.rows[rep], call, ids);
      && Accepted(after) && Events(after, key) == Events(l, key) + more
      && more != [] && more[0].id == ids.0 && IsBan(more[0])
      && forall i :: 0 <= i < |more| ==> more[i].detail != Sanction(BanOverturned(ids.0))
  {
    hide Accepts, Accepted, Carries, ValidReason, LiveBan;
    CarriesAccepted();
    BanStep(l, ring, rep, user, call, ids);
  }

  lemma {:induction false} BannedThere(past: seq<Event>, more: seq<Event>, id: Id)
    requires more != [] && more[0].id == id && IsBan(more[0])
    ensures BannedIn(past + more, id)
  {
    assert (past + more)[|past|] == more[0];
  }

  lemma {:induction false} NotAddedOverturned(past: seq<Event>, more: seq<Event>, id: Id)
    requires !OverturnedIn(past, id)
    requires forall i :: 0 <= i < |more| ==> more[i].detail != Sanction(BanOverturned(id))
    ensures !OverturnedIn(past + more, id)
  {
  }

  /** An accepted generation overturns only events of its own. */
  lemma {:induction false} NotYetOverturned(l: Ledger, rep: Id, id: Id)
    requires Accepted(l) && rep in l.rows && id !in l.place
    ensures !OverturnedIn(Events(l, (rep, l.rows[rep].generation)), id)
  {
    hide ReplayOf, Accepts, OverturnedIn;
    CurrentMeans(l, rep);
    assert Accepts(l, rep);
    AcceptedIsCurrent(l, rep);
    assert EventsOk(l, (rep, l.rows[rep].generation));
  }

  lemma {:induction false} LiveCount(r: Replay)
    requires r.Replayed? && r.overturned <= r.applied
    ensures |r.applied - r.overturned| == |r.applied| - |r.overturned|
  {
    assert r.applied == (r.applied - r.overturned) + r.overturned;
  }

  // ----- overturning a ban, in any generation -----

  /** The target of an overturn names a ban of the ledger. */
  predicate BanNamed(l: Ledger, target: Id) {
    target in l.place && var found := EventWith(Events(l, l.place[target]), target); found.Some? && IsBan(found.value)
  }

  lemma {:induction false} BanIsPlaced(l: Ledger, target: Id)
    requires TablesOk(l) && BanNamed(l, target)
    ensures l.place[target] in l.log && l.place[target].0 in l.rows
  {
    assert HasEvent(l, target);
    assert EventsOk(l, l.place[target]);
  }

  /** A ban of an accepted ledger that nobody overturned is still counted. */
  lemma {:induction false} BanIsLive(l: Ledger, target: Id)
    requires Accepted(l) && BanNamed(l, target) && !AlreadyOverturned(l, target)
    ensures var r := ReplayOf(Events(l, l.place[target]));
      && l.place[target] in l.log && l.place[target].0 in l.rows && Means(Events(l, l.place[target]), r)
      && target in r.applied && target !in r.overturned && r.count >= 1
  {
    var key := l.place[target];
    assert HasEvent(l, target);
    var events := l.log[key];
    assert EventsOk(l, key);
    assert Accepts(l, key.0);
    assert ReplayOf(l.log[key]).Replayed?;
    ReplayMeans(events);
    var i := EventWithFound(events, target);
    var r := ReplayOf(events);
    assert BannedIn(events, target);
    assert r.overturned <= r.applied - {target};
    SubsetCount(r.overturned, r.applied - {target});
  }

  lemma {:induction false} SubsetCount<T>(x: set<T>, y: set<T>)
    requires x <= y
    ensures |x| <= |y|
  {
    assert y == x + (y - x);
  }

  lemma {:induction false} OverturnReplays(
    events: seq<Event>, r: Replay, target: Id, unblock: bool, call: Call, ids: (Id, Id))
    requires r == ReplayOf(events) && r.Replayed? && target in r.applied && target !in r.overturned && r.count >= 1
    requires unblock ==> r.status == Blocked
    ensures ReplayOf(events + OverturnEvents(unblock, NextSequence(events), target, call, ids)) ==
            r.(count := r.count - 1, overturned := r.overturned + {target},
               status := if unblock then Normal else r.status, blockedAt := if unblock then None else r.blockedAt)
  {
    var more := OverturnEvents(unblock, NextSequence(events), target, call, ids);
    if unblock {
      assert more == [more[0], more[1]];
      ReplayTwo(events, more[0], more[1]);
    } else {
      ReplayAppend(events, more[0]);
    }
  }

  /** The events of an overturn continue the generation of its target. */
  lemma {:induction false} OverturnContinues(
    l: Ledger, op: Operation, row: Row, unblock: bool, target: Id, call: Call, ids: (Id, Id))
    requires call.opId !in l.ops && ids.0 !in l.place && ids.1 !in l.place && ids.0 != ids.1
    requires op == OpOf(op.rep, op.generation, op.kind, call, op.fingerprint, 1, if unblock then 1 else 0)
    requires Contiguous(Events(l, (op.rep, op.generation)))
    requires op.rep in l.rows && l.rows[op.rep].generation == row.generation && op.generation <= row.generation
    requires op.generation == row.generation || (!unblock && Events(l, (op.rep, row.generation)) != [])
    ensures Continues(l, call.opId, op, row,
                      OverturnEvents(unblock, NextSequence(Events(l, (op.rep, op.generation))), target, call, ids))
  {
    var events := Events(l, (op.rep, op.generation));
    var more := OverturnEvents(unblock, NextSequence(events), target, call, ids);
    if unblock {
      TwoContinue(l, call.opId, op, row, more[0], more[1]);
    } else {
      OneContinues(l, call.opId, op, row, more[0]);
    }
  }

  lemma {:induction false} OverturnThreshold(l: Ledger, opId: Id, op: Operation, row: Row, events: seq<Event>)
    requires op.rep in l.rows && Threshold(l, op.rep) && row.generation == l.rows[op.rep].generation
    requires op.generation != row.generation ==> row == l.rows[op.rep]
    requires op.generation == row.generation ==>
               (exists i :: 0 <= i < |events| && IsUnblock(events[i]))
               || (row.status == l.rows[op.rep].status && row.count <= l.rows[op.rep].count)
    ensures Threshold(Record(l, opId, op, row, events), op.rep)
  {
    if op.generation == row.generation {
      ThresholdStep(l, op.rep, opId, op, row, events);
    } else {
      OtherEvents(l, opId, op, row, events, (op.rep, row.generation));
      assert Events(l, (op.rep, row.generation)) + [] == Events(l, (op.rep, row.generation));
    }
  }

  lemma {:induction false} OverturnCarries(l: Ledger, target: Id, call: Call, op: Operation, ids: (Id, Id))
    requires Accepted(l) && BanNamed(l, target) && !AlreadyOverturned(l, target) && l.place[target].0 in l.rows
    requires call.opId !in l.ops && ids.0 !in l.place && ids.1 !in l.place && ids.0 != ids.1
    requires var key := l.place[target];
      var unblock := OverturnUnblocks(l.rows[key.0], key.1, Events(l, key), target);
      op == OpOf(key.0, key.1, op.kind, call, op.fingerprint, 1, if unblock then 1 else 0)
    ensures var key := l.place[target];
      var row := l.rows[key.0];
      var unblock := OverturnUnblocks(row, key.1, Events(l, key), target);
      Carries(l, Record(l, call.opId, op, OverturnedRow(row, key.1 == row.generation, unblock),
                        OverturnEvents(unblock, NextSequence(Events(l, key)), target, call, ids)))
  {
    hide EventWith, AlreadyOverturned, ReplayOf, Carries, Threshold;
    var key := l.place[target];
    var was, events := l.rows[key.0], Events(l, key);
    var unblock := OverturnUnblocks(was, key.1, events, target);
    var row := OverturnedRow(was, key.1 == was.generation, unblock);
    var more := OverturnEvents(unblock, NextSequence(events), target, call, ids);
    BanIsLive(l, target);
    AcceptedIsCurrent(l, key.0);
    assert GenerationOk(l, key);
    OverturnContinues(l, op, row, unblock, target, call, ids);
    OverturnReplays(events, ReplayOf(events), target, unblock, call, ids);
    assert unblock ==> IsUnblock(more[1]);
    if Thresholds(l) {
      assert Threshold(l, key.0);
      OverturnThreshold(l, call.opId, op, row, more);
    }
    RecordCarries(l, call.opId, op, row, more);
  }

  /** The overturn gets as far as reading the ledger back: it is refused for nothing but the keys. */
  predicate OverturnReads(l: Ledger, target: Id, call: Call) {
    && BanNamed(l, target)
    && (if call.opId in l.ops then l.ops[call.opId].fingerprint == [target, "overturn", call.reason]
        else !AlreadyOverturned(l, target) && ValidReason(call.reason))
  }

  /**
   * An overturn that is not refused fails exactly when the process lacks a key of the row: with the integrity
   * error for the encryption key, and with the contract error for the lookup key alone.
   */
  lemma {:induction false} OverturnKeeps(l: Ledger, ring: Keyring, target: Id, call: Call, ids: (Id, Id))
    requires Accepted(l) && ids.0 !in l.place && ids.1 !in l.place && ids.0 != ids.1
    ensures var r := Overturn(l, ring, target, call, ids);
      && Keeps(l, r, OverturnReads(l, target, call) && l.place[target].0 in l.rows
                     && l.rows[l.place[target].0].encryptionKeyId !in ring.encryption)
      && (OverturnReads(l, target, call) ==>
            l.place[target].0 in l.rows && (r.Ok? <==> DecryptError(ring, l.rows[l.place[target].0]).None?))
  {
    hide Accepts, Carries, AlreadyOverturned, EventWith, ValidReason;
    CarriesItself(l);
    if BanNamed(l, target) {
      BanIsPlaced(l, target);
      if call.opId in l.ops {
        ReloadIsSafe(l, ring, l.place[target].0);
      } else if !AlreadyOverturned(l, target) && ValidReason(call.reason) {
        OverturnStep(l, ring, target, call, ids);
      }
    }
  }

  lemma {:induction false} OverturnStep(l: Ledger, ring: Keyring, target: Id, call: Call, ids: (Id, Id))
    requires Accepted(l) && BanNamed(l, target) && !AlreadyOverturned(l, target) && ValidReason(call.reason)
    requires call.opId !in l.ops && ids.0 !in l.place && ids.1 !in l.place && ids.0 != ids.1
    requires l.place[target].0 in l.rows
    ensures var r := OverturnAt(l, ring, l.place[target], target, call, ids);
            match DecryptError(ring, l.rows[l.place[target].0])
            case None => r.Ok? && Carries(l, r.value)
            case Some(e) => r == Err(e)
  {
    hide Accepts, AlreadyOverturned, ValidReason, EventWith, OverturnUnblocks, Carries;
    CarriesAccepted();
    var key := l.place[target];
    var row, events := l.rows[key.0], Events(l, key);
    var unblock := OverturnUnblocks(row, key.1, events, target);
    var row' := OverturnedRow(row, key.1 == row.generation, unblock);
    var more := OverturnEvents(unblock, NextSequence(events), target, call, ids);
    var fingerprint := [target, "overturn", call.reason];
    var op := OpOf(key.0, key.1, OverturnSanction, call, fingerprint, 1, if unblock then 1 else 0);
    var mid := Record(l, call.opId, op, row', more);
    OverturnCarries(l, target, call, op, ids);
    OverturnedBansCarry(l, call.opId, op, row', more, target);
    ReloadIsSafe(mid.(bans := OverturnedBans(l.bans, target)), ring, key.0);
  }

  lemma {:induction false} OverturnedBansCarry(
    l: Ledger, opId: Id, op: Operation, row: Row, events: seq<Event>, target: Id)
    requires TablesOk(l) && Carries(l, Record(l, opId, op, row, events))
    ensures Carries(l, Record(l, opId, op, row, events).(bans := OverturnedBans(l.bans, target)))
  {
    hide Accepts;
    var mid := Record(l, opId, op, row, events);
    forall id | id in OverturnedBans(l.bans, target) ensures id in mid.place {
      Placed(l.place, events, (op.rep, op.generation), id);
    }
    AccountsCarry(mid, mid.phones, OverturnedBans(l.bans, target), mid.suspended);
  }
}
