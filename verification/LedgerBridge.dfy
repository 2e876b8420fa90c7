/** The ban bridge of the accounts against the event ledger (src/cueflow/phone_reputation.py, account.py, auth.py). */
module LedgerBridge {
  import opened Outcomes
  import opened PhoneReputation
  import opened LedgerSoundness
  import opened LedgerRuns

  ghost predicate LiveRow(l: Ledger, id: Id) {
    id in l.bans && !l.bans[id].overturned
  }

  /** A ban event that no event of any generation overturns. */
  ghost predicate LiveEvent(l: Ledger, id: Id) {
    id in l.place && BannedIn(Events(l, l.place[id]), id) && !AlreadyOverturned(l, id)
  }

  /**
   * The open bridge rows are exactly the live ban events, less the rows that went with their accounts,
   * and a user has one at most.
   */
  ghost predicate Bridged(l: Ledger, gone: set<Id>) {
    && gone <= l.place.Keys
    && (forall id :: LiveRow(l, id) <==> LiveEvent(l, id) && id !in gone)
    && (forall a, b :: LiveRow(l, a) && LiveRow(l, b) && l.bans[a].user == l.bans[b].user ==> a == b)
  }

  // ----- live ban events after a transaction -----

  /** In an accepted ledger only events of the same generation are overturned there. */
  lemma {:induction false} OverturnsStayHome(l: Ledger, key: Key, target: Id)
    requires Accepted(l) && key in l.log && OverturnedIn(l.log[key], target)
    ensures target in l.place && l.place[target] == key && BannedIn(l.log[key], target)
  {
    assert EventsOk(l, key);
    assert Accepts(l, key.0);
    assert ReplayOf(l.log[key]).Replayed?;
    ReplayMeans(l.log[key]);
    assert target in ReplayOf(l.log[key]).overturned;
    var i :| 0 <= i < |l.log[key]| && l.log[key][i].id == target && IsBan(l.log[key][i]);
  }

  lemma {:induction false} OverturnedConcat(x: seq<Event>, y: seq<Event>, id: Id)
    ensures OverturnedIn(x + y, id) <==> OverturnedIn(x, id) || OverturnedIn(y, id)
  {
    if i :| 0 <= i < |x| && x[i].detail == Sanction(BanOverturned(id)) { assert (x + y)[i] == x[i]; }
    if i :| 0 <= i < |y| && y[i].detail == Sanction(BanOverturned(id)) { assert (x + y)[|x| + i] == y[i]; }
  }

  lemma {:induction false} BannedConcat(x: seq<Event>, y: seq<Event>, id: Id)
    ensures BannedIn(x + y, id) <==> BannedIn(x, id) || BannedIn(y, id)
  {
    if i :| 0 <= i < |x| && x[i].id == id && IsBan(x[i]) { assert (x + y)[i] == x[i]; }
    if i :| 0 <= i < |y| && y[i].id == id && IsBan(y[i]) { assert (x + y)[|x| + i] == y[i]; }
  }

  lemma {:induction false} RecordOverturns(l: Ledger, opId: Id, op: Operation, row: Row, events: seq<Event>, id: Id)
    ensures AlreadyOverturned(Record(l, opId, op, row, events), id)
            <==> AlreadyOverturned(l, id) || OverturnedIn(events, id)
  {
    var after, home := Record(l, opId, op, row, events), (op.rep, op.generation);
    OverturnedConcat(Events(l, home), events, id);
    if AlreadyOverturned(l, id) {
      var key :| key in l.log && OverturnedIn(l.log[key], id);
      assert key in after.log && OverturnedIn(after.log[key], id);
    }
    if OverturnedIn(events, id) {
      assert OverturnedIn(after.log[home], id);
    }
    if AlreadyOverturned(after, id) {
      var key :| key in after.log && OverturnedIn(after.log[key], id);
      if key != home || events == [] {
        assert OverturnedIn(l.log[key], id);
      } else if OverturnedIn(Events(l, home), id) {
        assert home in l.log;
      }
    }
  }

  /** Which ban events are live after a transaction. */
  lemma {:induction false} RecordLive(l: Ledger, opId: Id, op: Operation, row: Row, events: seq<Event>, id: Id)
    requires Accepted(l) && Continues(l, opId, op, row, events)
    ensures var after := Record(l, opId, op, row, events);
      && (id in l.place ==> id in after.place)
      && (LiveEvent(after, id) <==> (LiveEvent(l, id) || BannedIn(events, id)) && !OverturnedIn(events, id))
  {
    var after, home := Record(l, opId, op, row, events), (op.rep, op.generation);
    RecordOverturns(l, opId, op, row, events, id);
    Placed(l.place, events, home, id);
    assert forall i :: 0 <= i < |events| ==> NewEvent(l, opId, op, events[i]);
    if id in l.place {
      OtherEvents(l, opId, op, row, events, l.place[id]);
      BannedConcat(Events(l, l.place[id]), events, id);
      assert Events(l, l.place[id]) + [] == Events(l, l.place[id]);
    } else {
      if AlreadyOverturned(l, id) {
        var key :| key in l.log && OverturnedIn(l.log[key], id);
        OverturnsStayHome(l, key, id);
      }
      OtherEvents(l, opId, op, row, events, home);
      BannedConcat(Events(l, home), events, id);
      NotBannedHere(l, home, id);
    }
  }

  lemma {:induction false} NotBannedHere(l: Ledger, key: Key, id: Id)
    requires TablesOk(l) && id !in l.place
    ensures !BannedIn(Events(l, key), id)
  {
    assert key in l.log ==> EventsOk(l, key);
  }

  lemma {:induction false} AccountsLive(
    l: Ledger, phones: map<Id, string>, bans: map<Id, Ban>, suspended: set<Id>, id: Id)
    ensures LiveEvent(WithAccounts(l, phones, bans, suspended), id) <==> LiveEvent(l, id)
  {
    var after := WithAccounts(l, phones, bans, suspended);
    assert id in l.place ==> Events(after, l.place[id]) == Events(l, l.place[id]);
    if AlreadyOverturned(l, id) {
      var key :| key in l.log && OverturnedIn(l.log[key], id);
      assert key in after.log && OverturnedIn(after.log[key], id);
    }
    if AlreadyOverturned(after, id) {
      var key :| key in after.log && OverturnedIn(after.log[key], id);
      assert key in l.log && OverturnedIn(l.log[key], id);
    }
  }

  // ----- the bridge after a transaction -----

  predicate Plain(e: Event) {
    !IsBan(e) && !(e.detail.Sanction? && e.detail.sanction.BanOverturned?)
  }

  /** Transactions without ban events leave the bridge matched. */
  lemma {:induction false} PlainKeepsBridge(
    l: Ledger, gone: set<Id>, opId: Id, op: Operation, row: Row, events: seq<Event>)
    requires Accepted(l) && Bridged(l, gone) && Continues(l, opId, op, row, events)
    requires forall i :: 0 <= i < |events| ==> Plain(events[i])
    ensures Bridged(Record(l, opId, op, row, events), gone)
  {
    hide Accepted, LiveEvent;
    var after := Record(l, opId, op, row, events);
    forall id ensures (LiveEvent(after, id) <==> LiveEvent(l, id)) && (id in l.place ==> id in after.place) {
      RecordLive(l, opId, op, row, events, id);
    }
    assert forall id :: LiveRow(after, id) <==> LiveRow(l, id);
    forall a, b | LiveRow(after, a) && LiveRow(after, b) && after.bans[a].user == after.bans[b].user ensures a == b {
      assert LiveRow(l, a) && LiveRow(l, b);
    }
  }

  /** A transaction that bans with the event `banned` opens one bridge row, for a user that had none. */
  lemma {:induction false} BridgeOpens(
    l: Ledger, gone: set<Id>, opId: Id, op: Operation, row: Row, events: seq<Event>, banned: Id, ban: Ban,
    suspended: set<Id>)
    requires Accepted(l) && Bridged(l, gone) && Continues(l, opId, op, row, events)
    requires banned !in l.place && !LiveBan(l, ban.user) && !ban.overturned
    requires forall id :: (BannedIn(events, id) <==> id == banned) && !OverturnedIn(events, id)
    ensures Bridged(Record(l, opId, op, row, events).(bans := l.bans[banned := ban], suspended := suspended), gone)
  {
    hide Accepted, LiveEvent;
    var mid := Record(l, opId, op, row, events);
    var after := mid.(bans := l.bans[banned := ban], suspended := suspended);
    forall id ensures (LiveEvent(after, id) <==> LiveEvent(l, id) || id == banned)
                      && (id in l.place ==> id in after.place) {
      RecordLive(l, opId, op, row, events, id);
      AccountsLive(mid, mid.phones, after.bans, suspended, id);
    }
    forall id ensures LiveRow(after, id) <==> LiveRow(l, id) || id == banned {
    }
    forall a, b | LiveRow(after, a) && LiveRow(after, b) && after.bans[a].user == after.bans[b].user ensures a == b {
      if a != banned { assert LiveRow(l, a); }
      if b != banned { assert LiveRow(l, b); }
    }
  }

  /** A transaction that overturns `target` closes its bridge row, and no other. */
  lemma {:induction false} BridgeCloses(
    l: Ledger, gone: set<Id>, opId: Id, op: Operation, row: Row, events: seq<Event>, target: Id)
    requires Accepted(l) && Bridged(l, gone) && Continues(l, opId, op, row, events)
    requires forall id :: (OverturnedIn(events, id) <==> id == target) && !BannedIn(events, id)
    ensures Bridged(Record(l, opId, op, row, events).(bans := OverturnedBans(l.bans, target)), gone)
  {
    hide Accepted, LiveEvent;
    var mid := Record(l, opId, op, row, events);
    var after := mid.(bans := OverturnedBans(l.bans, target));
    forall id ensures (LiveEvent(after, id) <==> LiveEvent(l, id) && id != target)
                      && (id in l.place ==> id in after.place) {
      RecordLive(l, opId, op, row, events, id);
      AccountsLive(mid, mid.phones, after.bans, mid.suspended, id);
    }
    forall id ensures LiveRow(after, id) <==> LiveRow(l, id) && id != target {
    }
    forall a, b | LiveRow(after, a) && LiveRow(after, b) && after.bans[a].user == after.bans[b].user ensures a == b {
      assert LiveRow(l, a) && LiveRow(l, b);
    }
  }

  lemma {:induction false} BanContinues(l: Ledger, rep: Id, call: Call, op: Operation, ids: (Id, Id))
    requires Accepted(l) && rep in l.rows
    requires call.opId !in l.ops && ids.0 !in l.place && ids.1 !in l.place && ids.0 != ids.1
    requires op == OpOf(rep, l.rows[rep].generation, op.kind, call, op.fingerprint,
                        1, if BanBlocks(l.rows[rep]) then 1 else 0)
    ensures Continues(l, call.opId, op, BannedRow(l.rows[rep], call.now),
                      BanEvents(NextSequence(Events(l, (rep, l.rows[rep].generation))), l.rows[rep], call, ids))
  {
    var row := BannedRow(l.rows[rep], call.now);
    var events := BanEvents(NextSequence(Events(l, (rep, row.generation))), l.rows[rep], call, ids);
    AcceptedIsCurrent(l, rep);
    if BanBlocks(l.rows[rep]) {
      TwoContinue(l, call.opId, op, row, events[0], events[1]);
    } else {
      OneContinues(l, call.opId, op, row, events[0]);
    }
  }

  lemma {:induction false} BanEventsHold(next: nat, row: Row, call: Call, ids: (Id, Id), id: Id)
    ensures BannedIn(BanEvents(next, row, call, ids), id) <==> id == ids.0
    ensures !OverturnedIn(BanEvents(next, row, call, ids), id)
  {
    assert IsBan(BanEvents(next, row, call, ids)[0]);
  }

  lemma {:induction false} BanKeepsBridge(
    l: Ledger, gone: set<Id>, ring: Keyring, rep: Id, user: Id, call: Call, ids: (Id, Id))
    requires Accepted(l) && Bridged(l, gone) && rep in l.rows && call.opId !in l.ops
    requires ids.0 !in l.place && ids.1 !in l.place && ids.0 != ids.1 && BanRow(l, ring, rep, user, call, ids).Ok?
    ensures Bridged(BanRow(l, ring, rep, user, call, ids).value, gone)
  {
    hide Bridged, Accepts, Continues, BannedIn, OverturnedIn;
    var row, fingerprint := l.rows[rep], [user, rep, "qualifying_ban", call.reason];
    var next := NextSequence(Events(l, (rep, row.generation)));
    var op := OpOf(rep, row.generation, QualifyingBan, call, fingerprint, 1, if BanBlocks(row) then 1 else 0);
    BanContinues(l, rep, call, op, ids);
    forall id ensures (BannedIn(BanEvents(next, row, call, ids), id) <==> id == ids.0)
                      && !OverturnedIn(BanEvents(next, row, call, ids), id) {
      BanEventsHold(next, row, call, ids, id);
    }
    BridgeOpens(l, gone, call.opId, op, BannedRow(row, call.now), BanEvents(next, row, call, ids), ids.0,
                Ban(user, rep, false), l.suspended + {user});
  }

  lemma {:induction false} OverturnEventsHold(unblock: bool, next: nat, target: Id, call: Call, ids: (Id, Id), id: Id)
    ensures !BannedIn(OverturnEvents(unblock, next, target, call, ids), id)
    ensures OverturnedIn(OverturnEvents(unblock, next, target, call, ids), id) <==> id == target
  {
    assert OverturnEvents(unblock, next, target, call, ids)[0].detail == Sanction(BanOverturned(target));
  }

  lemma {:induction false} OverturnKeepsBridge(
    l: Ledger, gone: set<Id>, ring: Keyring, target: Id, call: Call, ids: (Id, Id))
    requires Accepted(l) && Bridged(l, gone) && BanNamed(l, target) && l.place[target].0 in l.rows
    requires call.opId !in l.ops && ids.0 !in l.place && ids.1 !in l.place && ids.0 != ids.1
    requires OverturnAt(l, ring, l.place[target], target, call, ids).Ok?
    ensures Bridged(OverturnAt(l, ring, l.place[target], target, call, ids).value, gone)
  {
    hide Bridged, EventWith, ReplayOf, BannedIn, OverturnedIn;
    var key := l.place[target];
    var was, events := l.rows[key.0], Events(l, key);
    var unblock := OverturnUnblocks(was, key.1, events, target);
    var row := OverturnedRow(was, key.1 == was.generation, unblock);
    var fingerprint := [target, "overturn", call.reason];
    var op := OpOf(key.0, key.1, OverturnSanction, call, fingerprint, 1, if unblock then 1 else 0);
    var more := OverturnEvents(unblock, NextSequence(events), target, call, ids);
    BanIsLive(l, target);
    AcceptedIsCurrent(l, key.0);
    assert GenerationOk(l, key);
    OverturnContinues(l, op, row, unblock, target, call, ids);
    forall id ensures (OverturnedIn(more, id) <==> id == target) && !BannedIn(more, id) {
      OverturnEventsHold(unblock, NextSequence(events), target, call, ids, id);
    }
    BridgeCloses(l, gone, call.opId, op, row, more, target);
  }

  lemma {:induction false} ChangeKeepsBridge(
    l: Ledger, gone: set<Id>, rep: Id, call: Call, op: Operation, row: Row, id: Id, change: StatusDetail)
    requires Accepted(l) && Bridged(l, gone) && rep in l.rows && call.opId !in l.ops && id !in l.place
    requires op == OpOf(rep, l.rows[rep].generation, op.kind, call, op.fingerprint, 0, 1)
    requires row.generation == l.rows[rep].generation
    ensures Bridged(Record(l, call.opId, op, row,
                           [EventOf(id, NextSequence(Events(l, (rep, row.generation))), call, Change(change))]), gone)
  {
    var e := EventOf(id, NextSequence(Events(l, (rep, row.generation))), call, Change(change));
    AcceptedIsCurrent(l, rep);
    OneContinues(l, call.opId, op, row, e);
    PlainKeepsBridge(l, gone, call.opId, op, row, [e]);
  }

  lemma {:induction false} NoEventKeepsBridge(l: Ledger, gone: set<Id>, rep: Id, opId: Id, op: Operation)
    requires Accepted(l) && Bridged(l, gone) && rep in l.rows && opId !in l.ops && op.rep == rep
    requires op.generation == l.rows[rep].generation && op.expectedSanction == 0 && op.expectedStatus == 0
    ensures Bridged(Record(l, opId, op, l.rows[rep], []), gone)
  {
    var past := Events(l, (rep, op.generation));
    AcceptedIsCurrent(l, rep);
    assert past + [] == past;
    PlainKeepsBridge(l, gone, opId, op, l.rows[rep], []);
  }

  lemma {:induction false} StartKeepsBridge(
    l: Ledger, gone: set<Id>, call: Call, op: Operation, row: Row, ids: (Id, Id))
    requires Accepted(l) && Bridged(l, gone) && call.opId !in l.ops
    requires ids.0 !in l.place && ids.1 !in l.place && ids.0 != ids.1
    requires op == OpOf(op.rep, op.generation, op.kind, call, op.fingerprint, 1, 1) && op.generation == row.generation
    requires (op.rep, op.generation) !in l.log && (op.rep in l.rows ==> l.rows[op.rep].generation <= op.generation)
    ensures Bridged(Record(l, call.opId, op, row, [EventOf(ids.0, 1, call, Change(StatusStarted)),
                                                   EventOf(ids.1, 2, call, Sanction(SanctionStarted))]), gone)
  {
    var first := EventOf(ids.0, 1, call, Change(StatusStarted));
    var second := EventOf(ids.1, 2, call, Sanction(SanctionStarted));
    TwoContinue(l, call.opId, op, row, first, second);
    PlainKeepsBridge(l, gone, call.opId, op, row, [first, second]);
  }

  lemma {:induction false} BlockBridge(l: Ledger, gone: set<Id>, ring: Keyring, rep: Id, call: Call, event: Id)
    requires Accepted(l) && Bridged(l, gone) && rep in l.rows && call.opId !in l.ops && event !in l.place
    ensures BlockRow(l, ring, rep, call, event).Ok? ==> Bridged(BlockRow(l, ring, rep, call, event).value, gone)
    ensures UnblockRow(l, ring, rep, call, event).Ok? ==> Bridged(UnblockRow(l, ring, rep, call, event).value, gone)
  {
    hide Accepted, Bridged, Accepts, ValidReason, Events, Validate, NextSequence;
    var row := l.rows[rep];
    var blocking := [rep, "administrative_block", call.reason];
    var unblocking := [rep, "administrative_unblock", call.reason];
    if row.status == Blocked {
      NoEventKeepsBridge(l, gone, rep, call.opId, OpOf(rep, row.generation, AdministrativeBlock, call, blocking, 0, 0));
      ChangeKeepsBridge(l, gone, rep, call, OpOf(rep, row.generation, AdministrativeUnblock, call, unblocking, 0, 1),
                        row.(status := Normal, blockedAt := None), event, PhoneUnblocked(None));
    } else {
      NoEventKeepsBridge(l, gone, rep, call.opId,
                         OpOf(rep, row.generation, AdministrativeUnblock, call, unblocking, 0, 0));
      ChangeKeepsBridge(l, gone, rep, call, OpOf(rep, row.generation, AdministrativeBlock, call, blocking, 0, 1),
                        row.(status := Blocked, blockedAt := Some(call.now)), event, PhoneBlocked(None));
    }
  }

  lemma {:induction false} ResetBridge(l: Ledger, gone: set<Id>, ring: Keyring, rep: Id, call: Call, ids: (Id, Id))
    requires Accepted(l) && Bridged(l, gone) && rep in l.rows && call.opId !in l.ops
    requires ids.0 !in l.place && ids.1 !in l.place && ids.0 != ids.1
    ensures ResetRow(l, ring, rep, call, ids).Ok? ==> Bridged(ResetRow(l, ring, rep, call, ids).value, gone)
  {
    hide Bridged, Accepts, ValidReason;
    var row, generation := l.rows[rep], l.rows[rep].generation + 1;
    var fingerprint := [rep, "phone_reassignment", call.reason];
    NoRowNoEvents(l, rep, generation);
    StartKeepsBridge(l, gone, call, OpOf(rep, generation, PhoneReassignment, call, fingerprint, 1, 1),
                     row.(generation := generation, count := 0, status := Normal, blockedAt := None, lastBanAt := None),
                     ids);
  }

  lemma {:induction false} EnsureBridge(
    l: Ledger, gone: set<Id>, ring: Keyring, phone: string, now: int, ids: (Id, Id, Id, Id))
    requires Accepted(l) && Bridged(l, gone) && Fresh(l, Ensure(ring, phone, now, ids))
    requires EnsurePhone(l, ring, phone, now, ids).Ok?
    ensures Bridged(EnsurePhone(l, ring, phone, now, ids).value, gone)
  {
    hide Bridged, Accepts;
    if FindByPhone(l, ring, phone).value.None? {
      var call := Call(ids.1, Actor("system", "cueflow-auth"), "first_registration", now);
      var op := OpOf(ids.0, 1, GenerationStarted, call, [ids.0, "1", "generation_started"], 1, 1);
      NoRowNoEvents(l, ids.0, 1);
      var row := Row(ring.activeLookup, phone, ring.activeEncryption, 1, 0, Normal, None, None);
      StartKeepsBridge(l, gone, call, op, row, (ids.2, ids.3));
    }
  }

  // ----- accounts -----

  /** The ban rows that an erasure deletes. */
  ghost function Erased(l: Ledger, r: Request): set<Id> {
    if r.EraseUser? && Perform(l, r).Ok? then BansOf(l, r.user) else {}
  }

  lemma {:induction false} AccountsKeepBridge(l: Ledger, gone: set<Id>, r: Request)
    requires Accepted(l) && Bridged(l, gone) && OfAccounts(r) && Perform(l, r).Ok?
    ensures Bridged(Perform(l, r).value, gone + Erased(l, r))
  {
    hide Accepts, LiveEvent;
    var after := Perform(l, r).value;
    forall id ensures LiveEvent(after, id) <==> LiveEvent(l, id) {
      AccountsLive(l, after.phones, after.bans, after.suspended, id);
    }
    forall id ensures LiveRow(after, id) <==> LiveRow(l, id) && id !in Erased(l, r) {
    }
    forall a, b | LiveRow(after, a) && LiveRow(after, b) && after.bans[a].user == after.bans[b].user ensures a == b {
      assert LiveRow(l, a) && LiveRow(l, b);
    }
  }

  /** Every transaction keeps the bridge, up to the rows that an erasure takes with it. */
  lemma {:induction false} StepKeepsBridge(l: Ledger, gone: set<Id>, r: Request)
    requires Accepted(l) && Bridged(l, gone) && Fresh(l, r)
    ensures Bridged(After(l, r), gone + Erased(l, r))
  {
    hide Accepted, Accepts, Bridged, EventWith, ValidReason, AlreadyOverturned;
    hide Record, Validate, OverturnAt, BanRow, ResetRow, BlockRow, UnblockRow;
    assert gone + {} == gone;
    if OfAccounts(r) {
      if Perform(l, r).Ok? { AccountsKeepBridge(l, gone, r); }
    } else if OpIdOf(r).Some? && OpIdOf(r).value in l.ops {
      assert After(l, r) == l;
    } else if Perform(l, r).Ok? {
      match r
      case Ensure(ring, phone, now, ids) => EnsureBridge(l, gone, ring, phone, now, ids);
      case BlockPhone(ring, phone, call, event) =>
        BlockBridge(l, gone, ring, RequireRow(l, ring, phone).value, call, event);
      case UnblockPhone(ring, phone, call, event) =>
        BlockBridge(l, gone, ring, RequireRow(l, ring, phone).value, call, event);
      case BanUser(ring, user, call, pair) =>
        BanKeepsBridge(l, gone, ring, RequireRow(l, ring, l.phones[user]).value, user, call, pair);
      case OverturnBan(ring, target, call, pair) =>
        OverturnLookup(l, ring, target, call, pair);
        OverturnKeepsBridge(l, gone, ring, target, call, pair);
      case Reassign(ring, phone, call, pair) =>
        ResetBridge(l, gone, ring, RequireRow(l, ring, phone).value, call, pair);
      case _ =>
    }
  }

  // ----- counting -----

  /** The open bridge rows of one generation. */
  ghost function Open(l: Ledger, key: Key): set<Id> {
    set id | id in l.bans && !l.bans[id].overturned && id in l.place && l.place[id] == key
  }

  /** The live bans of one generation whose rows went with an account. */
  ghost function Lost(l: Ledger, key: Key, gone: set<Id>): set<Id> {
    set id | id in gone && id in l.place && l.place[id] == key && LiveEvent(l, id)
  }

  lemma {:induction false} OpenOrLost(l: Ledger, gone: set<Id>, key: Key, id: Id)
    requires Accepted(l) && Bridged(l, gone) && key in l.log
    ensures id in Open(l, key) || id in Lost(l, key, gone)
            <==> BannedIn(l.log[key], id) && !OverturnedIn(l.log[key], id)
    ensures !(id in Open(l, key) && id in Lost(l, key, gone))
  {
    assert LiveRow(l, id) <==> LiveEvent(l, id) && id !in gone;
    assert EventsOk(l, key);
    if BannedIn(l.log[key], id) {
      var i :| 0 <= i < |l.log[key]| && l.log[key][i].id == id && IsBan(l.log[key][i]);
      assert id in l.place && l.place[id] == key;
      if AlreadyOverturned(l, id) {
        var other :| other in l.log && OverturnedIn(l.log[other], id);
        OverturnsStayHome(l, other, id);
      }
    }
  }

  /** The count of a bridged reputation is its open rows and its live bans whose rows are gone. */
  lemma {:induction false} CountIsOpenBans(l: Ledger, gone: set<Id>, rep: Id)
    requires Accepted(l) && Bridged(l, gone) && rep in l.rows
    ensures var key := (rep, l.rows[rep].generation);
      l.rows[rep].count == |Open(l, key)| + |Lost(l, key, gone)|
  {
    hide Bridged, ReplayOf, Open, Lost, BannedIn, OverturnedIn;
    var key := (rep, l.rows[rep].generation);
    AcceptedIsCurrent(l, rep);
    assert EventsOk(l, key);
    ReplayMeans(l.log[key]);
    var r := ReplayOf(l.log[key]);
    forall id ensures id in Open(l, key) || id in Lost(l, key, gone) <==> id in r.applied - r.overturned
              ensures !(id in Open(l, key) && id in Lost(l, key, gone)) {
      OpenOrLost(l, gone, key, id);
    }
    assert Open(l, key) + Lost(l, key, gone) == r.applied - r.overturned;
    assert Open(l, key) * Lost(l, key, gone) == {};
    LiveCount(r);
  }

  // ----- over all runs -----

  /** The ban rows that the erasures of a run deleted. */
  ghost function Gone(requests: seq<Request>): set<Id> {
    if requests == [] then {}
    else
      var n := |requests| - 1;
      Gone(requests[..n]) + Erased(Run(EMPTY, requests[..n]), requests[n])
  }

  /** The request numbered `n` of a run erases the row of `id`. */
  ghost predicate ErasedAt(requests: seq<Request>, n: nat, id: Id)
    requires n < |requests|
  {
    id in Erased(Run(EMPTY, requests[..n]), requests[n])
  }

  lemma {:induction false} GoneWasErased(requests: seq<Request>, id: Id)
    ensures id in Gone(requests) <==> exists n :: 0 <= n < |requests| && ErasedAt(requests, n, id)
  {
    hide Run, Erased;
    if requests != [] {
      var n := |requests| - 1;
      GoneWasErased(requests[..n], id);
      forall m | 0 <= m < n ensures ErasedAt(requests[..n], m, id) == ErasedAt(requests, m, id) {
        assert requests[..n][..m] == requests[..m];
      }
      assert id in Gone(requests) <==> id in Gone(requests[..n]) || ErasedAt(requests, n, id);
    }
  }

  lemma {:induction false} RunsKeepBridge(requests: seq<Request>)
    requires AllFresh(EMPTY, requests)
    ensures Sound(Run(EMPTY, requests)) && Bridged(Run(EMPTY, requests), Gone(requests))
  {
    hide Accepted, Fresh;
    RunsAreSound(requests);
    if requests != [] {
      var n := |requests| - 1;
      forall m | 0 <= m < n ensures Fresh(Run(EMPTY, requests[..n][..m]), requests[..n][m]) {
        assert requests[..n][..m] == requests[..m];
      }
      RunsKeepBridge(requests[..n]);
      StepKeepsBridge(Run(EMPTY, requests[..n]), Gone(requests[..n]), requests[n]);
    }
  }

  /** Some user was erased with a ban that is live and counted now. */
  ghost predicate LiveBanErased(requests: seq<Request>, rep: Id)
    requires rep in Run(EMPTY, requests).rows
  {
    var l := Run(EMPTY, requests);
    exists n, id :: 0 <= n < |requests| && ErasedAt(requests, n, id)
                    && id in l.place && l.place[id] == (rep, l.rows[rep].generation) && LiveEvent(l, id)
  }

  /**
   * Conservation: in every reachable state the count of a phone is its open bridge rows and its live bans whose
   * rows went with their accounts. The rows never exceed the count, and they make it up exactly when no user was
   * erased with a ban of the current generation that is still live.
   */
  lemma {:induction false} CountsAreConserved(requests: seq<Request>, rep: Id)
    requires AllFresh(EMPTY, requests) && rep in Run(EMPTY, requests).rows
    ensures var l := Run(EMPTY, requests);
      var key := (rep, l.rows[rep].generation);
      && l.rows[rep].count == |Open(l, key)| + |Lost(l, key, Gone(requests))|
      && |Open(l, key)| <= l.rows[rep].count
      && (|Open(l, key)| == l.rows[rep].count <==> !LiveBanErased(requests, rep))
  {
    hide Sound, Bridged, LiveEvent, Open, AllFresh, ErasedAt, Run, Gone;
    var l := Run(EMPTY, requests);
    var key := (rep, l.rows[rep].generation);
    RunsKeepBridge(requests);
    SoundIsAccepted(l);
    CountIsOpenBans(l, Gone(requests), rep);
    var lost := Lost(l, key, Gone(requests));
    assert lost == {} <==> |lost| == 0;
    if id :| id in lost {
      GoneWasErased(requests, id);
    }
    if LiveBanErased(requests, rep) {
      var n, id :| 0 <= n < |requests| && ErasedAt(requests, n, id)
                   && id in l.place && l.place[id] == key && LiveEvent(l, id);
      GoneWasErased(requests, id);
      assert id in lost;
    }
  }

  lemma {:induction false} SoundIsAccepted(l: Ledger)
    requires Sound(l)
    ensures Accepted(l)
  {
  }

  /** A first registration, the account, its ban, and its erasure. */
  function BanAndErase(
    ring: Keyring, phone: string, user: Id, call: Call, ids: (Id, Id, Id, Id), pair: (Id, Id)): seq<Request>
  {
    [Ensure(ring, phone, call.now, ids), IdentifyUser(user, phone), BanUser(ring, user, call, pair),
     EraseUser(user, true)]
  }

  lemma {:induction false} FirstRow(ring: Keyring, phone: string, now: int, ids: (Id, Id, Id, Id))
    requires Fresh(EMPTY, Ensure(ring, phone, now, ids))
    ensures var l := After(EMPTY, Ensure(ring, phone, now, ids));
      && l.rows == map[ids.0 := Row(ring.activeLookup, phone, ring.activeEncryption, 1, 0, Normal, None, None)]
      && l.ops.Keys == {ids.1} && l.place.Keys == {ids.2, ids.3}
      && l.phones == map[] && l.bans == map[] && l.suspended == {}
  {
    assert Found(EMPTY, ring, phone) == {};
    var l := After(EMPTY, Ensure(ring, phone, now, ids));
    forall id ensures id in l.place <==> id in {ids.2, ids.3} {
      var call := Call(ids.1, Actor("system", "cueflow-auth"), "first_registration", now);
      var events := [EventOf(ids.2, 1, call, Change(StatusStarted)),
                     EventOf(ids.3, 2, call, Sanction(SanctionStarted))];
      assert l.place == PlaceAll(map[], events, (ids.0, 1));
      Placed(map[], events, (ids.0, 1), id);
      assert events[0].id == ids.2 && events[1].id == ids.3;
    }
  }

  /** The ban of the only user of the only row. */
  lemma {:induction false} FirstBan(l: Ledger, ring: Keyring, rep: Id, user: Id, call: Call, pair: (Id, Id))
    requires Sound(l) && RingOk(ring) && Fresh(l, BanUser(ring, user, call, pair)) && l.rows.Keys == {rep}
    requires l.rows[rep].keyId == ring.activeLookup && l.rows[rep].encryptionKeyId == ring.activeEncryption
    requires user in l.phones && l.phones[user] == l.rows[rep].phone && l.bans == map[]
    requires call.opId !in l.ops && ValidReason(call.reason)
    ensures var after := After(l, BanUser(ring, user, call, pair));
      && after.rows == map[rep := BannedRow(l.rows[rep], call.now)]
      && after.bans == map[pair.0 := Ban(user, rep, false)]
      && after.phones == l.phones && user in after.suspended && LiveBan(after, user)
  {
    hide Accepts, ValidReason, Carries;
    var phone := l.phones[user];
    LookupIsSafe(l, ring, phone);
    OnlyTheKeyObstructs(l, ring, phone);
    assert RequireRow(l, ring, phone) == Ok(rep);
    BanStep(l, ring, rep, user, call, pair);
    var after := After(l, BanUser(ring, user, call, pair));
    assert after == BanRow(l, ring, rep, user, call, pair).value;
    assert pair.0 in after.bans;
  }

  /** Erasing a banned account leaves the count of its phone, and no bridge row: the two need not agree. */
  lemma {:induction false} EraseLosesTheBan(
    ring: Keyring, phone: string, user: Id, call: Call, ids: (Id, Id, Id, Id), pair: (Id, Id))
    requires RingOk(ring) && ValidReason(call.reason) && call.opId != ids.1
    requires ids.2 != ids.3 && pair.0 != pair.1 && {pair.0, pair.1} !! {ids.2, ids.3}
    ensures var requests := BanAndErase(ring, phone, user, call, ids, pair);
      var l := Run(EMPTY, requests);
      && AllFresh(EMPTY, requests)
      && ids.0 in l.rows && l.rows[ids.0].count == 1 && Open(l, (ids.0, l.rows[ids.0].generation)) == {}
  {
    hide Accepts, ValidReason, Sound, Perform, LiveBan;
    var requests := BanAndErase(ring, phone, user, call, ids, pair);
    assert requests[..0] == [] && requests[..1] == [] + [requests[0]] && requests[..2] == requests[..1] + [requests[1]];
    assert requests[..3] == requests[..2] + [requests[2]] && requests == requests[..3] + [requests[3]];
    RunAppend([], requests[0]);
    RunAppend(requests[..1], requests[1]);
    RunAppend(requests[..2], requests[2]);
    RunAppend(requests[..3], requests[3]);
    FirstRow(ring, phone, call.now, ids);
    var l := Run(EMPTY, requests[..1]);
    FirstIdentity(l, user, phone);
    RunsAreSound([]);
    StepIsSound(EMPTY, requests[0]);
    StepIsSound(l, requests[1]);
    FirstBan(Run(EMPTY, requests[..2]), ring, ids.0, user, call, pair);
    LastErasure(Run(EMPTY, requests[..3]), user);
  }

  lemma {:induction false} FirstIdentity(l: Ledger, user: Id, phone: string)
    requires l.phones == map[]
    ensures After(l, IdentifyUser(user, phone)) == l.(phones := map[user := phone])
  {
  }

  lemma {:induction false} LastErasure(l: Ledger, user: Id)
    requires user in l.phones && user in l.suspended && LiveBan(l, user)
    requires forall b :: b in l.bans ==> l.bans[b].user == user
    ensures After(l, EraseUser(user, true)).bans == map[] && After(l, EraseUser(user, true)).rows == l.rows
  {
  }

  lemma {:induction false} RunAppend(requests: seq<Request>, r: Request)
    ensures Run(EMPTY, requests + [r]) == After(Run(EMPTY, requests), r)
  {
    assert (requests + [r])[..|requests|] == requests;
  }
}
