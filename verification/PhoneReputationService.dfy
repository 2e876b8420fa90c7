/** PhoneReputationService of src/cueflow/phone_reputation.py: its transactions update the tables in place. */
module PhoneReputationService {
  import opened Outcomes
  import opened PhoneReputation

  /** What every operation promises: the specified tables, or the specified error and no change. */
  predicate Does(before: Ledger, spec: Result<Ledger>, after: Ledger, r: Result<()>) {
    match spec
    case Ok(expected) => r == Ok(()) && after == expected
    case Err(e) => r == Err(e) && after == before
  }

  class Service {
    var rows: map<Id, Row>
    var ops: map<Id, Operation>
    var log: map<Key, seq<Event>>
    var place: map<Id, Key>
    var phones: map<Id, string>
    var bans: map<Id, Ban>
    var suspended: set<Id>

    /** The tables as one value. */
    function View(): Ledger
      reads this
    {
      Ledger(rows, ops, log, place, phones, bans, suspended)
    }

    constructor ()
      ensures View() == Ledger(map[], map[], map[], map[], map[], map[], {})
    {
      rows, ops, log, place := map[], map[], map[], map[];
      phones, bans, suspended := map[], map[], {};
    }

    method Rollback(saved: Ledger)
      modifies this
      ensures View() == saved
    {
      rows, ops, log, place := saved.rows, saved.ops, saved.log, saved.place;
      phones, bans, suspended := saved.phones, saved.bans, saved.suspended;
    }

    // ----- validate_one -----

    /** The replay loop over one generation. */
    method ReplayGeneration(events: seq<Event>) returns (r: Replay)
      ensures r == ReplayOf(events)
    {
      var count, status, blockedAt, lastBanAt := 0, Normal, None, None;
      var seenApplied: set<Id>, seenOverturned: set<Id> := {}, {};
      var index := 0;
      while index < |events|
        invariant 0 <= index <= |events|
        invariant ReplayOf(events[..index])
                  == Replayed(count, status, blockedAt, lastBanAt, seenApplied, seenOverturned)
      {
        var e := events[index];
        ghost var past := events[..index];
        assert events[..index + 1][..index] == past;
        var ok := true;
        match e.detail {
          case Sanction(SanctionStarted) =>
            ok := index == 1;
          case Sanction(BanApplied) =>
            count, lastBanAt, seenApplied := count + 1, Some(e.createdAt), seenApplied + {e.id};
          case Sanction(BanOverturned(target)) =>
            ok := target in seenApplied && target !in seenOverturned && count - 1 >= 0;
            count, seenOverturned := count - 1, seenOverturned + {target};
          case Change(StatusStarted) =>
            ok := index == 0;
          case Change(change) =>
            ok := change.From() == Some(status);
            status := change.To();
            blockedAt := if status == Blocked then Some(e.createdAt) else None;
        }
        if !ok {
          RejectedStays(events, index + 1);
          return Rejected;
        }
        index := index + 1;
      }
      assert events[..index] == events;
      return Replayed(count, status, blockedAt, lastBanAt, seenApplied, seenOverturned);
    }

    method OperationsComplete(rep: Id) returns (ok: bool)
      ensures ok <==> forall opId :: opId in ops && ops[opId].rep == rep ==> OpComplete(View(), opId)
    {
      var operations := set opId | opId in ops && ops[opId].rep == rep;
      while operations != {}
        invariant forall opId :: opId in operations ==> opId in ops && ops[opId].rep == rep
        invariant forall opId :: opId in ops && ops[opId].rep == rep && opId !in operations ==> OpComplete(View(), opId)
        decreases operations
      {
        var opId :| opId in operations;
        if !OpComplete(View(), opId) {
          return false;
        }
        operations := operations - {opId};
      }
      return true;
    }

    method GenerationsSound(rep: Id) returns (ok: bool)
      requires rep in rows
      ensures ok <==> forall key :: key in log && key.0 == rep ==>
          GenerationOk(View(), key) && ReplayOf(log[key]).Replayed?
    {
      var generations := set key | key in log && key.0 == rep;
      while generations != {}
        invariant forall key :: key in generations ==> key in log && key.0 == rep
        invariant forall key :: key in log && key.0 == rep && key !in generations ==>
                    GenerationOk(View(), key) && ReplayOf(log[key]).Replayed?
        decreases generations
      {
        var key :| key in generations;
        var r := ReplayGeneration(log[key]);
        if !GenerationOk(View(), key) || r.Rejected? {
          return false;
        }
        generations := generations - {key};
      }
      return true;
    }

    /** validate_one: the keys of the row first, then its ledger. */
    method ValidateOne(ring: Keyring, rep: Id) returns (e: Option<Error>)
      ensures e == Validate(View(), ring, rep)
    {
      if rep !in rows {
        return Some(IntegrityError);
      }
      if rows[rep].encryptionKeyId !in ring.encryption {
        return Some(IntegrityError);
      }
      if rows[rep].keyId !in ring.lookup {
        return Some(ContractError);
      }
      var accepted := ValidateLedger(rep);
      return if accepted then None else Some(IntegrityError);
    }

    method ValidateLedger(rep: Id) returns (ok: bool)
      requires rep in rows
      ensures ok <==> Accepts(View(), rep)
    {
      var complete := OperationsComplete(rep);
      if !complete {
        return false;
      }
      var sound := GenerationsSound(rep);
      if !sound {
        return false;
      }
      var current := (rep, rows[rep].generation);
      if current !in log || log[current] == [] {
        return false;
      }
      var r := ReplayGeneration(log[current]);
      return Matches(rows[rep], r);
    }

    // ----- lookup -----

    /** One lookup per key that this process holds; a second hit under another key is an integrity error. */
    method Find(ring: Keyring, phone: string) returns (r: Result<Option<Id>>)
      ensures r == FindByPhone(View(), ring, phone)
    {
      var untried := ring.lookup;
      var matches: set<Id> := {};
      while untried != {}
        invariant untried <= ring.lookup
        invariant matches == set rep | rep in rows && rows[rep].phone == phone
                                       && rows[rep].keyId in ring.lookup - untried
        decreases untried
      {
        var keyId :| keyId in untried;
        matches := matches + set rep | rep in rows && rows[rep].phone == phone && rows[rep].keyId == keyId;
        untried := untried - {keyId};
      }
      assert matches == Found(View(), ring, phone);
      if matches == {} {
        return Ok(None);
      }
      if |matches| != 1 {
        return Err(IntegrityError);
      }
      var rep := TheOne(matches);
      var failed := ValidateOne(ring, rep);
      return if failed.None? then Ok(Some(rep)) else Err(failed.value);
    }

    method Require(ring: Keyring, phone: string) returns (r: Result<Id>)
      ensures r == RequireRow(View(), ring, phone)
    {
      var found := Find(ring, phone);
      match found
      case Err(e) => return Err(e);
      case Ok(None) => return Err(AccountNotFoundError);
      case Ok(Some(rep)) => return Ok(rep);
    }

    // ----- writing -----

    method InsertOperation(opId: Id, op: Operation)
      modifies this`ops
      ensures ops == old(ops)[opId := op]
    {
      ops := ops[opId := op];
    }

    /** Appends one event to its generation and to the primary-key index. */
    method AppendHead(key: Key, e: Event)
      modifies this`log, this`place
      ensures log == old(log)[key := Events(old(View()), key) + [e]]
      ensures place == old(place)[e.id := key]
    {
      log := log[key := (if key in log then log[key] else []) + [e]];
      place := place[e.id := key];
    }

    /** Inserts the operation and its events, in order; the projection is the caller's to update. */
    method Write(opId: Id, op: Operation, events: seq<Event>)
      requires |events| <= 2
      modifies this`ops, this`log, this`place
      ensures ops == old(ops)[opId := op]
      ensures log == if events == [] then old(log)
                     else old(log)[(op.rep, op.generation) := Events(old(View()), (op.rep, op.generation)) + events]
      ensures place == PlaceAll(old(place), events, (op.rep, op.generation))
    {
      var key := (op.rep, op.generation);
      InsertOperation(opId, op);
      ghost var before := Events(View(), key);
      if |events| == 1 {
        assert events == [events[0]] && events[..0] == [];
        AppendHead(key, events[0]);
      } else if |events| == 2 {
        assert events == [events[0]] + [events[1]] && events[..1] == [events[0]] && events[..1][..0] == [];
        AppendHead(key, events[0]);
        AppendHead(key, events[1]);
        assert PlaceAll(old(place), [events[0]], key) == old(place)[events[0].id := key];
        assert before + events == (before + [events[0]]) + [events[1]];
      }
    }

    /** _reload_value: keeps the transaction when validate_one accepts it, and rolls it back otherwise. */
    method Commit(ring: Keyring, rep: Id, saved: Ledger) returns (r: Result<()>)
      modifies this
      ensures Does(saved, Reload(old(View()), ring, rep), View(), r)
    {
      var failed := ValidateOne(ring, rep);
      if failed.Some? {
        Rollback(saved);
        return Err(failed.value);
      }
      return Ok(());
    }

    // ----- the operations -----

    method EnsurePhone(ring: Keyring, phone: string, now: int, ids: (Id, Id, Id, Id)) returns (r: Result<()>)
      modifies this
      ensures Does(old(View()), PhoneReputation.EnsurePhone(old(View()), ring, phone, now, ids), View(), r)
    {
      var found := Find(ring, phone);
      if found.Err? {
        return Err(found.error);
      }
      if found.value.Some? {
        return Ok(());
      }
      if exists rep :: rep in rows && rows[rep].keyId !in ring.lookup {
        return Err(IntegrityError);
      }
      if exists rep :: rep in rows && rows[rep].encryptionKeyId !in ring.encryption {
        return Err(IntegrityError);
      }
      var again := Find(ring, phone);
      var (rep, opId, first, second) := ids;
      var call := Call(opId, Actor("system", "cueflow-auth"), "first_registration", now);
      rows := rows[rep := Row(ring.activeLookup, phone, ring.activeEncryption, 1, 0, Normal, None, None)];
      Write(opId, OpOf(rep, 1, GenerationStarted, call, [rep, "1", "generation_started"], 1, 1),
            [EventOf(first, 1, call, Change(StatusStarted)), EventOf(second, 2, call, Sanction(SanctionStarted))]);
      return Ok(());
    }

    /** A known operation id: refused when the request differs, else answered after validation. */
    method Answer(ring: Keyring, rep: Id, call: Call, fingerprint: seq<string>) returns (r: Result<()>)
      requires call.opId in ops
      ensures r == match Repeat(View(), ring, rep, call, fingerprint) case Ok(_) => Ok(()) case Err(e) => Err(e)
    {
      if ops[call.opId].fingerprint != fingerprint {
        return Err(ContractError);
      }
      var failed := ValidateOne(ring, rep);
      return if failed.None? then Ok(()) else Err(failed.value);
    }

    method AdministrativeBlock(ring: Keyring, phone: string, call: Call, event: Id) returns (r: Result<()>)
      modifies this
      ensures Does(old(View()), Block(old(View()), ring, phone, call, event), View(), r)
    {
      hide Accepts, ValidReason;
      var required := Require(ring, phone);
      if required.Err? {
        return Err(required.error);
      }
      var rep := required.value;
      var row, fingerprint := rows[rep], [rep, "administrative_block", call.reason];
      if call.opId in ops {
        r := Answer(ring, rep, call, fingerprint);
        return;
      }
      if !ValidReason(call.reason) {
        return Err(ContractError);
      }
      var saved := View();
      if row.status == Blocked {
        Write(call.opId, OpOf(rep, row.generation, Kind.AdministrativeBlock, call, fingerprint, 0, 0), []);
        assert rows[rep := row] == rows;
        return Ok(());
      }
      var next := NextSequence(Events(View(), (rep, row.generation)));
      Write(call.opId, OpOf(rep, row.generation, Kind.AdministrativeBlock, call, fingerprint, 0, 1),
            [EventOf(event, next, call, Change(PhoneBlocked(None)))]);
      rows := rows[rep := row.(status := Blocked, blockedAt := Some(call.now))];
      r := Commit(ring, rep, saved);
    }

    method AdministrativeUnblock(ring: Keyring, phone: string, call: Call, event: Id) returns (r: Result<()>)
      modifies this
      ensures Does(old(View()), Unblock(old(View()), ring, phone, call, event), View(), r)
    {
      hide Accepts, ValidReason;
      var required := Require(ring, phone);
      if required.Err? {
        return Err(required.error);
      }
      var rep := required.value;
      var row, fingerprint := rows[rep], [rep, "administrative_unblock", call.reason];
      if call.opId in ops {
        r := Answer(ring, rep, call, fingerprint);
        return;
      }
      if !ValidReason(call.reason) {
        return Err(ContractError);
      }
      var saved := View();
      var expected := if row.status == Blocked then 1 else 0;
      var op := OpOf(rep, row.generation, Kind.AdministrativeUnblock, call, fingerprint, 0, expected);
      if expected == 1 {
        var next := NextSequence(Events(View(), (rep, row.generation)));
        Write(call.opId, op, [EventOf(event, next, call, Change(PhoneUnblocked(None)))]);
        rows := rows[rep := row.(status := Normal, blockedAt := None)];
      } else {
        Write(call.opId, op, []);
        assert rows[rep := row] == rows;
      }
      r := Commit(ring, rep, saved);
    }

    /** Counts the ban on the projection row and suspends the user. */
    method Punish(rep: Id, user: Id, ban: Id, now: int, block: bool)
      requires rep in rows && (block <==> BanBlocks(rows[rep]))
      modifies this`rows, this`bans, this`suspended
      ensures rows == old(rows)[rep := BannedRow(old(rows)[rep], now)]
      ensures bans == old(bans)[ban := Ban(user, rep, false)] && suspended == old(suspended) + {user}
    {
      var row := rows[rep];
      rows := rows[rep := row.(count := row.count + 1, status := if block then Blocked else row.status,
                               blockedAt := if block then Some(now) else row.blockedAt, lastBanAt := Some(now))];
      bans := bans[ban := Ban(user, rep, false)];
      suspended := suspended + {user};
    }

    /** apply_qualifying_ban once the row is known and the operation id is new. */
    method BanPhone(ring: Keyring, rep: Id, user: Id, call: Call, ids: (Id, Id)) returns (r: Result<()>)
      requires rep in rows
      modifies this
      ensures Does(old(View()), BanRow(old(View()), ring, rep, user, call, ids), View(), r)
    {
      hide Accepts, LiveBan, ValidReason;
      if LiveBan(View(), user) {
        return Err(AccountStateError);
      }
      if !ValidReason(call.reason) {
        return Err(ContractError);
      }
      var saved := View();
      var row, fingerprint := rows[rep], [user, rep, "qualifying_ban", call.reason];
      var shouldBlock := BanBlocks(row);
      var events := BanEvents(NextSequence(Events(View(), (rep, row.generation))), row, call, ids);
      Write(call.opId, OpOf(rep, row.generation, QualifyingBan, call, fingerprint, 1, if shouldBlock then 1 else 0),
            events);
      Punish(rep, user, ids.0, call.now, shouldBlock);
      r := Commit(ring, rep, saved);
    }

    method ApplyQualifyingBan(ring: Keyring, user: Id, call: Call, ids: (Id, Id)) returns (r: Result<()>)
      modifies this
      ensures Does(old(View()), ApplyBan(old(View()), ring, user, call, ids), View(), r)
    {
      if user !in phones {
        return Err(AccountStateError);
      }
      var required := Require(ring, phones[user]);
      if required.Err? {
        return Err(required.error);
      }
      var rep := required.value;
      if call.opId in ops {
        r := Answer(ring, rep, call, [user, rep, "qualifying_ban", call.reason]);
        return;
      }
      r := BanPhone(ring, rep, user, call, ids);
    }

    /** Marks the ban overturned and, in the current generation, takes it out of the projection. */
    method Reverse(key: Key, target: Id, unblock: bool)
      requires key.0 in rows
      modifies this`rows, this`bans
      ensures bans == OverturnedBans(old(bans), target)
      ensures rows == old(rows)[key.0 := OverturnedRow(old(rows)[key.0], key.1 == old(rows)[key.0].generation, unblock)]
    {
      if target in bans {
        bans := bans[target := bans[target].(overturned := true)];
      }
      var (rep, generation) := key;
      var row := rows[rep];
      if generation == row.generation {
        rows := rows[rep := row.(count := row.count - 1, status := if unblock then Normal else row.status,
                                 blockedAt := if unblock then None else row.blockedAt)];
      } else {
        assert rows[rep := row] == rows;
      }
    }

    /** overturn_qualifying_ban once its target is found and the operation id is new. */
    method OverturnBan(ring: Keyring, key: Key, target: Id, call: Call, ids: (Id, Id)) returns (r: Result<()>)
      requires key.0 in rows
      modifies this
      ensures Does(old(View()), OverturnAt(old(View()), ring, key, target, call, ids), View(), r)
    {
      hide Accepts, AlreadyOverturned, ValidReason;
      if AlreadyOverturned(View(), target) {
        return Err(AccountStateError);
      }
      if !ValidReason(call.reason) {
        return Err(ContractError);
      }
      var saved := View();
      var (rep, generation) := key;
      var row, fingerprint, events := rows[rep], [target, "overturn", call.reason], Events(View(), key);
      var shouldUnblock := OverturnUnblocks(row, generation, events, target);
      var next := NextSequence(events);
      var more := OverturnEvents(shouldUnblock, next, target, call, ids);
      Write(call.opId, OpOf(rep, generation, OverturnSanction, call, fingerprint, 1, if shouldUnblock then 1 else 0),
            more);
      Reverse(key, target, shouldUnblock);
      r := Commit(ring, rep, saved);
    }

    method OverturnQualifyingBan(ring: Keyring, target: Id, call: Call, ids: (Id, Id)) returns (r: Result<()>)
      modifies this
      ensures Does(old(View()), Overturn(old(View()), ring, target, call, ids), View(), r)
    {
      if target !in place {
        return Err(AccountNotFoundError);
      }
      var key := place[target];
      var found := EventWith(Events(View(), key), target);
      if found.None? || found.value.detail != Sanction(BanApplied) {
        return Err(AccountNotFoundError);
      }
      if key.0 !in rows {
        return Err(IntegrityError);
      }
      if call.opId in ops {
        r := Answer(ring, key.0, call, [target, "overturn", call.reason]);
        return;
      }
      r := OverturnBan(ring, key, target, call, ids);
    }

    /** reset_for_reassignment once the row is known and the operation id is new. */
    method StartGeneration(ring: Keyring, rep: Id, call: Call, ids: (Id, Id)) returns (r: Result<()>)
      requires rep in rows
      modifies this
      ensures Does(old(View()), ResetRow(old(View()), ring, rep, call, ids), View(), r)
    {
      hide Accepts, ValidReason;
      if !ValidReason(call.reason) {
        return Err(ContractError);
      }
      var saved := View();
      var row, fingerprint := rows[rep], [rep, "phone_reassignment", call.reason];
      var generation := row.generation + 1;
      Write(call.opId, OpOf(rep, generation, PhoneReassignment, call, fingerprint, 1, 1),
            [EventOf(ids.0, 1, call, Change(StatusStarted)), EventOf(ids.1, 2, call, Sanction(SanctionStarted))]);
      rows := rows[rep :=
        row.(generation := generation, count := 0, status := Normal, blockedAt := None, lastBanAt := None)];
      r := Commit(ring, rep, saved);
    }

    method ResetForReassignment(ring: Keyring, phone: string, call: Call, ids: (Id, Id)) returns (r: Result<()>)
      modifies this
      ensures Does(old(View()), Reset(old(View()), ring, phone, call, ids), View(), r)
    {
      if exists user :: user in phones && phones[user] == phone {
        return Err(AccountStateError);
      }
      var required := Require(ring, phone);
      if required.Err? {
        return Err(required.error);
      }
      var rep := required.value;
      if call.opId in ops {
        r := Answer(ring, rep, call, [rep, "phone_reassignment", call.reason]);
        return;
      }
      r := StartGeneration(ring, rep, call, ids);
    }

    // ----- accounts -----

    /** The part of an account erasure that the ledger sees. */
    method EraseAccount(user: Id, dedicated: bool) returns (r: Result<()>)
      modifies this
      ensures Does(old(View()), Erase(old(View()), user, dedicated), View(), r)
    {
      if user !in phones {
        return Err(AccountNotFoundError);
      }
      if dedicated && (user !in suspended || !LiveBan(View(), user)) {
        return Err(AccountStateError);
      }
      if !dedicated && user in suspended {
        return Err(AccountStateError);
      }
      bans := map b | b in bans && bans[b].user != user :: bans[b];
      phones, suspended := phones - {user}, suspended - {user};
      assert bans == old(View()).bans - BansOf(old(View()), user);
      return Ok(());
    }
  }

  lemma {:induction false} RejectedStays(events: seq<Event>, n: nat)
    requires n <= |events| && ReplayOf(events[..n]).Rejected?
    ensures ReplayOf(events).Rejected?
    decreases |events| - n
  {
    if n < |events| {
      assert events[..n + 1][..n] == events[..n];
      RejectedStays(events, n + 1);
    } else {
      assert events[..n] == events;
    }
  }
}
