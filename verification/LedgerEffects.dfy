/**
 * What each operation on the phone ledger does and when it is refused, told by rows and events
 * (src/cueflow/phone_reputation.py).
 */
module LedgerEffects {
  import opened Outcomes
  import opened PhoneReputation
  import opened LedgerSoundness
  import opened LedgerRuns

  // ----- what an accepted operation writes -----

  /** A new event of this call. */
  ghost predicate WrittenBy(e: Event, call: Call, detail: Detail) {
    && e.detail == detail && e.operationId == call.opId && e.actor == call.actor
    && e.reason == call.reason && e.createdAt == call.now
  }

  /** One operation changed one row, and appended these events, in this order, to one generation. */
  ghost predicate Wrote(l: Ledger, after: Ledger, key: Key, row: Row, kind: Kind, call: Call, details: seq<Detail>) {
    && after.rows == l.rows[key.0 := row]
    && after.ops.Keys == l.ops.Keys + {call.opId} && after.ops[call.opId].kind == kind
    && after.ops[call.opId].rep == key.0 && after.ops[call.opId].generation == key.1
    && (forall id :: id in l.ops && id != call.opId ==> after.ops[id] == l.ops[id])
    && Events(l, key) <= Events(after, key) && |Events(after, key)| == |Events(l, key)| + |details|
    && (forall i :: 0 <= i < |details| ==> WrittenBy(Events(after, key)[|Events(l, key)| + i], call, details[i]))
    && (forall other :: other != key ==> Events(after, other) == Events(l, other))
    && after.phones == l.phones
  }

  lemma {:induction false} RecordWrites(
    l: Ledger, op: Operation, row: Row, events: seq<Event>, call: Call, details: seq<Detail>)
    requires |events| == |details| && forall i :: 0 <= i < |events| ==> WrittenBy(events[i], call, details[i])
    ensures Wrote(l, Record(l, call.opId, op, row, events), (op.rep, op.generation), row, op.kind, call, details)
  {
    var after, key := Record(l, call.opId, op, row, events), (op.rep, op.generation);
    forall other ensures Events(after, other) == Events(l, other) + if other == key then events else [] {
      OtherEvents(l, call.opId, op, row, events, other);
    }
    forall other | other != key ensures Events(after, other) == Events(l, other) {
      assert Events(l, other) + [] == Events(l, other);
    }
  }

  /** Tables of the accounts apart, two ledgers are the same. */
  lemma {:induction false} AccountsApart(
    l: Ledger, mid: Ledger, bans: map<Id, Ban>, suspended: set<Id>, key: Key, row: Row, kind: Kind, call: Call,
    details: seq<Detail>)
    requires Wrote(l, mid, key, row, kind, call, details)
    ensures Wrote(l, mid.(bans := bans, suspended := suspended), key, row, kind, call, details)
  {
    var after := mid.(bans := bans, suspended := suspended);
    assert forall other :: Events(after, other) == Events(mid, other);
  }

  // ----- the last status event -----

  /** The status event that no later event of the stream follows. */
  ghost predicate LastStatus(events: seq<Event>, i: nat) {
    i < |events| && events[i].detail.Change? && forall m :: i < m < |events| ==> !events[m].detail.Change?
  }

  ghost predicate BlockedLastBy(events: seq<Event>, target: Id) {
    exists i: nat :: LastStatus(events, i) && events[i].detail == Change(PhoneBlocked(Some(target)))
  }

  lemma {:induction false} LastChangeIs(events: seq<Event>, target: Id)
    ensures LastChange(events) == Some(PhoneBlocked(Some(target))) <==> BlockedLastBy(events, target)
  {
    if events != [] {
      var n := |events| - 1;
      LastChangeIs(events[..n], target);
      if events[n].detail.Change? {
        assert LastStatus(events, n);
      } else {
        if i: nat :| LastStatus(events[..n], i) && events[..n][i].detail == Change(PhoneBlocked(Some(target))) {
          assert LastStatus(events, i);
        }
        if i: nat :| LastStatus(events, i) && events[i].detail == Change(PhoneBlocked(Some(target))) {
          assert LastStatus(events[..n], i) && events[..n][i] == events[i];
        }
      }
    }
  }

  // ----- overturns -----

  /** What an overturn makes of the row: an old generation is history, a current one loses the ban. */
  ghost predicate Overturns(row: Row, after: Row, current: bool, blockedByIt: bool) {
    if !current then after == row
    else if blockedByIt then after == row.(count := row.count - 1, status := Normal, blockedAt := None)
    else after == row.(count := row.count - 1)
  }

  /**
   * An accepted overturn unblocks the phone exactly when the last status event of the current generation is the block
   * that its own ban caused; an administrative block, or one by another ban, stays.
   */
  lemma {:induction false} OverturnDecides(l: Ledger, ring: Keyring, target: Id, call: Call, ids: (Id, Id))
    requires call.opId !in l.ops && Overturn(l, ring, target, call, ids).Ok?
    ensures target in l.place && l.place[target].0 in l.rows
    ensures var key, after := l.place[target], Overturn(l, ring, target, call, ids).value;
      var current, blockedByIt := key.1 == l.rows[key.0].generation, BlockedLastBy(Events(l, key), target);
      && key.0 in after.rows && Overturns(l.rows[key.0], after.rows[key.0], current, blockedByIt)
      && Wrote(l, after, key, after.rows[key.0], OverturnSanction, call,
               if current && blockedByIt then [Sanction(BanOverturned(target)), Change(PhoneUnblocked(Some(target)))]
               else [Sanction(BanOverturned(target))])
      && after.suspended == l.suspended && after.bans.Keys == l.bans.Keys
      && (forall b :: b in l.bans ==>
            after.bans[b] == if b == target then l.bans[b].(overturned := true) else l.bans[b])
  {
    hide Accepts, ValidReason, AlreadyOverturned, EventWith, LastChange, BlockedLastBy, Wrote;
    var key := l.place[target];
    var row, events := l.rows[key.0], Events(l, key);
    LastChangeIs(events, target);
    var unblock := OverturnUnblocks(row, key.1, events, target);
    var row' := OverturnedRow(row, key.1 == row.generation, unblock);
    var more := OverturnEvents(unblock, NextSequence(events), target, call, ids);
    var fingerprint := [target, "overturn", call.reason];
    var op := OpOf(key.0, key.1, OverturnSanction, call, fingerprint, 1, if unblock then 1 else 0);
    var details := if unblock then [Sanction(BanOverturned(target)), Change(PhoneUnblocked(Some(target)))]
                   else [Sanction(BanOverturned(target))];
    RecordWrites(l, op, row', more, call, details);
    var mid := Record(l, call.opId, op, row', more);
    AccountsApart(l, mid, OverturnedBans(l.bans, target), l.suspended, key, row', OverturnSanction, call, details);
    assert mid.(bans := OverturnedBans(l.bans, target), suspended := l.suspended)
           == mid.(bans := OverturnedBans(l.bans, target));
    assert Overturn(l, ring, target, call, ids).value == mid.(bans := OverturnedBans(l.bans, target));
  }

  // ----- blocks, unblocks, bans, and reassignments -----

  /** A block leaves the phone blocked; one that was blocked keeps the time and gets no event. */
  ghost predicate Blocks(l: Ledger, after: Ledger, rep: Id, call: Call)
    requires rep in l.rows
  {
    var row := l.rows[rep];
    && after.bans == l.bans && after.suspended == l.suspended
    && Wrote(l, after, (rep, row.generation),
             if row.status == Blocked then row else row.(status := Blocked, blockedAt := Some(call.now)),
             AdministrativeBlock, call, if row.status == Blocked then [] else [Change(PhoneBlocked(None))])
  }

  /** An unblock leaves the phone normal, whatever blocked it. */
  ghost predicate Unblocks(l: Ledger, after: Ledger, rep: Id, call: Call)
    requires rep in l.rows
  {
    var row := l.rows[rep];
    && after.bans == l.bans && after.suspended == l.suspended
    && Wrote(l, after, (rep, row.generation),
             if row.status == Normal then row else row.(status := Normal, blockedAt := None),
             AdministrativeUnblock, call, if row.status == Normal then [] else [Change(PhoneUnblocked(None))])
  }

  /** A ban counts, suspends its user, opens a bridge row, and blocks a normal phone from the third one on. */
  ghost predicate Bans(l: Ledger, after: Ledger, rep: Id, user: Id, call: Call, id: Id)
    requires rep in l.rows
  {
    var row := l.rows[rep];
    var third := row.status == Normal && row.count >= 2;
    && after.suspended == l.suspended + {user} && after.bans == l.bans[id := Ban(user, rep, false)]
    && Wrote(l, after, (rep, row.generation),
             row.(count := row.count + 1, lastBanAt := Some(call.now), status := if third then Blocked else row.status,
                  blockedAt := if third then Some(call.now) else row.blockedAt),
             QualifyingBan, call,
             if third then [Sanction(BanApplied), Change(PhoneBlocked(Some(id)))] else [Sanction(BanApplied)])
  }

  /** A reassignment starts the next generation with an empty history, and keeps the old one. */
  ghost predicate StartsAnew(l: Ledger, after: Ledger, rep: Id, call: Call)
    requires rep in l.rows
  {
    var row := l.rows[rep];
    && after.bans == l.bans && after.suspended == l.suspended
    && Wrote(l, after, (rep, row.generation + 1),
             row.(generation := row.generation + 1, count := 0, status := Normal, blockedAt := None, lastBanAt := None),
             PhoneReassignment, call, [Change(StatusStarted), Sanction(SanctionStarted)])
  }

  lemma {:induction false} BlockBlocks(l: Ledger, ring: Keyring, phone: string, call: Call, event: Id)
    requires call.opId !in l.ops && Block(l, ring, phone, call, event).Ok?
    ensures exists rep ::
              rep in Found(l, ring, phone) && Blocks(l, Block(l, ring, phone, call, event).value, rep, call)
  {
    hide Accepts, ValidReason, Wrote;
    var rep := RequireRow(l, ring, phone).value;
    var row, fingerprint := l.rows[rep], [rep, "administrative_block", call.reason];
    if row.status == Blocked {
      RecordWrites(l, OpOf(rep, row.generation, AdministrativeBlock, call, fingerprint, 0, 0), row, [], call, []);
    } else {
      var next := NextSequence(Events(l, (rep, row.generation)));
      RecordWrites(l, OpOf(rep, row.generation, AdministrativeBlock, call, fingerprint, 0, 1),
                   row.(status := Blocked, blockedAt := Some(call.now)),
                   [EventOf(event, next, call, Change(PhoneBlocked(None)))], call, [Change(PhoneBlocked(None))]);
    }
  }

  lemma {:induction false} UnblockUnblocks(l: Ledger, ring: Keyring, phone: string, call: Call, event: Id)
    requires call.opId !in l.ops && Unblock(l, ring, phone, call, event).Ok?
    ensures exists rep ::
              rep in Found(l, ring, phone) && Unblocks(l, Unblock(l, ring, phone, call, event).value, rep, call)
  {
    hide Accepts, ValidReason, Wrote;
    var rep := RequireRow(l, ring, phone).value;
    var row, fingerprint := l.rows[rep], [rep, "administrative_unblock", call.reason];
    if row.status == Normal {
      RecordWrites(l, OpOf(rep, row.generation, AdministrativeUnblock, call, fingerprint, 0, 0), row, [], call, []);
    } else {
      var next := NextSequence(Events(l, (rep, row.generation)));
      RecordWrites(l, OpOf(rep, row.generation, AdministrativeUnblock, call, fingerprint, 0, 1),
                   row.(status := Normal, blockedAt := None),
                   [EventOf(event, next, call, Change(PhoneUnblocked(None)))], call, [Change(PhoneUnblocked(None))]);
    }
  }

  lemma {:induction false} BanTakesItsToll(l: Ledger, ring: Keyring, user: Id, call: Call, ids: (Id, Id))
    requires call.opId !in l.ops && ApplyBan(l, ring, user, call, ids).Ok?
    ensures user in l.phones
    ensures exists rep ::
              && rep in Found(l, ring, l.phones[user])
              && Bans(l, ApplyBan(l, ring, user, call, ids).value, rep, user, call, ids.0)
  {
    hide Accepts, ValidReason, LiveBan, Wrote;
    var rep := RequireRow(l, ring, l.phones[user]).value;
    var row, fingerprint := l.rows[rep], [user, rep, "qualifying_ban", call.reason];
    var key := (rep, row.generation);
    var events := BanEvents(NextSequence(Events(l, key)), row, call, ids);
    var op := OpOf(rep, row.generation, QualifyingBan, call, fingerprint, 1, if BanBlocks(row) then 1 else 0);
    var details := if BanBlocks(row) then [Sanction(BanApplied), Change(PhoneBlocked(Some(ids.0)))]
                   else [Sanction(BanApplied)];
    RecordWrites(l, op, BannedRow(row, call.now), events, call, details);
    AccountsApart(l, Record(l, call.opId, op, BannedRow(row, call.now), events), l.bans[ids.0 := Ban(user, rep, false)],
                  l.suspended + {user}, key, BannedRow(row, call.now), QualifyingBan, call, details);
  }

  lemma {:induction false} ResetStartsAnew(l: Ledger, ring: Keyring, phone: string, call: Call, ids: (Id, Id))
    requires call.opId !in l.ops && Reset(l, ring, phone, call, ids).Ok?
    ensures !HasOwner(l, phone)
    ensures exists rep ::
              rep in Found(l, ring, phone) && StartsAnew(l, Reset(l, ring, phone, call, ids).value, rep, call)
  {
    hide Accepts, ValidReason, Wrote;
    var rep := RequireRow(l, ring, phone).value;
    var row, fingerprint := l.rows[rep], [rep, "phone_reassignment", call.reason];
    RecordWrites(l, OpOf(rep, row.generation + 1, PhoneReassignment, call, fingerprint, 1, 1),
                 row.(generation := row.generation + 1, count := 0, status := Normal, blockedAt := None,
                      lastBanAt := None),
                 [EventOf(ids.0, 1, call, Change(StatusStarted)), EventOf(ids.1, 2, call, Sanction(SanctionStarted))],
                 call, [Change(StatusStarted), Sanction(SanctionStarted)]);
  }

  /** A first registration leaves a known phone alone, and writes a clean row under the active keys for a new one. */
  lemma {:induction false} EnsureWritesOnce(l: Ledger, ring: Keyring, phone: string, now: int, ids: (Id, Id, Id, Id))
    requires EnsurePhone(l, ring, phone, now, ids).Ok?
    ensures var after := EnsurePhone(l, ring, phone, now, ids).value;
      var call := Call(ids.1, Actor("system", "cueflow-auth"), "first_registration", now);
      if Found(l, ring, phone) != {} then after == l
      else Wrote(l, after, (ids.0, 1), Row(ring.activeLookup, phone, ring.activeEncryption, 1, 0, Normal, None, None),
                 GenerationStarted, call, [Change(StatusStarted), Sanction(SanctionStarted)])
           && after.bans == l.bans && after.suspended == l.suspended
  {
    hide Accepts, Wrote;
    if Found(l, ring, phone) == {} {
      var call := Call(ids.1, Actor("system", "cueflow-auth"), "first_registration", now);
      RecordWrites(l, OpOf(ids.0, 1, GenerationStarted, call, [ids.0, "1", "generation_started"], 1, 1),
                   Row(ring.activeLookup, phone, ring.activeEncryption, 1, 0, Normal, None, None),
                   [EventOf(ids.2, 1, call, Change(StatusStarted)), EventOf(ids.3, 2, call, Sanction(SanctionStarted))],
                   call, [Change(StatusStarted), Sanction(SanctionStarted)]);
    }
  }

  /** An erasure takes the identity, the suspension, and every ban row of the user, and nothing else. */
  lemma {:induction false} EraseTakesTheAccount(l: Ledger, user: Id, dedicated: bool)
    requires Erase(l, user, dedicated).Ok?
    ensures var after := Erase(l, user, dedicated).value;
      && user in l.phones && after.phones == l.phones - {user} && after.suspended == l.suspended - {user}
      && (forall b :: b in after.bans <==> b in l.bans && l.bans[b].user != user)
      && (forall b :: b in after.bans ==> after.bans[b] == l.bans[b])
      && after.rows == l.rows && after.log == l.log && after.ops == l.ops
    ensures dedicated <==> user in l.suspended
    ensures dedicated ==> exists b :: b in l.bans && l.bans[b].user == user && !l.bans[b].overturned
  {
  }

  // ----- when an operation is refused -----

  /** A known operation id must be for the same request; a new one needs a valid reason. */
  ghost predicate Refused(l: Ledger, call: Call, fingerprint: seq<string>) {
    if call.opId in l.ops then l.ops[call.opId].fingerprint != fingerprint else !ValidReason(call.reason)
  }

  /** A lookup finds one row, which the process can decrypt, or says why not. */
  lemma {:induction false} LookupAnswers(l: Ledger, ring: Keyring, phone: string)
    requires Accepted(l)
    ensures var r := RequireRow(l, ring, phone);
      && (r == Err(IntegrityError) <==> Obstructed(l, ring, phone))
      && (r == Err(AccountNotFoundError) <==> Found(l, ring, phone) == {})
      && (r.Err? ==> r.error == IntegrityError || r.error == AccountNotFoundError)
      && (r.Ok? ==> Found(l, ring, phone) == {r.value} && r.value in l.rows
                    && DecryptError(ring, l.rows[r.value]).None?)
  {
    hide Accepts;
    LookupIsSafe(l, ring, phone);
    RequireIsSafe(l, ring, phone);
    var found := Found(l, ring, phone);
    if RequireRow(l, ring, phone).Ok? {
      assert found == {TheOne(found)};
    }
  }

  /** An answer is an error of the lookup, a refusal of the request, or success. */
  ghost predicate Answers(
    l: Ledger, ring: Keyring, phone: string, call: Call, tag: string, prefix: seq<string>, r: Result<Ledger>)
  {
    if Obstructed(l, ring, phone) then r == Err(IntegrityError)
    else if Found(l, ring, phone) == {} then r == Err(AccountNotFoundError)
    else exists rep :: Found(l, ring, phone) == {rep} &&
           if Refused(l, call, prefix + [rep, tag, call.reason]) then r == Err(ContractError) else r.Ok?
  }

  lemma {:induction false} BlockAnswers(l: Ledger, ring: Keyring, phone: string, call: Call, event: Id)
    requires Accepted(l) && event !in l.place
    ensures Answers(l, ring, phone, call, "administrative_block", [], Block(l, ring, phone, call, event))
    ensures Answers(l, ring, phone, call, "administrative_unblock", [], Unblock(l, ring, phone, call, event))
  {
    hide Accepts, Obstructed, ValidReason, FindByPhone, Found, Keeps, Events;
    LookupAnswers(l, ring, phone);
    if RequireRow(l, ring, phone).Ok? {
      var rep := RequireRow(l, ring, phone).value;
      assert [] + [rep, "administrative_block", call.reason] == [rep, "administrative_block", call.reason];
      assert [] + [rep, "administrative_unblock", call.reason] == [rep, "administrative_unblock", call.reason];
      ReloadIsSafe(l, ring, rep);
      if call.opId !in l.ops {
        BlockStep(l, ring, rep, call, event);
        UnblockStep(l, ring, rep, call, event);
      }
    }
  }

  lemma {:induction false} ResetAnswers(l: Ledger, ring: Keyring, phone: string, call: Call, ids: (Id, Id))
    requires Accepted(l) && ids.0 !in l.place && ids.1 !in l.place && ids.0 != ids.1
    ensures if HasOwner(l, phone) then Reset(l, ring, phone, call, ids) == Err(AccountStateError)
            else Answers(l, ring, phone, call, "phone_reassignment", [], Reset(l, ring, phone, call, ids))
  {
    hide Accepts, Obstructed, ValidReason, FindByPhone, Found, Events;
    LookupAnswers(l, ring, phone);
    if RequireRow(l, ring, phone).Ok? {
      var rep := RequireRow(l, ring, phone).value;
      assert [] + [rep, "phone_reassignment", call.reason] == [rep, "phone_reassignment", call.reason];
      ReloadIsSafe(l, ring, rep);
      if call.opId !in l.ops {
        ResetStep(l, ring, rep, call, ids);
      }
    }
  }

  /** A user without an active phone, or with a live ban already, cannot be banned under a new operation id. */
  lemma {:induction false} BanAnswers(l: Ledger, ring: Keyring, user: Id, call: Call, ids: (Id, Id))
    requires Accepted(l) && ids.0 !in l.place && ids.1 !in l.place && ids.0 != ids.1
    ensures var r := ApplyBan(l, ring, user, call, ids);
      if user !in l.phones then r == Err(AccountStateError)
      else if LiveBan(l, user) && call.opId !in l.ops && Found(l, ring, l.phones[user]) != {}
              && !Obstructed(l, ring, l.phones[user]) then r == Err(AccountStateError)
      else Answers(l, ring, l.phones[user], call, "qualifying_ban", [user], r)
  {
    hide Accepts, Obstructed, ValidReason, FindByPhone, Found, LiveBan, Events;
    if user in l.phones {
      LookupAnswers(l, ring, l.phones[user]);
      if RequireRow(l, ring, l.phones[user]).Ok? {
        var rep := RequireRow(l, ring, l.phones[user]).value;
        assert [user] + [rep, "qualifying_ban", call.reason] == [user, rep, "qualifying_ban", call.reason];
        ReloadIsSafe(l, ring, rep);
        if call.opId !in l.ops {
          BanStep(l, ring, rep, user, call, ids);
        }
      }
    }
  }

  /** An overturn succeeds exactly on a ban that nobody overturned, for a valid reason, by a process with both keys. */
  lemma {:induction false} OverturnAnswers(l: Ledger, ring: Keyring, target: Id, call: Call, ids: (Id, Id))
    requires Accepted(l) && ids.0 !in l.place && ids.1 !in l.place && ids.0 != ids.1
    ensures var r := Overturn(l, ring, target, call, ids);
      && (r == Err(AccountNotFoundError) <==> !BanNamed(l, target))
      && (r.Ok? <==> OverturnReads(l, target, call) && l.place[target].0 in l.rows
                     && DecryptError(ring, l.rows[l.place[target].0]).None?)
      && (BanNamed(l, target) && call.opId !in l.ops ==>
            (r == Err(AccountStateError) <==> AlreadyOverturned(l, target)))
  {
    hide Accepts, AlreadyOverturned, EventWith, ValidReason, Events;
    OverturnKeeps(l, ring, target, call, ids);
    if BanNamed(l, target) {
      BanIsPlaced(l, target);
      if call.opId in l.ops {
        ReloadIsSafe(l, ring, l.place[target].0);
      } else if !AlreadyOverturned(l, target) && ValidReason(call.reason) {
        OverturnStep(l, ring, target, call, ids);
      }
    }
  }

  /** A target is a ban exactly when its generation holds the ban event. */
  lemma {:induction false} NamedMeans(l: Ledger, target: Id)
    requires TablesOk(l)
    ensures BanNamed(l, target) <==> target in l.place && BannedIn(Events(l, l.place[target]), target)
  {
    if target in l.place {
      assert HasEvent(l, target);
      assert EventsOk(l, l.place[target]);
      WithIdMeans(l.log[l.place[target]], target);
    }
  }

  lemma {:induction false} WithIdMeans(events: seq<Event>, id: Id)
    requires DistinctEvents(events)
    ensures BannedIn(events, id) <==> EventWith(events, id).Some? && IsBan(EventWith(events, id).value)
  {
    if events != [] {
      var n := |events| - 1;
      WithIdMeans(events[..n], id);
      BannedAppend(events[..n], events[n], id);
      assert events == events[..n] + [events[n]];
    }
  }

  /** Requests that are compared equal are of one kind, on one target, for one reason. */
  lemma {:induction false} FingerprintNamesRequest(l: Ledger, r: Request, other: Request)
    requires FingerprintOf(l, r).Some? && FingerprintOf(l, r) == FingerprintOf(l, other)
    ensures OpIdOf(r).Some? && OpIdOf(other).Some? && r.call.reason == other.call.reason
    ensures r.BlockPhone? <==> other.BlockPhone?
    ensures r.UnblockPhone? <==> other.UnblockPhone?
    ensures r.Reassign? <==> other.Reassign?
    ensures r.OverturnBan? <==> other.OverturnBan?
    ensures r.BanUser? <==> other.BanUser?
    ensures r.BanUser? ==> r.user == other.user
    ensures r.OverturnBan? ==> r.target == other.target
    ensures !r.OverturnBan? ==>
              LookupOf(l, r).Some? && LookupOf(l, other).Some?
              && RequireRow(l, LookupOf(l, r).value.0, LookupOf(l, r).value.1)
                 == RequireRow(l, LookupOf(l, other).value.0, LookupOf(l, other).value.1)
  {
    hide FindByPhone, BanNamed, Found;
    TagsDiffer();
    var x, y := FingerprintOf(l, r).value, FingerprintOf(l, other).value;
    assert x == y && |x| == |y| && x[1] == y[1];
  }

  lemma {:induction false} TagsDiffer()
    ensures "administrative_block" != "administrative_unblock" && "administrative_block" != "phone_reassignment"
    ensures "administrative_block" != "overturn" && "administrative_unblock" != "phone_reassignment"
    ensures "administrative_unblock" != "overturn" && "phone_reassignment" != "overturn"
  {
    assert |"administrative_block"| == 20 && |"administrative_unblock"| == 22 && |"phone_reassignment"| == 18;
    assert |"overturn"| == 8;
  }

  // ----- what validate_one finds out -----

  /** The events of one generation replaced. */
  function WithLog(l: Ledger, key: Key, events: seq<Event>): Ledger {
    l.(log := l.log[key := events])
  }

  lemma {:induction false} CountWith(before: seq<Event>, e: Event, rest: seq<Event>)
    ensures var opId, sanctions := e.operationId, e.detail.Sanction?;
      CountOf(before + [e] + rest, opId, sanctions) == CountOf(before + rest, opId, sanctions) + 1
  {
    var opId, sanctions := e.operationId, e.detail.Sanction?;
    CountOne(e, opId, sanctions);
    CountAppend(before, [e], opId, sanctions);
    CountAppend(before + [e], rest, opId, sanctions);
    CountAppend(before, rest, opId, sanctions);
  }

  /** A lost event is found out: its operation announced how many it owns. */
  lemma {:induction false} LossIsFound(l: Ledger, key: Key, i: nat)
    requires key in l.log && i < |l.log[key]| && Accepts(l, key.0)
    ensures !Accepts(WithLog(l, key, l.log[key][..i] + l.log[key][i + 1..]), key.0)
  {
    var events := l.log[key];
    var e, t := events[i], WithLog(l, key, events[..i] + events[i + 1..]);
    assert GenerationOk(l, key);
    assert OpAgrees(l, key, e);
    assert events == events[..i] + [e] + events[i + 1..];
    CountWith(events[..i], e, events[i + 1..]);
    assert OpComplete(l, e.operationId);
    assert !OpComplete(t, e.operationId);
  }

  /** A forged event is found out, wherever it is put in and whatever operation it names. */
  lemma {:induction false} ForgeryIsFound(l: Ledger, key: Key, i: nat, e: Event)
    requires key in l.log && i <= |l.log[key]| && Accepts(l, key.0)
    ensures !Accepts(WithLog(l, key, l.log[key][..i] + [e] + l.log[key][i..]), key.0)
  {
    var events := l.log[key];
    var forged := events[..i] + [e] + events[i..];
    var t := WithLog(l, key, forged);
    assert forged[i] == e && t.log[key][i] == e;
    if OpAgrees(l, key, e) {
      CountWith(events[..i], e, events[i..]);
      assert events[..i] + events[i..] == events;
      assert OpComplete(l, e.operationId);
      assert !OpComplete(t, e.operationId);
    } else {
      assert !OpAgrees(t, key, t.log[key][i]);
      assert !GenerationOk(t, key);
    }
  }

  /** Changed authorship, reason, or order of an event is found out. */
  lemma {:induction false} RewriteIsFound(l: Ledger, key: Key, i: nat, e: Event)
    requires key in l.log && i < |l.log[key]| && Accepts(l, key.0)
    requires e.sequenceNo != l.log[key][i].sequenceNo
             || (e.operationId == l.log[key][i].operationId
                 && (e.actor != l.log[key][i].actor || e.reason != l.log[key][i].reason))
    ensures !Accepts(WithLog(l, key, l.log[key][i := e]), key.0)
  {
    var t := WithLog(l, key, l.log[key][i := e]);
    assert GenerationOk(l, key);
    assert OpAgrees(l, key, l.log[key][i]);
    assert t.log[key][i] == e;
    assert !(Contiguous(t.log[key]) && OpAgrees(t, key, t.log[key][i]));
    assert !GenerationOk(t, key);
  }

  /** A projection row that does not say what its events say is found out. */
  lemma {:induction false} ProjectionIsChecked(l: Ledger, rep: Id, row: Row)
    requires Accepts(l, rep) && row.generation == l.rows[rep].generation
    requires row.count != l.rows[rep].count || row.status != l.rows[rep].status
             || row.blockedAt != l.rows[rep].blockedAt || row.lastBanAt != l.rows[rep].lastBanAt
    ensures !Accepts(l.(rows := l.rows[rep := row]), rep)
  {
    assert Events(l.(rows := l.rows[rep := row]), (rep, row.generation)) == Events(l, (rep, row.generation));
  }

  // ----- the accounts of the ledger -----

  /** A registration or a phone change takes the phone, unless somebody has it already. */
  lemma {:induction false} IdentifyTakesThePhone(l: Ledger, user: Id, phone: string)
    ensures (exists other :: other in l.phones && l.phones[other] == phone) <==>
              Identify(l, user, phone) == Err(IdentityConflictError)
    ensures Identify(l, user, phone).Err? || Identify(l, user, phone) == Ok(l.(phones := l.phones[user := phone]))
  {
  }

  /** A status change is refused exactly for an unknown user, and suspends or restores that user only. */
  lemma {:induction false} StatusIsSet(l: Ledger, user: Id, active: bool)
    ensures var r := SetStatus(l, user, active);
      if user !in l.phones then r == Err(AccountNotFoundError)
      else && r.Ok? && r.value == l.(suspended := r.value.suspended)
           && (user in r.value.suspended <==> !active)
           && (forall other :: other != user ==> (other in r.value.suspended <==> other in l.suspended))
  {
  }

  ghost predicate PhonesApart(l: Ledger) {
    forall u, v :: u in l.phones && v in l.phones && l.phones[u] == l.phones[v] ==> u == v
  }

  lemma {:induction false} ReputationLeavesPhones(l: Ledger, r: Request)
    requires !OfAccounts(r) && Perform(l, r).Ok?
    ensures Perform(l, r).value.phones == l.phones
  {
    hide Accepts, ValidReason, FindByPhone, Found, LiveBan, AlreadyOverturned, EventWith, Events, PlaceAll,
         NextSequence;
  }

  /** In no reachable state do two users have the same active phone. */
  lemma {:induction false} OneOwnerPerPhone(requests: seq<Request>)
    ensures PhonesApart(Run(EMPTY, requests))
    decreases |requests|
  {
    hide Perform;
    if requests != [] {
      var n := |requests| - 1;
      OneOwnerPerPhone(requests[..n]);
      StepKeepsOwners(Run(EMPTY, requests[..n]), requests[n]);
    }
  }

  lemma {:induction false} StepKeepsOwners(l: Ledger, r: Request)
    requires PhonesApart(l)
    ensures PhonesApart(After(l, r))
  {
    hide EnsurePhone, Block, Unblock, ApplyBan, Overturn, Reset;
    if Perform(l, r).Ok? && !OfAccounts(r) {
      ReputationLeavesPhones(l, r);
    }
  }
}
