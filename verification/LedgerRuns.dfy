/**
 * Whole histories of the phone ledger, by any number of processes with different keys
 * (src/cueflow/phone_reputation.py), between the account operations that touch its tables.
 */
module LedgerRuns {
  import opened Outcomes
  import opened PhoneReputation
  import opened LedgerSoundness

  /** One transaction of some process; ids are the fresh identifiers that it draws. */
  datatype Request =
    | Ensure(ring: Keyring, phone: string, now: int, ids: (Id, Id, Id, Id))
    | BlockPhone(ring: Keyring, phone: string, call: Call, event: Id)
    | UnblockPhone(ring: Keyring, phone: string, call: Call, event: Id)
    | BanUser(ring: Keyring, user: Id, call: Call, pair: (Id, Id))
    | OverturnBan(ring: Keyring, target: Id, call: Call, pair: (Id, Id))
    | Reassign(ring: Keyring, phone: string, call: Call, pair: (Id, Id))
    | IdentifyUser(user: Id, phone: string)
    | SetUserStatus(user: Id, active: bool)
    | EraseUser(user: Id, dedicated: bool)

  /** The last three are operations of the accounts. */
  predicate OfAccounts(r: Request) {
    r.IdentifyUser? || r.SetUserStatus? || r.EraseUser?
  }

  function Perform(l: Ledger, r: Request): Result<Ledger> {
    match r
    case Ensure(ring, phone, now, ids) => EnsurePhone(l, ring, phone, now, ids)
    case BlockPhone(ring, phone, call, event) => Block(l, ring, phone, call, event)
    case UnblockPhone(ring, phone, call, event) => Unblock(l, ring, phone, call, event)
    case BanUser(ring, user, call, pair) => ApplyBan(l, ring, user, call, pair)
    case OverturnBan(ring, target, call, pair) => Overturn(l, ring, target, call, pair)
    case Reassign(ring, phone, call, pair) => Reset(l, ring, phone, call, pair)
    case IdentifyUser(user, phone) => Identify(l, user, phone)
    case SetUserStatus(user, active) => SetStatus(l, user, active)
    case EraseUser(user, dedicated) => Erase(l, user, dedicated)
  }

  /** uuid4 identifiers are new when they are drawn. */
  ghost predicate Fresh(l: Ledger, r: Request) {
    match r
    case Ensure(ring, _, _, ids) =>
      RingOk(ring) && ids.0 !in l.rows && ids.1 !in l.ops && ids.2 !in l.place && ids.3 !in l.place && ids.2 != ids.3
    case BlockPhone(_, _, _, event) => event !in l.place
    case UnblockPhone(_, _, _, event) => event !in l.place
    case BanUser(_, _, _, pair) => pair.0 !in l.place && pair.1 !in l.place && pair.0 != pair.1
    case OverturnBan(_, _, _, pair) => pair.0 !in l.place && pair.1 !in l.place && pair.0 != pair.1
    case Reassign(_, _, _, pair) => pair.0 !in l.place && pair.1 !in l.place && pair.0 != pair.1
    case _ => true
  }

  /** A failed transaction is rolled back. */
  function After(l: Ledger, r: Request): Ledger {
    match Perform(l, r)
    case Ok(after) => after
    case Err(_) => l
  }

  function Run(l: Ledger, requests: seq<Request>): Ledger {
    if requests == [] then l else After(Run(l, requests[..|requests| - 1]), requests[|requests| - 1])
  }

  ghost predicate AllFresh(l: Ledger, requests: seq<Request>) {
    forall n :: 0 <= n < |requests| ==> Fresh(Run(l, requests[..n]), requests[n])
  }

  const EMPTY := Ledger(map[], map[], map[], map[], map[], map[], {})

  lemma {:induction false} AccountsAreFree(l: Ledger, r: Request)
    requires Accepted(l) && OfAccounts(r) && Perform(l, r).Ok?
    ensures Carries(l, Perform(l, r).value)
  {
    hide Accepts;
    var after := Perform(l, r).value;
    AccountsCarry(l, after.phones, after.bans, after.suspended);
  }

  /** Every transaction carries acceptance on, whichever process runs it and whether it succeeds or not. */
  lemma {:induction false} StepCarries(l: Ledger, r: Request)
    requires Accepted(l) && Fresh(l, r)
    ensures Carries(l, After(l, r))
  {
    hide Accepts, Carries, Obstructed, OverturnReads;
    CarriesItself(l);
    match r
    case Ensure(ring, phone, now, ids) => EnsureKeeps(l, ring, phone, now, ids);
    case BlockPhone(ring, phone, call, event) => BlockKeeps(l, ring, phone, call, event);
    case UnblockPhone(ring, phone, call, event) => UnblockKeeps(l, ring, phone, call, event);
    case BanUser(ring, user, call, pair) => ApplyBanKeeps(l, ring, user, call, pair);
    case OverturnBan(ring, target, call, pair) => OverturnKeeps(l, ring, target, call, pair);
    case Reassign(ring, phone, call, pair) => ResetKeeps(l, ring, phone, call, pair);
    case _ => if Perform(l, r).Ok? { AccountsAreFree(l, r); }
  }

  lemma {:induction false} StepIsSound(l: Ledger, r: Request)
    requires Sound(l) && Fresh(l, r)
    ensures Sound(After(l, r))
  {
    StepCarries(l, r);
  }

  /**
   * Soundness over all runs: after any interleaving of transactions of processes with any keys,
   * validate_one accepts every reputation, no phone has two rows, and the block threshold holds.
   */
  lemma {:induction false} RunsAreSound(requests: seq<Request>)
    requires AllFresh(EMPTY, requests)
    ensures Sound(Run(EMPTY, requests))
  {
    if requests != [] {
      var n := |requests| - 1;
      forall m | 0 <= m < n ensures Fresh(Run(EMPTY, requests[..n][..m]), requests[..n][m]) {
        assert requests[..n][..m] == requests[..m];
      }
      RunsAreSound(requests[..n]);
      StepIsSound(Run(EMPTY, requests[..n]), requests[n]);
    }
  }

  /** In every reachable state the projection is the replay of the current generation, and counts its live bans. */
  lemma {:induction false} ProjectionIsReplay(requests: seq<Request>, rep: Id)
    requires AllFresh(EMPTY, requests) && rep in Run(EMPTY, requests).rows
    ensures var l := Run(EMPTY, requests);
      var row, events := l.rows[rep], Events(l, (rep, l.rows[rep].generation));
      var r := ReplayOf(events);
      && Matches(row, r) && Means(events, r) && row.count == |r.applied - r.overturned|
      && (row.count >= 3 && (forall i :: 0 <= i < |events| ==> !IsUnblock(events[i])) ==> row.status == Blocked)
  {
    hide ReplayOf, BannedIn, OverturnedIn, MeansBans;
    var l := Run(EMPTY, requests);
    RunsAreSound(requests);
    var key := (rep, l.rows[rep].generation);
    var r := ReplayOf(Events(l, key));
    AcceptedIsCurrent(l, rep);
    assert EventsOk(l, key);
    ReplayMeans(l.log[key]);
    assert Threshold(l, rep);
    assert |r.applied| == |r.applied - r.overturned| + |r.overturned| by {
      assert r.applied == (r.applied - r.overturned) + r.overturned;
    }
  }

  /** No reachable state has two rows for one phone. */
  lemma {:induction false} OneRowAlways(requests: seq<Request>, a: Id, b: Id)
    requires AllFresh(EMPTY, requests) && a in Run(EMPTY, requests).rows && b in Run(EMPTY, requests).rows
    requires Run(EMPTY, requests).rows[a].phone == Run(EMPTY, requests).rows[b].phone
    ensures a == b
  {
    RunsAreSound(requests);
  }

  // ----- what a process must hold -----

  /** What makes a request fail for the keys of its process. */
  ghost predicate LacksKeys(l: Ledger, r: Request) {
    match r
    case Ensure(ring, phone, _, _) =>
      FindsWithoutKey(l, ring, phone) || (Found(l, ring, phone) == {} && !Covers(ring, l))
    case BlockPhone(ring, phone, _, _) => FindsWithoutKey(l, ring, phone)
    case UnblockPhone(ring, phone, _, _) => FindsWithoutKey(l, ring, phone)
    case BanUser(ring, user, _, _) => user in l.phones && FindsWithoutKey(l, ring, l.phones[user])
    case OverturnBan(ring, target, call, _) =>
      && OverturnReads(l, target, call) && l.place[target].0 in l.rows
      && l.rows[l.place[target].0].encryptionKeyId !in ring.encryption
    case Reassign(ring, phone, _, _) => !HasOwner(l, phone) && FindsWithoutKey(l, ring, phone)
    case _ => false
  }

  /** In every reachable state the integrity error means that the process lacks a key, and nothing else. */
  lemma {:induction false} IntegrityErrorIsAKey(requests: seq<Request>, r: Request)
    requires AllFresh(EMPTY, requests) && Fresh(Run(EMPTY, requests), r)
    ensures Perform(Run(EMPTY, requests), r) == Err(IntegrityError) <==> LacksKeys(Run(EMPTY, requests), r)
  {
    hide Run, Accepts, Carries, Obstructed, OverturnReads, FindsWithoutKey, FindByPhone, AllFresh;
    var l := Run(EMPTY, requests);
    RunsAreSound(requests);
    forall ring, phone ensures Obstructed(l, ring, phone) <==> FindsWithoutKey(l, ring, phone) {
      OnlyTheKeyObstructs(l, ring, phone);
    }
    match r
    case Ensure(ring, phone, now, ids) => EnsureKeeps(l, ring, phone, now, ids);
    case BlockPhone(ring, phone, call, event) => BlockKeeps(l, ring, phone, call, event);
    case UnblockPhone(ring, phone, call, event) => UnblockKeeps(l, ring, phone, call, event);
    case BanUser(ring, user, call, pair) => ApplyBanKeeps(l, ring, user, call, pair);
    case OverturnBan(ring, target, call, pair) => OverturnKeeps(l, ring, target, call, pair);
    case Reassign(ring, phone, call, pair) => ResetKeeps(l, ring, phone, call, pair);
    case _ =>
  }

  // ----- repeated operation ids -----

  /** The id that a request's operation row is stored under. */
  function OpIdOf(r: Request): Option<Id> {
    if r.Ensure? || OfAccounts(r) then None else Some(r.call.opId)
  }

  /** The phone that a request looks its row up by. */
  function LookupOf(l: Ledger, r: Request): Option<(Keyring, string)> {
    match r
    case BlockPhone(ring, phone, _, _) => Some((ring, phone))
    case UnblockPhone(ring, phone, _, _) => Some((ring, phone))
    case BanUser(ring, user, _, _) => if user in l.phones then Some((ring, l.phones[user])) else None
    case Reassign(ring, phone, _, _) => Some((ring, phone))
    case _ => None
  }

  /** The fingerprint that a request is compared by, where its row exists. */
  function FingerprintOf(l: Ledger, r: Request): Option<seq<string>> {
    match r
    case Ensure(_, _, _, _) => None
    case BlockPhone(ring, phone, call, _) =>
      if RequireRow(l, ring, phone).Err? then None
      else Some([RequireRow(l, ring, phone).value, "administrative_block", call.reason])
    case UnblockPhone(ring, phone, call, _) =>
      if RequireRow(l, ring, phone).Err? then None
      else Some([RequireRow(l, ring, phone).value, "administrative_unblock", call.reason])
    case BanUser(ring, user, call, _) =>
      if user !in l.phones || RequireRow(l, ring, l.phones[user]).Err? then None
      else Some([user, RequireRow(l, ring, l.phones[user]).value, "qualifying_ban", call.reason])
    case OverturnBan(_, target, call, _) =>
      if BanNamed(l, target) then Some([target, "overturn", call.reason]) else None
    case Reassign(ring, phone, call, _) =>
      if HasOwner(l, phone) || RequireRow(l, ring, phone).Err? then None
      else Some([RequireRow(l, ring, phone).value, "phone_reassignment", call.reason])
    case _ => None
  }

  /** The keys that an overturn lacks; every other request has looked its row up, and so holds them. */
  function MissingKey(l: Ledger, r: Request): Option<Error> {
    if r.OverturnBan? && r.target in l.place && l.place[r.target].0 in l.rows
    then DecryptError(r.ring, l.rows[l.place[r.target].0]) else None
  }

  /**
   * A known id is refused for another request than the recorded one, and for a missing key of an
   * overturn; it is answered without a change in every other case.
   */
  lemma {:induction false} KnownIdIsAnswered(l: Ledger, r: Request)
    requires Accepted(l) && OpIdOf(r).Some? && OpIdOf(r).value in l.ops && FingerprintOf(l, r).Some?
    ensures Perform(l, r) == if l.ops[OpIdOf(r).value].fingerprint != FingerprintOf(l, r).value then Err(ContractError)
                             else if MissingKey(l, r).Some? then Err(MissingKey(l, r).value)
                             else Ok(l)
  {
    hide Accepts, EventWith;
    if r.OverturnBan? {
      BanIsPlaced(l, r.target);
      ReloadIsSafe(l, r.ring, l.place[r.target].0);
    } else {
      var (ring, phone) := LookupOf(l, r).value;
      RequireIsSafe(l, ring, phone);
      ReloadIsSafe(l, ring, RequireRow(l, ring, phone).value);
    }
  }

  /** A successful transaction leaves every row findable as before. */
  lemma {:induction false} SameRowFound(l: Ledger, r: Request, ring: Keyring, phone: string)
    requires Sound(l) && Fresh(l, r) && Perform(l, r).Ok? && OpIdOf(r).Some?
    requires RequireRow(l, ring, phone).Ok?
    ensures RequireRow(After(l, r), ring, phone) == RequireRow(l, ring, phone)
  {
    hide Accepts;
    var after, rep := After(l, r), RequireRow(l, ring, phone).value;
    StepIsSound(l, r);
    RowsKeepKeys(l, r);
    LookupIsSafe(l, ring, phone);
    assert rep in Found(after, ring, phone);
    FoundAtMostOne(after, ring, phone, rep);
    FoundAtMostOne(l, ring, phone, rep);
    assert Accepts(after, rep);
  }

  lemma {:induction false} RowsKeepKeys(l: Ledger, r: Request)
    requires Perform(l, r).Ok? && OpIdOf(r).Some?
    ensures RowsKept(l, After(l, r))
  {
    hide Accepts, ValidReason, FindByPhone;
  }

  lemma {:induction false} EventWithAppend(events: seq<Event>, more: seq<Event>, id: Id)
    requires forall i :: 0 <= i < |more| ==> more[i].id != id
    ensures EventWith(events + more, id) == EventWith(events, id)
  {
    if more == [] {
      assert events + more == events;
    } else {
      var n := |more| - 1;
      assert (events + more)[..|events| + n] == events + more[..n];
      EventWithAppend(events, more[..n], id);
    }
  }

  /** The target of an overturn stays where it is, and stays a ban. */
  lemma {:induction false} TargetStays(l: Ledger, ring: Keyring, target: Id, call: Call, ids: (Id, Id))
    requires ids.0 !in l.place && ids.1 !in l.place && target in l.place && l.place[target].0 in l.rows
    requires OverturnAt(l, ring, l.place[target], target, call, ids).Ok?
    ensures var after := OverturnAt(l, ring, l.place[target], target, call, ids).value;
      && target in after.place && after.place[target] == l.place[target]
      && EventWith(Events(after, after.place[target]), target) == EventWith(Events(l, l.place[target]), target)
  {
    var key := l.place[target];
    var row, events := l.rows[key.0], Events(l, key);
    var unblock := OverturnUnblocks(row, key.1, events, target);
    var fingerprint := [target, "overturn", call.reason];
    var op := OpOf(key.0, key.1, OverturnSanction, call, fingerprint, 1, if unblock then 1 else 0);
    var more := OverturnEvents(unblock, NextSequence(events), target, call, ids);
    Placed(l.place, more, key, target);
    OtherEvents(l, call.opId, op, OverturnedRow(row, key.1 == row.generation, unblock), more, key);
    EventWithAppend(events, more, target);
  }

  lemma {:induction false} PhoneLookup(l: Ledger, ring: Keyring, phone: string, call: Call, event: Id)
    ensures Block(l, ring, phone, call, event).Ok? ==>
              RequireRow(l, ring, phone).Ok? && Block(l, ring, phone, call, event).value.phones == l.phones
    ensures Unblock(l, ring, phone, call, event).Ok? ==>
              RequireRow(l, ring, phone).Ok? && Unblock(l, ring, phone, call, event).value.phones == l.phones
  {
    hide Accepts, ValidReason, FindByPhone, Validate;
  }

  lemma {:induction false} UserLookup(l: Ledger, ring: Keyring, user: Id, call: Call, pair: (Id, Id))
    requires ApplyBan(l, ring, user, call, pair).Ok?
    ensures user in l.phones && RequireRow(l, ring, l.phones[user]).Ok?
    ensures ApplyBan(l, ring, user, call, pair).value.phones == l.phones
  {
  }

  lemma {:induction false} ResetLookup(l: Ledger, ring: Keyring, phone: string, call: Call, pair: (Id, Id))
    requires Reset(l, ring, phone, call, pair).Ok?
    ensures RequireRow(l, ring, phone).Ok? && Reset(l, ring, phone, call, pair).value.phones == l.phones
  {
  }

  lemma {:induction false} OverturnLookup(l: Ledger, ring: Keyring, target: Id, call: Call, pair: (Id, Id))
    requires Overturn(l, ring, target, call, pair).Ok?
    ensures BanNamed(l, target) && l.place[target].0 in l.rows
    ensures var after := Overturn(l, ring, target, call, pair).value;
      && after.phones == l.phones
      && l.place[target].0 in after.rows && DecryptError(ring, after.rows[l.place[target].0]).None?
  {
    hide Accepts, ValidReason, AlreadyOverturned, EventWith, OverturnUnblocks;
  }

  lemma {:induction false} LookupStays(l: Ledger, r: Request)
    requires Perform(l, r).Ok? && OpIdOf(r).Some?
    ensures After(l, r).phones == l.phones
    ensures !r.OverturnBan? ==>
              LookupOf(l, r).Some? && RequireRow(l, LookupOf(l, r).value.0, LookupOf(l, r).value.1).Ok?
  {
    match r
    case BlockPhone(ring, phone, call, event) => PhoneLookup(l, ring, phone, call, event);
    case UnblockPhone(ring, phone, call, event) => PhoneLookup(l, ring, phone, call, event);
    case BanUser(ring, user, call, pair) => UserLookup(l, ring, user, call, pair);
    case OverturnBan(ring, target, call, pair) => OverturnLookup(l, ring, target, call, pair);
    case Reassign(ring, phone, call, pair) => ResetLookup(l, ring, phone, call, pair);
    case _ =>
  }

  /** The request is compared by the same fingerprint before and after it succeeded. */
  lemma {:induction false} FingerprintStays(l: Ledger, r: Request)
    requires Sound(l) && Fresh(l, r) && Perform(l, r).Ok? && OpIdOf(r).Some? && OpIdOf(r).value !in l.ops
    ensures FingerprintOf(l, r).Some? && FingerprintOf(After(l, r), r) == FingerprintOf(l, r)
    ensures MissingKey(After(l, r), r).None?
  {
    hide Sound, Accepts, ValidReason, FindByPhone, EventWith, AlreadyOverturned;
    LookupStays(l, r);
    if r.OverturnBan? {
      OverturnLookup(l, r.ring, r.target, r.call, r.pair);
      TargetStays(l, r.ring, r.target, r.call, r.pair);
    } else {
      var (ring, phone) := LookupOf(l, r).value;
      SameRowFound(l, r, ring, phone);
    }
  }

  /** A request that succeeded is recorded under its id with its own fingerprint. */
  lemma {:induction false} SuccessIsRecorded(l: Ledger, r: Request)
    requires Perform(l, r).Ok? && OpIdOf(r).Some? && OpIdOf(r).value !in l.ops && FingerprintOf(l, r).Some?
    ensures OpIdOf(r).value in After(l, r).ops
    ensures After(l, r).ops[OpIdOf(r).value].fingerprint == FingerprintOf(l, r).value
  {
    hide Accepts, ValidReason, FindByPhone, Validate, EventWith, AlreadyOverturned, RowsKept;
  }

  /** Sending a request that succeeded once more returns the ledger that it left. */
  lemma {:induction false} RepeatIsIdempotent(l: Ledger, r: Request)
    requires Sound(l) && Fresh(l, r) && Perform(l, r).Ok? && OpIdOf(r).Some? && OpIdOf(r).value !in l.ops
    ensures Perform(After(l, r), r) == Ok(After(l, r))
  {
    StepIsSound(l, r);
    FingerprintStays(l, r);
    SuccessIsRecorded(l, r);
    KnownIdIsAnswered(After(l, r), r);
  }
}
