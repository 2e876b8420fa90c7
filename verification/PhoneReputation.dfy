/**
 * src/cueflow/phone_reputation.py: the event ledger of a phone beside its projection row.
 * The tables are maps; an operation maps the tables to new tables, or fails and changes nothing.
 */
module PhoneReputation {
  import opened Outcomes
  import AuthCrypto

  type Id = string

  datatype Status = Normal | Blocked

  datatype Actor = Actor(kind: string, id: string)

  datatype SanctionDetail = SanctionStarted | BanApplied | BanOverturned(target: Id)

  /** The CHECK constraint of phone_status_events fixes both ends of each kind of transition. */
  datatype StatusDetail = StatusStarted | PhoneBlocked(causedBy: Option<Id>) | PhoneUnblocked(causedBy: Option<Id>) {
    function From(): Option<Status> {
      match this
      case StatusStarted => None
      case PhoneBlocked(_) => Some(Normal)
      case PhoneUnblocked(_) => Some(Blocked)
    }

    function To(): Status {
      if PhoneBlocked? then Blocked else Normal
    }
  }

  /** A row of one of the two streams. */
  datatype Detail = Sanction(sanction: SanctionDetail) | Change(change: StatusDetail)

  /** An event head together with its detail row. */
  datatype Event = Event(
    id: Id, sequenceNo: nat, operationId: Id, actor: Actor, reason: string, createdAt: int, detail: Detail)

  datatype Kind =
    | GenerationStarted | QualifyingBan | AdministrativeBlock | AdministrativeUnblock | OverturnSanction
    | PhoneReassignment

  /** The fingerprint is the list of fields that is hashed; see AuthCrypto for why the hash input is unique. */
  datatype Operation = Operation(
    rep: Id, generation: nat, kind: Kind, fingerprint: seq<string>,
    expectedSanction: nat, expectedStatus: nat, actor: Actor, reason: string, createdAt: int)

  /** The projection. `phone` stands for the keyed digest under `keyId`, which determines it. */
  datatype Row = Row(
    keyId: Id, phone: string, encryptionKeyId: Id, generation: nat,
    count: int, status: Status, blockedAt: Option<int>, lastBanAt: Option<int>)

  /** account_qualifying_bans, keyed by the sanction event. */
  datatype Ban = Ban(user: Id, rep: Id, overturned: bool)

  type Key = (Id, nat)

  datatype Ledger = Ledger(
    rows: map<Id, Row>,
    ops: map<Id, Operation>,
    log: map<Key, seq<Event>>,       // the events of one generation, by sequence number
    place: map<Id, Key>,             // primary-key index of the event log
    phones: map<Id, string>,         // the active phone identity of each user
    bans: map<Id, Ban>,
    suspended: set<Id>)

  function Events(l: Ledger, key: Key): seq<Event> {
    if key in l.log then l.log[key] else []
  }

  // ----- replay of one generation -----

  datatype Replay =
    | Rejected
    | Replayed(count: int, status: Status, blockedAt: Option<int>, lastBanAt: Option<int>,
               applied: set<Id>, overturned: set<Id>)

  const START := Replayed(0, Normal, None, None, {}, {})

  /**
   * One turn of the replay loop of validate_one. That a seen target is an event of this very
   * generation needs no test of its own here: `applied` only holds ids of the replayed events.
   */
  function ReplayStep(r: Replay, index: nat, e: Event): Replay {
    if r.Rejected? then Rejected
    else
      match e.detail
      case Sanction(SanctionStarted) => if index != 1 then Rejected else r
      case Sanction(BanApplied) =>
        r.(count := r.count + 1, lastBanAt := Some(e.createdAt), applied := r.applied + {e.id})
      case Sanction(BanOverturned(target)) =>
        if target !in r.applied || target in r.overturned || r.count - 1 < 0 then Rejected
        else r.(count := r.count - 1, overturned := r.overturned + {target})
      case Change(StatusStarted) => if index != 0 then Rejected else r
      case Change(change) =>
        if change.From() != Some(r.status) then Rejected
        else r.(status := change.To(), blockedAt := if change.To() == Blocked then Some(e.createdAt) else None)
  }

  function ReplayOf(events: seq<Event>): Replay {
    if events == [] then START
    else
      var n := |events| - 1;
      ReplayStep(ReplayOf(events[..n]), n, events[n])
  }

  // ----- what validate_one accepts -----

  predicate Contiguous(events: seq<Event>) {
    forall i :: 0 <= i < |events| ==> events[i].sequenceNo == i + 1
  }

  predicate OpAgrees(l: Ledger, key: Key, e: Event) {
    && e.operationId in l.ops
    && var op := l.ops[e.operationId];
       op.rep == key.0 && op.generation == key.1 && op.actor == e.actor && op.reason == e.reason
  }

  function CountOf(events: seq<Event>, opId: Id, sanctions: bool): nat {
    if events == [] then 0
    else
      var n := |events| - 1;
      CountOf(events[..n], opId, sanctions)
      + if events[n].operationId == opId && events[n].detail.Sanction? == sanctions then 1 else 0
  }

  /** An operation owns exactly the events of each stream that it announced. */
  predicate OpComplete(l: Ledger, opId: Id)
    requires opId in l.ops
  {
    var op := l.ops[opId];
    var events := Events(l, (op.rep, op.generation));
    CountOf(events, opId, true) == op.expectedSanction && CountOf(events, opId, false) == op.expectedStatus
  }

  predicate GenerationOk(l: Ledger, key: Key)
    requires key in l.log && key.0 in l.rows
  {
    && key.1 <= l.rows[key.0].generation
    && Contiguous(l.log[key])
    && (forall i :: 0 <= i < |l.log[key]| ==> OpAgrees(l, key, l.log[key][i]))
  }

  predicate Matches(row: Row, r: Replay) {
    r.Replayed? && row.count == r.count && row.status == r.status && row.blockedAt == r.blockedAt
    && row.lastBanAt == r.lastBanAt
  }

  /** The part of validate_one that reads the ledger of `rep`. */
  predicate Accepts(l: Ledger, rep: Id) {
    && rep in l.rows
    && (forall opId {:trigger OpComplete(l, opId)} :: opId in l.ops && l.ops[opId].rep == rep ==> OpComplete(l, opId))
    && (forall key {:trigger GenerationOk(l, key)} :: key in l.log && key.0 == rep ==> GenerationOk(l, key))
    && (forall key {:trigger ReplayOf(l.log[key])} :: key in l.log && key.0 == rep ==> ReplayOf(l.log[key]).Replayed?)
    && Events(l, (rep, l.rows[rep].generation)) != []
    && Matches(l.rows[rep], ReplayOf(Events(l, (rep, l.rows[rep].generation))))
  }

  // ----- keys and lookup -----

  /** The keys that one process holds; new rows are written under the active ones. */
  datatype Keyring = Keyring(lookup: set<Id>, activeLookup: Id, encryption: set<Id>, activeEncryption: Id)

  predicate RingOk(ring: Keyring) {
    ring.activeLookup in ring.lookup && ring.activeEncryption in ring.encryption
  }

  /** Rows that the process can find: a lookup tries every key that it holds. */
  function Found(l: Ledger, ring: Keyring, phone: string): set<Id> {
    set rep | rep in l.rows && l.rows[rep].phone == phone && l.rows[rep].keyId in ring.lookup
  }

  function TheOne(s: set<Id>): (r: Id)
    requires |s| == 1
    ensures s == {r}
  {
    var x :| x in s;
    assert s == {x} by {
      assert |s - {x}| == 0;
    }
    x
  }

  /** crypto.decrypt needs the encryption key of the row, and then its lookup key. */
  function DecryptError(ring: Keyring, row: Row): Option<Error> {
    if row.encryptionKeyId !in ring.encryption then Some(IntegrityError)
    else if row.keyId !in ring.lookup then Some(ContractError)
    else None
  }

  /** validate_one as one process runs it: the row, the keys, and then the ledger. */
  function Validate(l: Ledger, ring: Keyring, rep: Id): Option<Error> {
    if rep !in l.rows then Some(IntegrityError)
    else if DecryptError(ring, l.rows[rep]).Some? then DecryptError(ring, l.rows[rep])
    else if Accepts(l, rep) then None
    else Some(IntegrityError)
  }

  /** find_by_phone: no row, one valid row, or an error. */
  function FindByPhone(l: Ledger, ring: Keyring, phone: string): (r: Result<Option<Id>>)
    ensures r.Ok? && r.value.Some? ==> r.value.value in Found(l, ring, phone)
  {
    var found := Found(l, ring, phone);
    if found == {} then Ok(None)
    else if |found| != 1 then Err(IntegrityError)
    else
      match Validate(l, ring, TheOne(found))
      case Some(e) => Err(e)
      case None => Ok(Some(TheOne(found)))
  }

  function RequireRow(l: Ledger, ring: Keyring, phone: string): (r: Result<Id>)
    ensures r.Ok? ==> r.value in Found(l, ring, phone)
  {
    match FindByPhone(l, ring, phone)
    case Err(e) => Err(e)
    case Ok(None) => Err(AccountNotFoundError)
    case Ok(Some(rep)) => Ok(rep)
  }

  // ----- writing -----

  predicate ValidReason(reason: string) {
    reason != "" && AuthCrypto.Utf8Length(reason) <= 128
  }

  /** `COALESCE(MAX(sequence_no), 0) + 1` */
  function NextSequence(events: seq<Event>): nat {
    if events == [] then 1 else events[|events| - 1].sequenceNo + 1
  }

  function PlaceAll(place: map<Id, Key>, events: seq<Event>, key: Key): map<Id, Key> {
    if events == [] then place else PlaceAll(place, events[..|events| - 1], key)[events[|events| - 1].id := key]
  }

  /** One transaction: the operation row, its events, and the projection row. */
  function Record(l: Ledger, opId: Id, op: Operation, row: Row, events: seq<Event>): Ledger {
    var key := (op.rep, op.generation);
    l.(ops := l.ops[opId := op],
       rows := l.rows[op.rep := row],
       log := if events == [] then l.log else l.log[key := Events(l, key) + events],
       place := PlaceAll(l.place, events, key))
  }

  predicate SameKeys(row: Row, other: Row) {
    other.phone == row.phone && other.keyId == row.keyId && other.encryptionKeyId == row.encryptionKeyId
  }

  /** Rows are never removed, and keep the phone and the keys they were written under. */
  predicate RowsKept(l: Ledger, after: Ledger) {
    forall rep :: rep in l.rows ==> rep in after.rows && SameKeys(l.rows[rep], after.rows[rep])
  }

  /** _reload_value: the transaction is rolled back unless validate_one accepts what it wrote. */
  function Reload(l: Ledger, ring: Keyring, rep: Id): Result<Ledger> {
    match Validate(l, ring, rep)
    case Some(e) => Err(e)
    case None => Ok(l)
  }

  datatype Call = Call(opId: Id, actor: Actor, reason: string, now: int)

  /** A call whose operation id is known: answered without a change, or refused. */
  function Repeat(l: Ledger, ring: Keyring, rep: Id, call: Call, fingerprint: seq<string>): Result<Ledger>
    requires call.opId in l.ops
  {
    if l.ops[call.opId].fingerprint != fingerprint then Err(ContractError) else Reload(l, ring, rep)
  }

  function OpOf(
    rep: Id, generation: nat, kind: Kind, call: Call, fingerprint: seq<string>,
    sanctions: nat, statuses: nat): Operation
  {
    Operation(rep, generation, kind, fingerprint, sanctions, statuses, call.actor, call.reason, call.now)
  }

  function EventOf(id: Id, sequenceNo: nat, call: Call, detail: Detail): Event {
    Event(id, sequenceNo, call.opId, call.actor, call.reason, call.now, detail)
  }

  // ----- the operations -----

  /** ensure_phone_tx. `ids` are the new row, operation, and event ids. */
  function EnsurePhone(l: Ledger, ring: Keyring, phone: string, now: int, ids: (Id, Id, Id, Id)): Result<Ledger> {
    match FindByPhone(l, ring, phone)
    case Err(e) => Err(e)
    case Ok(Some(_)) => Ok(l)
    case Ok(None) =>
      if exists rep :: rep in l.rows && l.rows[rep].keyId !in ring.lookup then Err(IntegrityError)
      else if exists rep :: rep in l.rows && l.rows[rep].encryptionKeyId !in ring.encryption then Err(IntegrityError)
      else
        var (rep, opId, first, second) := ids;
        var call := Call(opId, Actor("system", "cueflow-auth"), "first_registration", now);
        var row := Row(ring.activeLookup, phone, ring.activeEncryption, 1, 0, Normal, None, None);
        Ok(Record(l, opId, OpOf(rep, 1, GenerationStarted, call, [rep, "1", "generation_started"], 1, 1), row,
                  [EventOf(first, 1, call, Change(StatusStarted)),
                   EventOf(second, 2, call, Sanction(SanctionStarted))]))
  }

  /** administrative_block_phone on the row found: a repeated block is recorded without an event. */
  function BlockRow(l: Ledger, ring: Keyring, rep: Id, call: Call, event: Id): (r: Result<Ledger>)
    requires rep in l.rows
    ensures r.Ok? ==> RowsKept(l, r.value) && call.opId in r.value.ops
  {
    var row, fingerprint := l.rows[rep], [rep, "administrative_block", call.reason];
    if !ValidReason(call.reason) then Err(ContractError)
    else if row.status == Blocked then
      Ok(Record(l, call.opId, OpOf(rep, row.generation, AdministrativeBlock, call, fingerprint, 0, 0), row, []))
    else
      var next := NextSequence(Events(l, (rep, row.generation)));
      Reload(Record(l, call.opId, OpOf(rep, row.generation, AdministrativeBlock, call, fingerprint, 0, 1),
                    row.(status := Blocked, blockedAt := Some(call.now)),
                    [EventOf(event, next, call, Change(PhoneBlocked(None)))]), ring, rep)
  }

  function Block(l: Ledger, ring: Keyring, phone: string, call: Call, event: Id): Result<Ledger> {
    match RequireRow(l, ring, phone)
    case Err(e) => Err(e)
    case Ok(rep) =>
      if call.opId in l.ops then Repeat(l, ring, rep, call, [rep, "administrative_block", call.reason])
      else BlockRow(l, ring, rep, call, event)
  }

  function UnblockRow(l: Ledger, ring: Keyring, rep: Id, call: Call, event: Id): (r: Result<Ledger>)
    requires rep in l.rows
    ensures r.Ok? ==> RowsKept(l, r.value) && call.opId in r.value.ops
  {
    var row, fingerprint := l.rows[rep], [rep, "administrative_unblock", call.reason];
    if !ValidReason(call.reason) then Err(ContractError)
    else if row.status == Normal then
      var op := OpOf(rep, row.generation, AdministrativeUnblock, call, fingerprint, 0, 0);
      Reload(Record(l, call.opId, op, row, []), ring, rep)
    else
      var next := NextSequence(Events(l, (rep, row.generation)));
      Reload(Record(l, call.opId, OpOf(rep, row.generation, AdministrativeUnblock, call, fingerprint, 0, 1),
                    row.(status := Normal, blockedAt := None),
                    [EventOf(event, next, call, Change(PhoneUnblocked(None)))]), ring, rep)
  }

  function Unblock(l: Ledger, ring: Keyring, phone: string, call: Call, event: Id): Result<Ledger> {
    match RequireRow(l, ring, phone)
    case Err(e) => Err(e)
    case Ok(rep) =>
      if call.opId in l.ops then Repeat(l, ring, rep, call, [rep, "administrative_unblock", call.reason])
      else UnblockRow(l, ring, rep, call, event)
  }

  predicate LiveBan(l: Ledger, user: Id) {
    exists b :: b in l.bans && l.bans[b].user == user && !l.bans[b].overturned
  }

  /** The third live ban of a generation blocks a phone that is not blocked yet. */
  predicate BanBlocks(row: Row) {
    row.status == Normal && row.count + 1 >= 3
  }

  function BanEvents(next: nat, row: Row, call: Call, ids: (Id, Id)): seq<Event> {
    var ban := EventOf(ids.0, next, call, Sanction(BanApplied));
    if BanBlocks(row) then [ban, EventOf(ids.1, next + 1, call, Change(PhoneBlocked(Some(ids.0))))] else [ban]
  }

  function BannedRow(row: Row, now: int): Row {
    row.(count := row.count + 1, status := if BanBlocks(row) then Blocked else row.status,
         blockedAt := if BanBlocks(row) then Some(now) else row.blockedAt, lastBanAt := Some(now))
  }

  /** apply_qualifying_ban on the row found. `ids` are the new sanction and status event ids. */
  function BanRow(l: Ledger, ring: Keyring, rep: Id, user: Id, call: Call, ids: (Id, Id)): (r: Result<Ledger>)
    requires rep in l.rows
    ensures r.Ok? ==> RowsKept(l, r.value) && call.opId in r.value.ops
  {
    var row, fingerprint := l.rows[rep], [user, rep, "qualifying_ban", call.reason];
    if LiveBan(l, user) then Err(AccountStateError)
    else if !ValidReason(call.reason) then Err(ContractError)
    else
      var events := BanEvents(NextSequence(Events(l, (rep, row.generation))), row, call, ids);
      var op := OpOf(rep, row.generation, QualifyingBan, call, fingerprint, 1, if BanBlocks(row) then 1 else 0);
      Reload(Record(l, call.opId, op, BannedRow(row, call.now), events)
             .(bans := l.bans[ids.0 := Ban(user, rep, false)], suspended := l.suspended + {user}), ring, rep)
  }

  function ApplyBan(l: Ledger, ring: Keyring, user: Id, call: Call, ids: (Id, Id)): Result<Ledger> {
    if user !in l.phones then Err(AccountStateError)
    else
      match RequireRow(l, ring, l.phones[user])
      case Err(e) => Err(e)
      case Ok(rep) =>
        if call.opId in l.ops then Repeat(l, ring, rep, call, [user, rep, "qualifying_ban", call.reason])
        else BanRow(l, ring, rep, user, call, ids)
  }

  function EventWith(events: seq<Event>, id: Id): Option<Event> {
    if events == [] then None
    else
      var n := |events| - 1;
      if events[n].id == id then Some(events[n]) else EventWith(events[..n], id)
  }

  /** The latest event of the status stream. */
  function LastChange(events: seq<Event>): Option<StatusDetail> {
    if events == [] then None
    else
      var n := |events| - 1;
      if events[n].detail.Change? then Some(events[n].detail.change) else LastChange(events[..n])
  }

  predicate OverturnedIn(events: seq<Event>, target: Id) {
    exists i :: 0 <= i < |events| && events[i].detail == Sanction(BanOverturned(target))
  }

  predicate AlreadyOverturned(l: Ledger, target: Id) {
    exists key :: key in l.log && OverturnedIn(l.log[key], target)
  }

  /** An overturn unblocks only when its ban is what blocked the current generation last. */
  predicate OverturnUnblocks(row: Row, generation: nat, events: seq<Event>, target: Id) {
    generation == row.generation && LastChange(events) == Some(PhoneBlocked(Some(target)))
  }

  function OverturnEvents(unblock: bool, next: nat, target: Id, call: Call, ids: (Id, Id)): seq<Event> {
    var overturn := EventOf(ids.0, next, call, Sanction(BanOverturned(target)));
    if unblock then [overturn, EventOf(ids.1, next + 1, call, Change(PhoneUnblocked(Some(target))))] else [overturn]
  }

  /** The projection only follows its current generation. */
  function OverturnedRow(row: Row, current: bool, unblock: bool): Row {
    if !current then row
    else row.(count := row.count - 1, status := if unblock then Normal else row.status,
              blockedAt := if unblock then None else row.blockedAt)
  }

  function OverturnedBans(bans: map<Id, Ban>, target: Id): map<Id, Ban> {
    if target in bans then bans[target := bans[target].(overturned := true)] else bans
  }

  /** overturn_qualifying_ban, in the generation `key.1` of its target. */
  function OverturnAt(l: Ledger, ring: Keyring, key: Key, target: Id, call: Call, ids: (Id, Id)): (r: Result<Ledger>)
    requires key.0 in l.rows
    ensures r.Ok? ==> RowsKept(l, r.value) && call.opId in r.value.ops
  {
    var row, events := l.rows[key.0], Events(l, key);
    if AlreadyOverturned(l, target) then Err(AccountStateError)
    else if !ValidReason(call.reason) then Err(ContractError)
    else
      var unblock := OverturnUnblocks(row, key.1, events, target);
      var fingerprint := [target, "overturn", call.reason];
      var op := OpOf(key.0, key.1, OverturnSanction, call, fingerprint, 1, if unblock then 1 else 0);
      Reload(Record(l, call.opId, op, OverturnedRow(row, key.1 == row.generation, unblock),
                    OverturnEvents(unblock, NextSequence(events), target, call, ids))
             .(bans := OverturnedBans(l.bans, target)), ring, key.0)
  }

  function Overturn(l: Ledger, ring: Keyring, target: Id, call: Call, ids: (Id, Id)): Result<Ledger> {
    if target !in l.place then Err(AccountNotFoundError)
    else
      var key := l.place[target];
      var found := EventWith(Events(l, key), target);
      if found.None? || found.value.detail != Sanction(BanApplied) then Err(AccountNotFoundError)
      else if key.0 !in l.rows then Err(IntegrityError)
      else if call.opId in l.ops then Repeat(l, ring, key.0, call, [target, "overturn", call.reason])
      else OverturnAt(l, ring, key, target, call, ids)
  }

  /** reset_for_reassignment on the row found: a new generation with an empty history. */
  function ResetRow(l: Ledger, ring: Keyring, rep: Id, call: Call, ids: (Id, Id)): (r: Result<Ledger>)
    requires rep in l.rows
    ensures r.Ok? ==> RowsKept(l, r.value) && call.opId in r.value.ops
  {
    var row, fingerprint := l.rows[rep], [rep, "phone_reassignment", call.reason];
    if !ValidReason(call.reason) then Err(ContractError)
    else
      var generation := row.generation + 1;
      Reload(Record(l, call.opId, OpOf(rep, generation, PhoneReassignment, call, fingerprint, 1, 1),
                    row.(generation := generation, count := 0, status := Normal, blockedAt := None, lastBanAt := None),
                    [EventOf(ids.0, 1, call, Change(StatusStarted)),
                     EventOf(ids.1, 2, call, Sanction(SanctionStarted))]), ring, rep)
  }

  function Reset(l: Ledger, ring: Keyring, phone: string, call: Call, ids: (Id, Id)): Result<Ledger> {
    if exists user :: user in l.phones && l.phones[user] == phone then Err(AccountStateError)
    else
      match RequireRow(l, ring, phone)
      case Err(e) => Err(e)
      case Ok(rep) =>
        if call.opId in l.ops then Repeat(l, ring, rep, call, [rep, "phone_reassignment", call.reason])
        else ResetRow(l, ring, rep, call, ids)
  }

  // ----- accounts -----

  /** A registration or a phone change: the phone must not be somebody's active identity. */
  function Identify(l: Ledger, user: Id, phone: string): Result<Ledger> {
    if exists other :: other in l.phones && l.phones[other] == phone then Err(IdentityConflictError)
    else Ok(l.(phones := l.phones[user := phone]))
  }

  /** set_user_status */
  function SetStatus(l: Ledger, user: Id, active: bool): Result<Ledger> {
    if user !in l.phones then Err(AccountNotFoundError)
    else Ok(l.(suspended := if active then l.suspended - {user} else l.suspended + {user}))
  }

  /** The ban rows that the erasure of an account deletes. */
  function BansOf(l: Ledger, user: Id): set<Id> {
    set b | b in l.bans && l.bans[b].user == user
  }

  /**
   * erase_account, and with `dedicated` erase_qualifying_banned_account: the identity and the ban rows
   * of the user are deleted; the reputation of the phone is not touched.
   */
  function Erase(l: Ledger, user: Id, dedicated: bool): Result<Ledger> {
    if user !in l.phones then Err(AccountNotFoundError)
    else if dedicated && (user !in l.suspended || !LiveBan(l, user)) then Err(AccountStateError)
    else if !dedicated && user in l.suspended then Err(AccountStateError)
    else Ok(l.(phones := l.phones - {user}, bans := l.bans - BansOf(l, user), suspended := l.suspended - {user}))
  }
}
