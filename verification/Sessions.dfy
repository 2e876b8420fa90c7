/**
 * Session families and their refresh chains: src/cueflow/account.py and src/cueflow/auth.py.
 * A request is one transaction; it maps the tables to new tables and may also raise an error.
 */
module Sessions {
  import opened Outcomes

  /** Random hexadecimal text behind a fixed prefix: its text order is the order of the numbers. */
  type Id = nat
  type Digest = string
  type Phone = string

  const FAMILY_LIMIT := 5
  const FAMILY_TTL_MS := 180 * 24 * 60 * 60 * 1000
  const REFRESH_TTL_MS := 30 * 24 * 60 * 60 * 1000

  /** A user with the active phone identity. */
  datatype Account = Account(active: bool, phone: Phone)

  datatype Family = Family(user: Id, createdAt: int, revokedAt: Option<int>)

  datatype Session = Session(
    user: Id, family: Id, digest: Digest, createdAt: int, expiresAt: int,
    revokedAt: Option<int>, replacedBy: Option<Id>)

  /** `blocked` are the phones whose reputation row is blocked; `drawn` are the random ids drawn so far. */
  datatype Store = Store(
    users: map<Id, Account>, blocked: set<Phone>,
    families: map<Id, Family>, sessions: map<Id, Session>, drawn: set<Id>)

  const EMPTY := Store(map[], {}, map[], map[], {})

  datatype Outcome = Outcome(store: Store, error: Option<Error>)

  function Failed(s: Store, e: Error): Outcome {
    Outcome(s, Some(e))
  }

  function Done(s: Store): Outcome {
    Outcome(s, None)
  }

  /** A transaction whose inserts may break a UNIQUE constraint: it is rolled back with the error. */
  function Commit(s: Store, written: Option<Store>, e: Error): Outcome {
    if written.Some? then Done(written.value) else Failed(s, e)
  }

  // ----- validity of a session -----

  predicate FamilyLive(f: Family, now: int) {
    f.revokedAt.None? && now < f.createdAt + FAMILY_TTL_MS
  }

  predicate LeafLive(x: Session, now: int) {
    x.revokedAt.None? && x.replacedBy.None? && now < x.expiresAt
  }

  /** The part of the decision that the session and family rows settle. */
  predicate RowsLive(s: Store, id: Id, now: int) {
    id in s.sessions && s.sessions[id].family in s.families
    && LeafLive(s.sessions[id], now) && FamilyLive(s.families[s.sessions[id].family], now)
  }

  predicate Eligible(s: Store, user: Id) {
    user in s.users && s.users[user].active && s.users[user].phone !in s.blocked
  }

  /** session_is_active */
  predicate IsActive(s: Store, id: Id, now: int) {
    RowsLive(s, id, now) && Eligible(s, s.sessions[id].user)
  }

  predicate HasLiveLeaf(s: Store, family: Id, now: int) {
    exists id :: id in s.sessions && s.sessions[id].family == family && LeafLive(s.sessions[id], now)
  }

  predicate IsActiveFamily(s: Store, user: Id, f: Id, now: int)
    requires f in s.families
  {
    s.families[f].user == user && FamilyLive(s.families[f], now) && HasLiveLeaf(s, f, now)
  }

  /** _active_families, as a set. */
  function ActiveFamilies(s: Store, user: Id, now: int): set<Id> {
    set f | f in s.families && IsActiveFamily(s, user, f, now)
  }

  // ----- revocation -----

  function StampFamily(f: Family, hit: bool, now: int): Family {
    if hit && f.revokedAt.None? then f.(revokedAt := Some(now)) else f
  }

  function StampSession(x: Session, hit: bool, now: int): Session {
    if hit && x.revokedAt.None? then x.(revokedAt := Some(now)) else x
  }

  /** Two UPDATE statements that set `revoked_at` where it is still NULL. */
  function Stamp(s: Store, families: set<Id>, sessions: set<Id>, now: int): Store {
    s.(families := map f | f in s.families :: StampFamily(s.families[f], f in families, now),
       sessions := map x | x in s.sessions :: StampSession(s.sessions[x], x in sessions, now))
  }

  function SessionsIn(s: Store, families: set<Id>): set<Id> {
    set x | x in s.sessions && s.sessions[x].family in families
  }

  function FamiliesOf(s: Store, users: set<Id>): set<Id> {
    set f | f in s.families && s.families[f].user in users
  }

  function SessionsOf(s: Store, users: set<Id>): set<Id> {
    set x | x in s.sessions && s.sessions[x].user in users
  }

  function StampFamilies(s: Store, families: set<Id>, now: int): Store {
    Stamp(s, families, SessionsIn(s, families), now)
  }

  function StampUsers(s: Store, users: set<Id>, now: int): Store {
    Stamp(s, FamiliesOf(s, users), SessionsOf(s, users), now)
  }

  // ----- eviction -----

  /** `ORDER BY created_at, session_family_id` */
  predicate Before(families: map<Id, Family>, f: Id, g: Id)
    requires f in families && g in families
  {
    families[f].createdAt < families[g].createdAt
    || (families[f].createdAt == families[g].createdAt && f <= g)
  }

  predicate IsOldest(families: map<Id, Family>, rows: set<Id>, f: Id)
    requires rows <= families.Keys
  {
    f in rows && forall g :: g in rows ==> Before(families, f, g)
  }

  lemma {:induction false} OldestExists(families: map<Id, Family>, rows: set<Id>)
    requires rows <= families.Keys && rows != {}
    ensures exists f :: IsOldest(families, rows, f)
    decreases rows
  {
    var f :| f in rows;
    if rows == {f} {
      assert IsOldest(families, rows, f);
    } else {
      OldestExists(families, rows - {f});
      var g :| IsOldest(families, rows - {f}, g);
      assert forall h :: h in rows ==> h == f || h in rows - {f};
      assert IsOldest(families, rows, if Before(families, f, g) then f else g);
    }
  }

  function Oldest(families: map<Id, Family>, rows: set<Id>): (f: Id)
    requires rows <= families.Keys && rows != {}
    ensures IsOldest(families, rows, f)
  {
    OldestExists(families, rows);
    var f :| IsOldest(families, rows, f);
    f
  }

  /** The families that the eviction loop pops: the oldest, until fewer than five are left. */
  function Evicted(families: map<Id, Family>, rows: set<Id>): set<Id>
    requires rows <= families.Keys
    decreases |rows|
  {
    if |rows| < FAMILY_LIMIT then {}
    else
      var f := Oldest(families, rows);
      {f} + Evicted(families, rows - {f})
  }

  function Evict(s: Store, user: Id, now: int): Store {
    StampFamilies(s, Evicted(s.families, ActiveFamilies(s, user, now)), now)
  }

  // ----- inserting sessions -----

  predicate DigestTaken(s: Store, digest: Digest) {
    exists id :: id in s.sessions && s.sessions[id].digest == digest
  }

  /** Ids and refresh digest of a new family and its first session. */
  datatype Login = Login(family: Id, session: Id, digest: Digest)

  /** A family with its first session. None when an insert breaks a UNIQUE constraint. */
  function OpenFamily(s: Store, user: Id, login: Login, now: int, expiresAt: int): Option<Store> {
    if login.family in s.drawn || login.session in s.drawn || login.family == login.session
       || DigestTaken(s, login.digest)
    then None
    else Some(s.(families := s.families[login.family := Family(user, now, None)],
                 sessions := s.sessions[login.session :=
                   Session(user, login.family, login.digest, now, expiresAt, None, None)],
                 drawn := s.drawn + {login.family, login.session}))
  }

  /** _create_login_state_tx: eviction, then a new family. */
  function CreateLoginState(s: Store, user: Id, login: Login, now: int, expiresAt: int): Option<Store> {
    OpenFamily(Evict(s, user, now), user, login, now, expiresAt)
  }

  /** _rotate_login_state_tx: the session is revoked and replaced by `next`. */
  function Replace(s: Store, id: Id, next: Id, digest: Digest, now: int, expiresAt: int): Option<Store>
    requires id in s.sessions
  {
    if next in s.drawn || DigestTaken(s, digest) then None
    else
      var x := s.sessions[id];
      Some(s.(sessions := s.sessions[id := x.(revokedAt := Some(now), replacedBy := Some(next))]
                [next := Session(x.user, x.family, digest, now, expiresAt, None, None)],
              drawn := s.drawn + {next}))
  }

  // ----- the requests -----

  datatype Request =
    | Register(user: Id, phone: Phone, login: Login)
    | SignIn(user: Id, login: Login)
    | CreateSession(user: Id, login: Login, expiresAt: int)
    | RotateSession(session: Id, next: Id, digest: Digest, expiresAt: int)
    | Refresh(presented: Digest, next: Id, digest: Digest)
    | RevokeSession(session: Id)
    | RevokeFamily(family: Id)
    | RevokeAll(user: Id)
    | SetStatus(user: Id, active: bool)
    | ChangePassword(session: Id, login: Login)
    | ChangePhone(session: Id, phone: Phone, login: Login)
    | BlockPhone(phone: Phone)
    | UnblockPhone(phone: Phone)
    | ApplyBan(user: Id, blocks: bool)
    | EraseAccount(user: Id)

  predicate Registered(s: Store, phone: Phone) {
    exists u :: u in s.users && s.users[u].phone == phone
  }

  function DoRegister(s: Store, user: Id, phone: Phone, login: Login, now: int): Outcome {
    if Registered(s, phone) then Failed(s, IdentityConflictError)
    else if phone in s.blocked then Failed(s, PhoneBlockedError)
    else if user in s.drawn then Failed(s, IdentityConflictError)
    else
      var added := s.(users := s.users[user := Account(true, phone)], drawn := s.drawn + {user});
      Commit(s, CreateLoginState(added, user, login, now, now + REFRESH_TTL_MS), IdentityConflictError)
  }

  /** login_with_password and the code login, once the credentials are right. */
  function DoSignIn(s: Store, user: Id, login: Login, now: int): Outcome {
    if user !in s.users then Failed(s, AuthenticationError)
    else if s.users[user].phone in s.blocked then Failed(s, PhoneBlockedError)
    else if !s.users[user].active then Failed(s, AuthenticationError)
    else Commit(s, CreateLoginState(s, user, login, now, now + REFRESH_TTL_MS), StorageError)
  }

  /** AccountService.create_session looks at the user status only, not at the phone. */
  function DoCreateSession(s: Store, user: Id, login: Login, expiresAt: int, now: int): Outcome {
    if expiresAt <= now then Failed(s, ContractError)
    else if user !in s.users then Failed(s, AccountNotFoundError)
    else if !s.users[user].active then Failed(s, AccountStateError)
    else Commit(s, CreateLoginState(s, user, login, now, expiresAt), SessionStateError)
  }

  function DoRotateSession(s: Store, id: Id, next: Id, digest: Digest, expiresAt: int, now: int): Outcome {
    if expiresAt <= now then Failed(s, ContractError)
    else if id !in s.sessions then Failed(s, AccountNotFoundError)
    else if !IsActive(s, id, now) then Failed(s, SessionStateError)
    else Commit(s, Replace(s, id, next, digest, now, expiresAt), SessionStateError)
  }

  predicate IsLeast(ids: set<Id>, id: Id) {
    id in ids && forall other :: other in ids ==> id <= other
  }

  lemma {:induction false} LeastExists(ids: set<Id>)
    requires ids != {}
    ensures exists id :: IsLeast(ids, id)
    decreases ids
  {
    var id :| id in ids;
    if ids == {id} {
      assert IsLeast(ids, id);
    } else {
      LeastExists(ids - {id});
      var other :| IsLeast(ids - {id}, other);
      assert forall x :: x in ids ==> x == id || x in ids - {id};
      assert IsLeast(ids, if id <= other then id else other);
    }
  }

  /** The digest is UNIQUE, so there is at most one such row; see Inv. */
  function WithDigest(s: Store, digest: Digest): (r: Option<Id>)
    ensures r.Some? <==> DigestTaken(s, digest)
    ensures r.Some? ==> r.value in s.sessions && s.sessions[r.value].digest == digest
  {
    var ids := set id | id in s.sessions && s.sessions[id].digest == digest;
    assert forall id :: id in s.sessions && s.sessions[id].digest == digest ==> id in ids;
    if ids == {} then None
    else
      LeastExists(ids);
      var id :| IsLeast(ids, id);
      Some(id)
  }

  /** refresh_session: a replaced token revokes its family, and the revocation is committed. */
  function DoRefresh(s: Store, presented: Digest, next: Id, digest: Digest, now: int): Outcome {
    var found := WithDigest(s, presented);
    if found.None? || s.sessions[found.value].user !in s.users then Failed(s, AuthenticationError)
    else
      var id := found.value;
      if IsActive(s, id, now) then Commit(s, Replace(s, id, next, digest, now, now + REFRESH_TTL_MS), StorageError)
      else if s.sessions[id].replacedBy.Some? then
        Failed(StampFamilies(s, {s.sessions[id].family}, now), AuthenticationError)
      else Failed(s, AuthenticationError)
  }

  function DoRevokeSession(s: Store, id: Id, now: int): Outcome {
    if id !in s.sessions then Failed(s, AccountNotFoundError) else Done(Stamp(s, {}, {id}, now))
  }

  function DoRevokeFamily(s: Store, family: Id, now: int): Outcome {
    if family !in s.families then Failed(s, AccountNotFoundError) else Done(StampFamilies(s, {family}, now))
  }

  function DoRevokeAll(s: Store, user: Id, now: int): Outcome {
    if user !in s.users then Failed(s, AccountNotFoundError) else Done(StampUsers(s, {user}, now))
  }

  function WithUser(s: Store, user: Id, account: Account): Store {
    s.(users := s.users[user := account])
  }

  function DoSetStatus(s: Store, user: Id, active: bool, now: int): Outcome {
    if user !in s.users then Failed(s, AccountNotFoundError)
    else if s.users[user].active == active then Done(s)
    else Done(WithUser(if active then s else StampUsers(s, {user}, now), user, s.users[user].(active := active)))
  }

  /** change_password under a valid access token of `id`. */
  function DoChangePassword(s: Store, id: Id, login: Login, now: int): Outcome {
    if !IsActive(s, id, now) then Failed(s, AuthenticationError)
    else
      var user := s.sessions[id].user;
      Commit(s, CreateLoginState(StampUsers(s, {user}, now), user, login, now, now + REFRESH_TTL_MS), StorageError)
  }

  function DoChangePhone(s: Store, id: Id, phone: Phone, login: Login, now: int): Outcome {
    if !IsActive(s, id, now) then Failed(s, AuthenticationError)
    else if Registered(s, phone) then Failed(s, IdentityConflictError)
    else if phone in s.blocked then Failed(s, PhoneBlockedError)
    else
      var user := s.sessions[id].user;
      var moved := WithUser(StampUsers(s, {user}, now), user, s.users[user].(phone := phone));
      Commit(s, CreateLoginState(moved, user, login, now, now + REFRESH_TTL_MS), StorageError)
  }

  function OwnersOf(s: Store, phone: Phone): set<Id> {
    set u | u in s.users && s.users[u].phone == phone
  }

  /** _revoke_phone_sessions_tx: everybody whose active phone this is. */
  function StampPhone(s: Store, phone: Phone, now: int): Store {
    StampUsers(s, OwnersOf(s, phone), now)
  }

  /** administrative_block_phone; blocking a blocked phone changes nothing here. */
  function DoBlockPhone(s: Store, phone: Phone, now: int): Outcome {
    if phone in s.blocked then Done(s) else Done(StampPhone(s, phone, now).(blocked := s.blocked + {phone}))
  }

  /** Every way back to `normal`: an unblock, an overturn, or a reassignment. */
  function DoUnblockPhone(s: Store, phone: Phone): Outcome {
    Done(s.(blocked := s.blocked - {phone}))
  }

  /** The session side of apply_qualifying_ban; `blocks` when the ban also blocks the phone. */
  function DoApplyBan(s: Store, user: Id, blocks: bool, now: int): Outcome {
    if user !in s.users then Failed(s, AccountStateError)
    else
      var account := s.users[user];
      var suspended := WithUser(StampUsers(s, {user}, now), user, account.(active := false));
      Done(suspended.(blocked := if blocks then s.blocked + {account.phone} else s.blocked))
  }

  function Erased(s: Store, user: Id): Store {
    s.(users := s.users - {user}, families := s.families - FamiliesOf(s, {user}),
        sessions := s.sessions - SessionsOf(s, {user}))
  }

  function DoEraseAccount(s: Store, user: Id): Outcome {
    if user !in s.users then Failed(s, AccountNotFoundError)
    else if !s.users[user].active then Failed(s, AccountStateError)
    else Done(Erased(s, user))
  }

  function Perform(s: Store, request: Request, now: int): Outcome {
    match request
    case Register(user, phone, login) => DoRegister(s, user, phone, login, now)
    case SignIn(user, login) => DoSignIn(s, user, login, now)
    case CreateSession(user, login, expiresAt) => DoCreateSession(s, user, login, expiresAt, now)
    case RotateSession(id, next, digest, expiresAt) => DoRotateSession(s, id, next, digest, expiresAt, now)
    case Refresh(presented, next, digest) => DoRefresh(s, presented, next, digest, now)
    case RevokeSession(id) => DoRevokeSession(s, id, now)
    case RevokeFamily(family) => DoRevokeFamily(s, family, now)
    case RevokeAll(user) => DoRevokeAll(s, user, now)
    case SetStatus(user, active) => DoSetStatus(s, user, active, now)
    case ChangePassword(id, login) => DoChangePassword(s, id, login, now)
    case ChangePhone(id, phone, login) => DoChangePhone(s, id, phone, login, now)
    case BlockPhone(phone) => DoBlockPhone(s, phone, now)
    case UnblockPhone(phone) => DoUnblockPhone(s, phone)
    case ApplyBan(user, blocks) => DoApplyBan(s, user, blocks, now)
    case EraseAccount(user) => DoEraseAccount(s, user)
  }

  // ----- runs -----

  datatype Step = Step(request: Request, now: int)

  function After(s: Store, step: Step): Store {
    Perform(s, step.request, step.now).store
  }

  function Run(s: Store, steps: seq<Step>): Store {
    if steps == [] then s
    else
      var n := |steps| - 1;
      After(Run(s, steps[..n]), steps[n])
  }

  /** The clock does not go back: neither between steps, nor from `from` to `to`. */
  predicate Timed(from: int, steps: seq<Step>, to: int) {
    && from <= to
    && (forall i :: 0 <= i < |steps| ==> from <= steps[i].now <= to)
    && (forall i, j :: 0 <= i < j < |steps| ==> steps[i].now <= steps[j].now)
  }
}
