/** What every transaction on the session tables keeps, one kind of write at a time. */
module SessionLaws {
  import opened Outcomes
  import opened Sessions

  // ----- the invariant -----

  ghost predicate SessionLinked(s: Store, x: Id)
    requires x in s.sessions
  {
    var row := s.sessions[x];
    x in s.drawn && row.family in s.families && s.families[row.family].user == row.user
    && (row.replacedBy.Some? ==> row.revokedAt.Some?)
  }

  ghost predicate FamilyLinked(s: Store, f: Id)
    requires f in s.families
  {
    f in s.drawn && s.families[f].user in s.users
  }

  /** Foreign keys, the CHECK on replaced sessions, and the two UNIQUE constraints. */
  ghost predicate Linked(s: Store) {
    && (forall x {:trigger SessionLinked(s, x)} :: x in s.sessions ==> SessionLinked(s, x))
    && (forall f {:trigger FamilyLinked(s, f)} :: f in s.families ==> FamilyLinked(s, f))
    && (forall u :: u in s.users ==> u in s.drawn)
    && (forall u, v :: u in s.users && v in s.users && s.users[u].phone == s.users[v].phone ==> u == v)
    && (forall x, y :: x in s.sessions && y in s.sessions && s.sessions[x].digest == s.sessions[y].digest ==> x == y)
  }

  /** `chain` lists the sessions of the family: each but the last is revoked and replaced by its successor. */
  ghost predicate IsChain(s: Store, f: Id, chain: seq<Id>) {
    && chain != []
    && (forall i :: 0 <= i < |chain| ==> chain[i] in s.sessions && s.sessions[chain[i]].family == f)
    && (forall i, j :: 0 <= i < j < |chain| ==> chain[i] != chain[j])
    && (forall x :: x in s.sessions && s.sessions[x].family == f ==> x in chain)
    && (forall i :: 0 <= i < |chain| - 1 ==>
          s.sessions[chain[i]].replacedBy == Some(chain[i + 1]) && s.sessions[chain[i]].revokedAt.Some?)
    && s.sessions[chain[|chain| - 1]].replacedBy == None
  }

  ghost predicate HasChain(s: Store, f: Id) {
    exists chain :: IsChain(s, f, chain)
  }

  ghost predicate Chained(s: Store) {
    forall f {:trigger HasChain(s, f)} :: f in s.families ==> HasChain(s, f)
  }

  ghost predicate Inv(s: Store) {
    Linked(s) && Chained(s)
  }

  // ----- how rows age -----

  ghost predicate SessionAged(a: Session, b: Session) {
    && b.user == a.user && b.family == a.family && b.digest == a.digest && b.expiresAt == a.expiresAt
    && (a.revokedAt.Some? ==> b.revokedAt == a.revokedAt)
    && (a.replacedBy.Some? ==> b.replacedBy == a.replacedBy)
  }

  ghost predicate FamilyAged(a: Family, b: Family) {
    b.user == a.user && b.createdAt == a.createdAt && (a.revokedAt.Some? ==> b.revokedAt == a.revokedAt)
  }

  ghost predicate SessionStays(s: Store, t: Store, x: Id) {
    x in t.sessions ==> x in s.sessions && SessionAged(s.sessions[x], t.sessions[x])
  }

  ghost predicate FamilyStays(s: Store, t: Store, f: Id) {
    f in t.families ==> f in s.families && FamilyAged(s.families[f], t.families[f])
  }

  /** An id stays drawn; its row may only be erased, revoked, or replaced, and never comes back. */
  ghost predicate Evolves(s: Store, t: Store) {
    && s.drawn <= t.drawn
    && (forall x {:trigger SessionStays(s, t, x)} :: x in s.drawn ==> SessionStays(s, t, x))
    && (forall f {:trigger FamilyStays(s, t, f)} :: f in s.drawn ==> FamilyStays(s, t, f))
  }

  lemma {:induction false} EvolvesFurther(s: Store, t: Store, u: Store)
    requires Evolves(s, t) && Evolves(t, u)
    ensures Evolves(s, u)
  {
    forall x | x in s.drawn
      ensures SessionStays(s, u, x)
    {
      assert SessionStays(s, t, x) && SessionStays(t, u, x);
    }
    forall f | f in s.drawn
      ensures FamilyStays(s, u, f)
    {
      assert FamilyStays(s, t, f) && FamilyStays(t, u, f);
    }
  }

  // ----- revoking -----

  lemma {:induction false} StampKeepsLinks(s: Store, families: set<Id>, sessions: set<Id>, now: int)
    requires Linked(s)
    ensures Linked(Stamp(s, families, sessions, now))
  {
    var t := Stamp(s, families, sessions, now);
    forall x | x in t.sessions
      ensures SessionLinked(t, x)
    {
      assert SessionLinked(s, x);
    }
    forall f | f in t.families
      ensures FamilyLinked(t, f)
    {
      assert FamilyLinked(s, f);
    }
  }

  lemma {:induction false} StampEvolves(s: Store, families: set<Id>, sessions: set<Id>, now: int)
    ensures Evolves(s, Stamp(s, families, sessions, now))
  {
    var t := Stamp(s, families, sessions, now);
    forall x | x in s.drawn
      ensures SessionStays(s, t, x)
    {
    }
    forall f | f in s.drawn
      ensures FamilyStays(s, t, f)
    {
    }
  }

  lemma {:induction false} StampKeepsChains(s: Store, families: set<Id>, sessions: set<Id>, now: int)
    requires Chained(s)
    ensures Chained(Stamp(s, families, sessions, now))
  {
    var t := Stamp(s, families, sessions, now);
    forall f | f in t.families
      ensures HasChain(t, f)
    {
      assert HasChain(s, f);
      var chain :| IsChain(s, f, chain);
      assert IsChain(t, f, chain);
    }
  }

  lemma {:induction false} StampKeeps(s: Store, families: set<Id>, sessions: set<Id>, now: int)
    requires Inv(s)
    ensures Inv(Stamp(s, families, sessions, now)) && Evolves(s, Stamp(s, families, sessions, now))
  {
    StampKeepsLinks(s, families, sessions, now);
    StampKeepsChains(s, families, sessions, now);
    StampEvolves(s, families, sessions, now);
  }

  // ----- opening a family -----

  lemma {:induction false} OpenKeepsLinks(s: Store, user: Id, login: Login, now: int, expiresAt: int)
    requires Linked(s) && user in s.users && OpenFamily(s, user, login, now, expiresAt).Some?
    ensures Linked(OpenFamily(s, user, login, now, expiresAt).value)
  {
    var t := OpenFamily(s, user, login, now, expiresAt).value;
    forall x | x in t.sessions
      ensures SessionLinked(t, x)
    {
      if x != login.session {
        assert SessionLinked(s, x) && FamilyLinked(s, s.sessions[x].family);
      }
    }
    forall f | f in t.families
      ensures FamilyLinked(t, f)
    {
      if f != login.family {
        assert FamilyLinked(s, f);
      }
    }
  }

  lemma {:induction false} OpenKeepsChains(s: Store, user: Id, login: Login, now: int, expiresAt: int)
    requires Inv(s) && OpenFamily(s, user, login, now, expiresAt).Some?
    ensures Chained(OpenFamily(s, user, login, now, expiresAt).value)
  {
    var t := OpenFamily(s, user, login, now, expiresAt).value;
    forall x | x in s.sessions
      ensures s.sessions[x].family != login.family && x != login.session
    {
      assert SessionLinked(s, x) && FamilyLinked(s, s.sessions[x].family);
    }
    forall f | f in t.families
      ensures HasChain(t, f)
    {
      if f == login.family {
        assert IsChain(t, f, [login.session]);
      } else {
        assert HasChain(s, f);
        var chain :| IsChain(s, f, chain);
        assert IsChain(t, f, chain);
      }
    }
  }

  lemma {:induction false} OpenEvolves(s: Store, user: Id, login: Login, now: int, expiresAt: int)
    requires OpenFamily(s, user, login, now, expiresAt).Some?
    ensures Evolves(s, OpenFamily(s, user, login, now, expiresAt).value)
  {
    var t := OpenFamily(s, user, login, now, expiresAt).value;
    forall x | x in s.drawn
      ensures SessionStays(s, t, x)
    {
    }
    forall f | f in s.drawn
      ensures FamilyStays(s, t, f)
    {
    }
  }

  lemma {:induction false} LoginKeeps(s: Store, user: Id, login: Login, now: int, expiresAt: int)
    requires Inv(s) && user in s.users && CreateLoginState(s, user, login, now, expiresAt).Some?
    ensures Inv(CreateLoginState(s, user, login, now, expiresAt).value)
    ensures Evolves(s, CreateLoginState(s, user, login, now, expiresAt).value)
  {
    var gone := Evicted(s.families, ActiveFamilies(s, user, now));
    var evicted := Evict(s, user, now);
    StampKeeps(s, gone, SessionsIn(s, gone), now);
    OpenKeepsLinks(evicted, user, login, now, expiresAt);
    OpenKeepsChains(evicted, user, login, now, expiresAt);
    OpenEvolves(evicted, user, login, now, expiresAt);
    EvolvesFurther(s, evicted, CreateLoginState(s, user, login, now, expiresAt).value);
  }

  // ----- rotating a session -----

  /** A live session is the end of its chain. */
  lemma {:induction false} LiveIsLast(s: Store, f: Id, chain: seq<Id>, x: Id)
    requires IsChain(s, f, chain) && x in s.sessions && s.sessions[x].family == f
    ensures s.sessions[x].replacedBy.None? || s.sessions[x].revokedAt.None? ==> x == chain[|chain| - 1]
  {
    var i :| 0 <= i < |chain| && chain[i] == x;
    if i < |chain| - 1 {
      assert s.sessions[chain[i]].replacedBy == Some(chain[i + 1]);
    }
  }

  lemma {:induction false} ReplaceKeepsLinks(s: Store, id: Id, next: Id, digest: Digest, now: int, expiresAt: int)
    requires Linked(s) && id in s.sessions && Replace(s, id, next, digest, now, expiresAt).Some?
    ensures Linked(Replace(s, id, next, digest, now, expiresAt).value)
  {
    var t := Replace(s, id, next, digest, now, expiresAt).value;
    assert SessionLinked(s, id);
    forall x | x in t.sessions
      ensures SessionLinked(t, x)
    {
      if x != next {
        assert SessionLinked(s, x);
      }
    }
    forall f | f in t.families
      ensures FamilyLinked(t, f)
    {
      assert FamilyLinked(s, f);
    }
  }

  lemma {:induction false} ChainExtended(s: Store, t: Store, f: Id, chain: seq<Id>, next: Id)
    requires IsChain(s, f, chain) && next !in s.sessions && t.sessions.Keys == s.sessions.Keys + {next}
    requires t.sessions[next].family == f && t.sessions[next].replacedBy.None?
    requires var last := t.sessions[chain[|chain| - 1]];
             last.family == f && last.replacedBy == Some(next) && last.revokedAt.Some?
    requires forall x :: x in s.sessions && x != chain[|chain| - 1] ==> t.sessions[x] == s.sessions[x]
    ensures IsChain(t, f, chain + [next])
  {
    var longer := chain + [next];
    forall i | 0 <= i < |longer| - 1
      ensures t.sessions[longer[i]].replacedBy == Some(longer[i + 1]) && t.sessions[longer[i]].revokedAt.Some?
    {
      if i < |chain| - 1 {
        assert s.sessions[chain[i]].replacedBy == Some(chain[i + 1]);
        assert chain[i] != chain[|chain| - 1];
      }
    }
  }

  lemma {:induction false} ChainGrows(
    s: Store, chain: seq<Id>, id: Id, next: Id, digest: Digest, now: int, expiresAt: int)
    requires Linked(s) && id in s.sessions && Replace(s, id, next, digest, now, expiresAt).Some?
    requires s.sessions[id].replacedBy.None? && IsChain(s, s.sessions[id].family, chain)
    ensures IsChain(Replace(s, id, next, digest, now, expiresAt).value, s.sessions[id].family, chain + [next])
  {
    LiveIsLast(s, s.sessions[id].family, chain, id);
    forall x | x in s.sessions
      ensures x in s.drawn
    {
      assert SessionLinked(s, x);
    }
    ChainExtended(s, Replace(s, id, next, digest, now, expiresAt).value, s.sessions[id].family, chain, next);
  }

  lemma {:induction false} ChainUntouched(s: Store, t: Store, f: Id, chain: seq<Id>, next: Id)
    requires IsChain(s, f, chain) && next !in s.sessions && t.sessions.Keys == s.sessions.Keys + {next}
    requires t.sessions[next].family != f
    requires forall x :: x in s.sessions ==> t.sessions[x].family == s.sessions[x].family
    requires forall x :: x in s.sessions && s.sessions[x].family == f ==> t.sessions[x] == s.sessions[x]
    ensures IsChain(t, f, chain)
  {
  }

  lemma {:induction false} ReplaceKeepsChains(s: Store, id: Id, next: Id, digest: Digest, now: int, expiresAt: int)
    requires Inv(s) && id in s.sessions && Replace(s, id, next, digest, now, expiresAt).Some?
    requires s.sessions[id].replacedBy.None?
    ensures Chained(Replace(s, id, next, digest, now, expiresAt).value)
  {
    hide IsChain, DigestTaken;
    var t := Replace(s, id, next, digest, now, expiresAt).value;
    forall x | x in s.sessions
      ensures x in s.drawn
    {
      assert SessionLinked(s, x);
    }
    forall f | f in t.families
      ensures HasChain(t, f)
    {
      assert HasChain(s, f);
      var chain :| IsChain(s, f, chain);
      if f == s.sessions[id].family {
        ChainGrows(s, chain, id, next, digest, now, expiresAt);
        assert IsChain(t, f, chain + [next]);
      } else {
        ChainUntouched(s, t, f, chain, next);
      }
    }
  }

  lemma {:induction false} ReplaceEvolves(s: Store, id: Id, next: Id, digest: Digest, now: int, expiresAt: int)
    requires id in s.sessions && Replace(s, id, next, digest, now, expiresAt).Some?
    requires s.sessions[id].replacedBy.None? && s.sessions[id].revokedAt.None?
    ensures Evolves(s, Replace(s, id, next, digest, now, expiresAt).value)
  {
    var t := Replace(s, id, next, digest, now, expiresAt).value;
    forall x | x in s.drawn
      ensures SessionStays(s, t, x)
    {
    }
    forall f | f in s.drawn
      ensures FamilyStays(s, t, f)
    {
    }
  }

  lemma {:induction false} ReplaceKeeps(s: Store, id: Id, next: Id, digest: Digest, now: int, expiresAt: int)
    requires Inv(s) && RowsLive(s, id, now) && Replace(s, id, next, digest, now, expiresAt).Some?
    ensures Inv(Replace(s, id, next, digest, now, expiresAt).value)
    ensures Evolves(s, Replace(s, id, next, digest, now, expiresAt).value)
  {
    ReplaceKeepsLinks(s, id, next, digest, now, expiresAt);
    ReplaceKeepsChains(s, id, next, digest, now, expiresAt);
    ReplaceEvolves(s, id, next, digest, now, expiresAt);
  }

  // ----- accounts and phones -----

  /** Rows of users and phones may change as long as users keep distinct phones. */
  lemma {:induction false} AccountsKeep(s: Store, t: Store)
    requires Inv(s)
    requires t.families == s.families && t.sessions == s.sessions && s.drawn <= t.drawn
    requires s.users.Keys <= t.users.Keys <= t.drawn
    requires forall u, v :: u in t.users && v in t.users && t.users[u].phone == t.users[v].phone ==> u == v
    ensures Inv(t) && Evolves(s, t)
  {
    forall x | x in t.sessions
      ensures SessionLinked(t, x)
    {
      assert SessionLinked(s, x);
    }
    forall f | f in t.families
      ensures FamilyLinked(t, f) && HasChain(t, f)
    {
      assert FamilyLinked(s, f) && HasChain(s, f);
      var chain :| IsChain(s, f, chain);
      assert IsChain(t, f, chain);
    }
    forall x | x in s.drawn
      ensures SessionStays(s, t, x) && FamilyStays(s, t, x)
    {
    }
  }

  lemma {:induction false} EraseKeeps(s: Store, user: Id)
    requires Inv(s)
    ensures Inv(Erased(s, user)) && Evolves(s, Erased(s, user))
  {
    var t := Erased(s, user);
    forall x | x in t.sessions
      ensures SessionLinked(t, x)
    {
      assert SessionLinked(s, x);
    }
    forall f | f in t.families
      ensures FamilyLinked(t, f) && HasChain(t, f)
    {
      assert FamilyLinked(s, f) && HasChain(s, f);
      var chain :| IsChain(s, f, chain);
      forall i | 0 <= i < |chain|
        ensures chain[i] in t.sessions
      {
        assert SessionLinked(s, chain[i]);
      }
      assert IsChain(t, f, chain);
    }
    forall x | x in s.drawn
      ensures SessionStays(s, t, x) && FamilyStays(s, t, x)
    {
    }
  }

  // ----- every request -----

  ghost predicate Keeps(s: Store, t: Store) {
    Inv(t) && Evolves(s, t)
  }

  lemma {:induction false} Stands(s: Store)
    requires Inv(s)
    ensures Keeps(s, s)
  {
    forall x | x in s.drawn
      ensures SessionStays(s, s, x) && FamilyStays(s, s, x)
    {
      if x in s.sessions {
        assert SessionAged(s.sessions[x], s.sessions[x]);
      }
    }
  }

  /** From a store `t` that keeps `s`: a login state, or a rollback to `s`. */
  lemma {:induction false} CommitKeeps(s: Store, t: Store, user: Id, login: Login, now: int, expiresAt: int, e: Error)
    requires Inv(s) && Keeps(s, t) && user in t.users
    ensures Keeps(s, Commit(s, CreateLoginState(t, user, login, now, expiresAt), e).store)
  {
    Stands(s);
    var made := CreateLoginState(t, user, login, now, expiresAt);
    if made.Some? {
      LoginKeeps(t, user, login, now, expiresAt);
      EvolvesFurther(s, t, made.value);
    }
  }

  lemma {:induction false} RegisterKeeps(s: Store, user: Id, phone: Phone, login: Login, now: int)
    requires Inv(s)
    ensures Keeps(s, DoRegister(s, user, phone, login, now).store)
  {
    Stands(s);
    if !Registered(s, phone) && phone !in s.blocked && user !in s.drawn {
      var added := s.(users := s.users[user := Account(true, phone)], drawn := s.drawn + {user});
      AccountsKeep(s, added);
      CommitKeeps(s, added, user, login, now, now + REFRESH_TTL_MS, IdentityConflictError);
    }
  }

  lemma {:induction false} RefreshKeeps(s: Store, presented: Digest, next: Id, digest: Digest, now: int)
    requires Inv(s)
    ensures Keeps(s, DoRefresh(s, presented, next, digest, now).store)
  {
    Stands(s);
    var found := WithDigest(s, presented);
    if found.Some? && s.sessions[found.value].user in s.users {
      var id := found.value;
      if IsActive(s, id, now) {
        if Replace(s, id, next, digest, now, now + REFRESH_TTL_MS).Some? {
          ReplaceKeeps(s, id, next, digest, now, now + REFRESH_TTL_MS);
        }
      } else {
        StampKeeps(s, {s.sessions[id].family}, SessionsIn(s, {s.sessions[id].family}), now);
      }
    }
  }

  lemma {:induction false} RotateKeeps(s: Store, id: Id, next: Id, digest: Digest, expiresAt: int, now: int)
    requires Inv(s)
    ensures Keeps(s, DoRotateSession(s, id, next, digest, expiresAt, now).store)
  {
    Stands(s);
    if IsActive(s, id, now) && Replace(s, id, next, digest, now, expiresAt).Some? {
      ReplaceKeeps(s, id, next, digest, now, expiresAt);
    }
  }

  lemma {:induction false} ChangeUserKeeps(s: Store, t: Store, user: Id, account: Account)
    requires Keeps(s, t) && user in t.users
    requires account.phone == t.users[user].phone || !Registered(t, account.phone)
    ensures Keeps(s, WithUser(t, user, account))
  {
    AccountsKeep(t, WithUser(t, user, account));
    EvolvesFurther(s, t, WithUser(t, user, account));
  }

  lemma {:induction false} BlockedKeeps(s: Store, t: Store, blocked: set<Phone>)
    requires Keeps(s, t)
    ensures Keeps(s, t.(blocked := blocked))
  {
    AccountsKeep(t, t.(blocked := blocked));
    EvolvesFurther(s, t, t.(blocked := blocked));
  }

  lemma {:induction false} StampUsersKeeps(s: Store, users: set<Id>, now: int)
    requires Inv(s)
    ensures Keeps(s, StampUsers(s, users, now))
  {
    StampKeeps(s, FamiliesOf(s, users), SessionsOf(s, users), now);
  }

  lemma {:induction false} ChangePhoneKeeps(s: Store, id: Id, phone: Phone, login: Login, now: int)
    requires Inv(s)
    ensures Keeps(s, DoChangePhone(s, id, phone, login, now).store)
  {
    Stands(s);
    if IsActive(s, id, now) && !Registered(s, phone) && phone !in s.blocked {
      var user := s.sessions[id].user;
      StampUsersKeeps(s, {user}, now);
      ChangeUserKeeps(s, StampUsers(s, {user}, now), user, s.users[user].(phone := phone));
      var moved := WithUser(StampUsers(s, {user}, now), user, s.users[user].(phone := phone));
      CommitKeeps(s, moved, user, login, now, now + REFRESH_TTL_MS, StorageError);
    }
  }

  lemma {:induction false} StatusKeeps(s: Store, user: Id, active: bool, now: int)
    requires Inv(s)
    ensures Keeps(s, DoSetStatus(s, user, active, now).store)
  {
    Stands(s);
    if user in s.users {
      StampUsersKeeps(s, {user}, now);
      ChangeUserKeeps(s, if active then s else StampUsers(s, {user}, now), user, s.users[user].(active := active));
    }
  }

  lemma {:induction false} BanKeeps(s: Store, user: Id, blocks: bool, now: int)
    requires Inv(s)
    ensures Keeps(s, DoApplyBan(s, user, blocks, now).store)
  {
    Stands(s);
    if user in s.users {
      StampUsersKeeps(s, {user}, now);
      ChangeUserKeeps(s, StampUsers(s, {user}, now), user, s.users[user].(active := false));
      var suspended := WithUser(StampUsers(s, {user}, now), user, s.users[user].(active := false));
      BlockedKeeps(s, suspended, if blocks then s.blocked + {s.users[user].phone} else s.blocked);
    }
  }

  lemma {:induction false} BlockKeeps(s: Store, phone: Phone, now: int)
    requires Inv(s)
    ensures Keeps(s, DoBlockPhone(s, phone, now).store)
  {
    Stands(s);
    StampUsersKeeps(s, OwnersOf(s, phone), now);
    BlockedKeeps(s, StampPhone(s, phone, now), s.blocked + {phone});
  }

  lemma {:induction false} SignInKeeps(s: Store, user: Id, login: Login, now: int)
    requires Inv(s)
    ensures Keeps(s, DoSignIn(s, user, login, now).store)
  {
    Stands(s);
    if user in s.users {
      CommitKeeps(s, s, user, login, now, now + REFRESH_TTL_MS, StorageError);
    }
  }

  lemma {:induction false} CreateSessionKeeps(s: Store, user: Id, login: Login, expiresAt: int, now: int)
    requires Inv(s)
    ensures Keeps(s, DoCreateSession(s, user, login, expiresAt, now).store)
  {
    Stands(s);
    if user in s.users {
      CommitKeeps(s, s, user, login, now, expiresAt, SessionStateError);
    }
  }

  lemma {:induction false} ChangePasswordKeeps(s: Store, id: Id, login: Login, now: int)
    requires Inv(s)
    ensures Keeps(s, DoChangePassword(s, id, login, now).store)
  {
    Stands(s);
    if IsActive(s, id, now) {
      var user := s.sessions[id].user;
      StampUsersKeeps(s, {user}, now);
      CommitKeeps(s, StampUsers(s, {user}, now), user, login, now, now + REFRESH_TTL_MS, StorageError);
    }
  }

  lemma {:induction false} RevocationKeeps(s: Store, request: Request, now: int)
    requires Inv(s) && (request.RevokeSession? || request.RevokeFamily? || request.RevokeAll?)
    ensures Keeps(s, Perform(s, request, now).store)
  {
    Stands(s);
    match request
    case RevokeSession(id) => StampKeeps(s, {}, {id}, now);
    case RevokeFamily(family) => StampKeeps(s, {family}, SessionsIn(s, {family}), now);
    case RevokeAll(user) => StampUsersKeeps(s, {user}, now);
  }

  lemma {:induction false} UnblockKeeps(s: Store, phone: Phone)
    requires Inv(s)
    ensures Keeps(s, DoUnblockPhone(s, phone).store)
  {
    Stands(s);
    BlockedKeeps(s, s, s.blocked - {phone});
  }

  lemma {:induction false} EraseAccountKeeps(s: Store, user: Id)
    requires Inv(s)
    ensures Keeps(s, DoEraseAccount(s, user).store)
  {
    Stands(s);
    EraseKeeps(s, user);
  }

  /** Every request keeps the invariant, and every row it touches only ages. */
  lemma {:induction false} StepKeeps(s: Store, request: Request, now: int)
    requires Inv(s)
    ensures Keeps(s, Perform(s, request, now).store)
  {
    match request
    case Register(user, phone, login) => RegisterKeeps(s, user, phone, login, now);
    case SignIn(user, login) => SignInKeeps(s, user, login, now);
    case CreateSession(user, login, expiresAt) => CreateSessionKeeps(s, user, login, expiresAt, now);
    case RotateSession(id, next, digest, expiresAt) => RotateKeeps(s, id, next, digest, expiresAt, now);
    case Refresh(presented, next, digest) => RefreshKeeps(s, presented, next, digest, now);
    case RevokeSession(_) => RevocationKeeps(s, request, now);
    case RevokeFamily(_) => RevocationKeeps(s, request, now);
    case RevokeAll(_) => RevocationKeeps(s, request, now);
    case SetStatus(user, active) => StatusKeeps(s, user, active, now);
    case ChangePassword(id, login) => ChangePasswordKeeps(s, id, login, now);
    case ChangePhone(id, phone, login) => ChangePhoneKeeps(s, id, phone, login, now);
    case BlockPhone(phone) => BlockKeeps(s, phone, now);
    case UnblockPhone(phone) => UnblockKeeps(s, phone);
    case ApplyBan(user, blocks) => BanKeeps(s, user, blocks, now);
    case EraseAccount(user) => EraseAccountKeeps(s, user);
  }
}
