/**
 * What each request on the session tables achieves, told by who is active and for how long
 * (src/cueflow/account.py and src/cueflow/auth.py).
 */
module SessionEffects {
  import opened Outcomes
  import opened Sessions
  import opened SessionLaws
  import opened SessionRuns

  // ----- sessions that are over -----

  /** The session, its row, or its family is gone for good. */
  ghost predicate Ended(s: Store, x: Id) {
    && x in s.drawn
    && (x in s.sessions && s.sessions[x].revokedAt.None? ==> FamilyEnded(s, s.sessions[x].family))
  }

  lemma {:induction false} EndedForever(s: Store, x: Id, later: seq<Step>, at: int)
    requires Inv(s) && Ended(s, x)
    ensures !IsActive(Run(s, later), x, at)
  {
    RunKeeps(s, later);
    var t := Run(s, later);
    assert SessionStays(s, t, x);
    if x in s.sessions {
      assert SessionLinked(s, x) && FamilyLinked(s, s.sessions[x].family);
      assert FamilyStays(s, t, s.sessions[x].family);
    }
  }

  // ----- which sessions a request ends -----

  ghost predicate OwnedWith(s: Store, x: Id, id: Id)
    requires x in s.sessions
  {
    id in s.sessions && s.sessions[x].user == s.sessions[id].user
  }

  /** The sessions that an accepted request ends. */
  ghost predicate Ends(s: Store, request: Request, now: int, x: Id)
    requires x in s.sessions
  {
    var row := s.sessions[x];
    match request
    case RevokeSession(id) => x == id
    case RevokeFamily(family) => row.family == family
    case RevokeAll(user) => row.user == user
    case SetStatus(user, active) => row.user == user && !active && user in s.users && s.users[user].active
    case ChangePassword(id, _) => OwnedWith(s, x, id)
    case ChangePhone(id, _, _) => OwnedWith(s, x, id)
    case BlockPhone(phone) => phone !in s.blocked && row.user in s.users && s.users[row.user].phone == phone
    case ApplyBan(user, _) => row.user == user
    case EraseAccount(user) => row.user == user
    case RotateSession(id, _, _, _) => x == id
    case Refresh(presented, _, _) => row.digest == presented
    case SignIn(user, _) => row.family in Evicted(s.families, ActiveFamilies(s, user, now))
    case CreateSession(user, _, _) => row.family in Evicted(s.families, ActiveFamilies(s, user, now))
    case Register(_, _, _) => false
    case UnblockPhone(_) => false
  }

  /** A refused request ends sessions only as the reuse of a replaced token of their family. */
  ghost predicate Reuses(s: Store, request: Request, family: Id) {
    request.Refresh?
    && exists y :: y in s.sessions && s.sessions[y].digest == request.presented && s.sessions[y].replacedBy.Some?
                   && s.sessions[y].family == family
  }

  /** Over: ended for good. Otherwise the rows are valid at the same instants as before. */
  ghost predicate EndedOrSame(s: Store, t: Store, x: Id, over: bool)
    requires x in s.sessions
  {
    if over then Ended(t, x)
    else x in t.sessions && t.sessions[x].user == s.sessions[x].user
         && forall at {:trigger RowsLive(t, x, at)} :: RowsLive(t, x, at) <==> RowsLive(s, x, at)
  }

  lemma {:induction false} StampEnds(s: Store, families: set<Id>, sessions: set<Id>, now: int, x: Id)
    requires Inv(s) && x in s.sessions
    ensures EndedOrSame(s, Stamp(s, families, sessions, now), x, x in sessions || s.sessions[x].family in families)
  {
    assert SessionLinked(s, x) && FamilyLinked(s, s.sessions[x].family);
  }

  lemma {:induction false} OwnerIsOne(s: Store, x: Id, users: set<Id>)
    requires Inv(s) && x in s.sessions
    ensures x in SessionsOf(s, users) || s.sessions[x].family in FamiliesOf(s, users) <==> s.sessions[x].user in users
  {
    assert SessionLinked(s, x);
  }

  lemma {:induction false} StampUsersEnds(s: Store, users: set<Id>, now: int, x: Id)
    requires Inv(s) && x in s.sessions
    ensures EndedOrSame(s, StampUsers(s, users, now), x, s.sessions[x].user in users)
  {
    StampEnds(s, FamiliesOf(s, users), SessionsOf(s, users), now, x);
    OwnerIsOne(s, x, users);
  }

  lemma {:induction false} LoginEnds(s: Store, user: Id, login: Login, now: int, expiresAt: int, x: Id)
    requires Inv(s) && x in s.sessions && CreateLoginState(s, user, login, now, expiresAt).Some?
    ensures EndedOrSame(s, CreateLoginState(s, user, login, now, expiresAt).value, x,
                        s.sessions[x].family in Evicted(s.families, ActiveFamilies(s, user, now)))
  {
    LoginRows(s, user, login, now, expiresAt);
    assert SessionLinked(s, x) && FamilyLinked(s, s.sessions[x].family);
  }

  lemma {:induction false} ReplaceEnds(s: Store, id: Id, next: Id, digest: Digest, now: int, expiresAt: int, x: Id)
    requires Inv(s) && x in s.sessions && id in s.sessions && Replace(s, id, next, digest, now, expiresAt).Some?
    ensures EndedOrSame(s, Replace(s, id, next, digest, now, expiresAt).value, x, x == id)
  {
    assert SessionLinked(s, x);
  }

  lemma {:induction false} EndedStays(s: Store, t: Store, x: Id)
    requires Inv(s) && Evolves(s, t) && Ended(s, x)
    ensures Ended(t, x)
  {
    assert SessionStays(s, t, x);
    if x in s.sessions {
      assert SessionLinked(s, x) && FamilyLinked(s, s.sessions[x].family);
      assert FamilyStays(s, t, s.sessions[x].family);
    }
  }

  lemma {:induction false} EndsInTurn(s: Store, mid: Store, t: Store, x: Id, first: bool, second: bool)
    requires x in s.sessions && EndedOrSame(s, mid, x, first) && Inv(mid) && Evolves(mid, t)
    requires !first ==> EndedOrSame(mid, t, x, second)
    ensures EndedOrSame(s, t, x, first || second)
  {
    if first {
      EndedStays(mid, t, x);
    } else if !second {
      forall at
        ensures RowsLive(t, x, at) <==> RowsLive(s, x, at)
      {
        assert RowsLive(mid, x, at) <==> RowsLive(s, x, at);
      }
    }
  }

  /** Rows of accounts and phones do not matter. */
  lemma {:induction false} SameRows(s: Store, t: Store, x: Id)
    requires x in s.sessions && t.sessions == s.sessions && t.families == s.families
    ensures EndedOrSame(s, t, x, false)
  {
  }

  /** A user of whom everything is revoked has nothing to evict. */
  lemma {:induction false} NothingToEvict(s: Store, t: Store, user: Id, now: int)
    requires forall f :: f in t.families && t.families[f].user == user ==> t.families[f].revokedAt.Some?
    ensures Evicted(t.families, ActiveFamilies(t, user, now)) == {}
  {
    assert ActiveFamilies(t, user, now) == {};
  }

  /** Everything of the user is revoked, the account may change, and a new login starts. */
  lemma {:induction false} RestartEnds(s: Store, user: Id, account: Account, login: Login, now: int, x: Id)
    requires Inv(s) && x in s.sessions && user in s.users
    requires account.phone == s.users[user].phone || !Registered(s, account.phone)
    requires var moved := WithUser(StampUsers(s, {user}, now), user, account);
             CreateLoginState(moved, user, login, now, now + REFRESH_TTL_MS).Some?
    ensures var moved := WithUser(StampUsers(s, {user}, now), user, account);
            EndedOrSame(s, CreateLoginState(moved, user, login, now, now + REFRESH_TTL_MS).value, x,
                        s.sessions[x].user == user)
  {
    var stamped := StampUsers(s, {user}, now);
    var moved := WithUser(stamped, user, account);
    var t := CreateLoginState(moved, user, login, now, now + REFRESH_TTL_MS).value;
    StampUsersEnds(s, {user}, now, x);
    StampUsersKeeps(s, {user}, now);
    Stands(stamped);
    ChangeUserKeeps(stamped, stamped, user, account);
    SameRows(stamped, moved, x);
    EndsInTurn(s, stamped, moved, x, s.sessions[x].user == user, false);
    LoginKeeps(moved, user, login, now, now + REFRESH_TTL_MS);
    NothingToEvict(s, moved, user, now);
    LoginEnds(moved, user, login, now, now + REFRESH_TTL_MS, x);
    EndsInTurn(s, moved, t, x, s.sessions[x].user == user, false);
  }

  lemma {:induction false} PasswordChangeEnds(s: Store, id: Id, login: Login, now: int, x: Id)
    requires Inv(s) && x in s.sessions && DoChangePassword(s, id, login, now).error.None?
    ensures EndedOrSame(s, DoChangePassword(s, id, login, now).store, x, OwnedWith(s, x, id))
  {
    var user := s.sessions[id].user;
    var stamped := StampUsers(s, {user}, now);
    assert WithUser(stamped, user, s.users[user]) == stamped;
    RestartEnds(s, user, s.users[user], login, now, x);
  }

  lemma {:induction false} PhoneChangeEnds(s: Store, id: Id, phone: Phone, login: Login, now: int, x: Id)
    requires Inv(s) && x in s.sessions && DoChangePhone(s, id, phone, login, now).error.None?
    ensures EndedOrSame(s, DoChangePhone(s, id, phone, login, now).store, x, OwnedWith(s, x, id))
  {
    var user := s.sessions[id].user;
    RestartEnds(s, user, s.users[user].(phone := phone), login, now, x);
  }

  lemma {:induction false} RegisterEnds(s: Store, user: Id, phone: Phone, login: Login, now: int, x: Id)
    requires Inv(s) && x in s.sessions && DoRegister(s, user, phone, login, now).error.None?
    ensures EndedOrSame(s, DoRegister(s, user, phone, login, now).store, x, false)
  {
    var added := s.(users := s.users[user := Account(true, phone)], drawn := s.drawn + {user});
    AccountsKeep(s, added);
    forall f | f in s.families
      ensures s.families[f].user != user
    {
      assert FamilyLinked(s, f);
    }
    NothingToEvict(s, added, user, now);
    SameRows(s, added, x);
    LoginEnds(added, user, login, now, now + REFRESH_TTL_MS, x);
    LoginKeeps(added, user, login, now, now + REFRESH_TTL_MS);
    EndsInTurn(s, added, DoRegister(s, user, phone, login, now).store, x, false, false);
  }

  lemma {:induction false} SuspensionEnds(s: Store, user: Id, account: Account, blocked: set<Phone>, now: int, x: Id)
    requires Inv(s) && x in s.sessions && user in s.users && account.phone == s.users[user].phone
    ensures EndedOrSame(s, WithUser(StampUsers(s, {user}, now), user, account).(blocked := blocked), x,
                        s.sessions[x].user == user)
  {
    var stamped := StampUsers(s, {user}, now);
    var t := WithUser(stamped, user, account).(blocked := blocked);
    StampUsersEnds(s, {user}, now, x);
    StampUsersKeeps(s, {user}, now);
    Stands(stamped);
    ChangeUserKeeps(stamped, stamped, user, account);
    BlockedKeeps(stamped, WithUser(stamped, user, account), blocked);
    SameRows(stamped, t, x);
    EndsInTurn(s, stamped, t, x, s.sessions[x].user == user, false);
  }

  lemma {:induction false} BlockEnds(s: Store, phone: Phone, now: int, x: Id)
    requires Inv(s) && x in s.sessions
    ensures EndedOrSame(s, DoBlockPhone(s, phone, now).store, x, Ends(s, BlockPhone(phone), now, x))
  {
    if phone in s.blocked {
      SameRows(s, s, x);
    } else {
      var stamped, over := StampPhone(s, phone, now), Ends(s, BlockPhone(phone), now, x);
      StampUsersEnds(s, OwnersOf(s, phone), now, x);
      StampUsersKeeps(s, OwnersOf(s, phone), now);
      Stands(stamped);
      BlockedKeeps(stamped, stamped, s.blocked + {phone});
      SameRows(stamped, stamped.(blocked := s.blocked + {phone}), x);
      EndsInTurn(s, stamped, stamped.(blocked := s.blocked + {phone}), x, over, false);
    }
  }

  lemma {:induction false} ErasureEnds(s: Store, user: Id, x: Id)
    requires Inv(s) && x in s.sessions
    ensures EndedOrSame(s, Erased(s, user), x, s.sessions[x].user == user)
  {
    assert SessionLinked(s, x);
  }

  lemma {:induction false} RefreshEnds(s: Store, presented: Digest, next: Id, digest: Digest, now: int, x: Id)
    requires Inv(s) && x in s.sessions
    ensures var done := DoRefresh(s, presented, next, digest, now);
            var over := if done.error.None? then s.sessions[x].digest == presented
                        else Reuses(s, Refresh(presented, next, digest), s.sessions[x].family);
            EndedOrSame(s, done.store, x, over)
  {
    var found := WithDigest(s, presented);
    SameRows(s, s, x);
    if found.Some? {
      var id := found.value;
      assert SessionLinked(s, id) && FamilyLinked(s, s.sessions[id].family);
      if IsActive(s, id, now) {
        if Replace(s, id, next, digest, now, now + REFRESH_TTL_MS).Some? {
          ReplaceEnds(s, id, next, digest, now, now + REFRESH_TTL_MS, x);
        }
      } else if s.sessions[id].replacedBy.Some? {
        var f := {s.sessions[id].family};
        StampEnds(s, f, SessionsIn(s, f), now, x);
      }
    }
  }

  lemma {:induction false} StatusEnds(s: Store, user: Id, active: bool, now: int, x: Id)
    requires Inv(s) && x in s.sessions
    ensures EndedOrSame(s, DoSetStatus(s, user, active, now).store, x, Ends(s, SetStatus(user, active), now, x))
  {
    var t := DoSetStatus(s, user, active, now).store;
    if user in s.users && s.users[user].active && !active {
      SuspensionEnds(s, user, s.users[user].(active := false), s.blocked, now, x);
      assert t == t.(blocked := s.blocked);
    } else {
      SameRows(s, t, x);
    }
  }

  /**
   * What a request does to the sessions that exist: an accepted one ends exactly the sessions that it names, for
   * good; a refused one ends exactly the family of a reused token; every other session stays as it was.
   */
  lemma {:induction false} RequestEnds(s: Store, request: Request, now: int, x: Id)
    requires Inv(s) && x in s.sessions
    ensures var done := Perform(s, request, now);
            var over := if done.error.None? then Ends(s, request, now, x)
                        else Reuses(s, request, s.sessions[x].family);
            EndedOrSame(s, done.store, x, over)
  {
    hide EndedOrSame, CreateLoginState, Replace, Evicted, ActiveFamilies, Inv, Stamp, StampUsers, Eligible, RowsLive;
    hide DigestTaken, Erased;
    SameRows(s, s, x);
    match request
    case Refresh(presented, next, digest) => RefreshEnds(s, presented, next, digest, now, x);
    case RotateSession(id, next, digest, expiresAt) =>
      if Perform(s, request, now).error.None? { ReplaceEnds(s, id, next, digest, now, expiresAt, x); }
    case RevokeSession(id) => StampEnds(s, {}, {id}, now, x);
    case RevokeFamily(family) => StampEnds(s, {family}, SessionsIn(s, {family}), now, x);
    case RevokeAll(user) => StampUsersEnds(s, {user}, now, x);
    case SetStatus(user, active) => StatusEnds(s, user, active, now, x);
    case ChangePassword(id, login) =>
      if Perform(s, request, now).error.None? { PasswordChangeEnds(s, id, login, now, x); }
    case ChangePhone(id, phone, login) =>
      if Perform(s, request, now).error.None? { PhoneChangeEnds(s, id, phone, login, now, x); }
    case BlockPhone(phone) => BlockEnds(s, phone, now, x);
    case UnblockPhone(phone) => SameRows(s, DoUnblockPhone(s, phone).store, x);
    case ApplyBan(user, blocks) =>
      if user in s.users {
        SuspensionEnds(s, user, s.users[user].(active := false),
                       if blocks then s.blocked + {s.users[user].phone} else s.blocked, now, x);
      }
    case EraseAccount(user) => ErasureEnds(s, user, x);
    case Register(user, phone, login) =>
      if Perform(s, request, now).error.None? { RegisterEnds(s, user, phone, login, now, x); }
    case SignIn(user, login) =>
      if Perform(s, request, now).error.None? { LoginEnds(s, user, login, now, now + REFRESH_TTL_MS, x); }
    case CreateSession(user, login, expiresAt) =>
      if Perform(s, request, now).error.None? { LoginEnds(s, user, login, now, expiresAt, x); }
  }

  // ----- what that means for who is active -----

  /** What an accepted request ends is inactive at every instant of every continuation. */
  lemma {:induction false} RevocationIsFinal(s: Store, request: Request, now: int, x: Id, later: seq<Step>, at: int)
    requires Inv(s) && x in s.sessions && Ends(s, request, now, x) && Perform(s, request, now).error.None?
    ensures !IsActive(Run(Perform(s, request, now).store, later), x, at)
  {
    RequestEnds(s, request, now, x);
    StepKeeps(s, request, now);
    EndedForever(Perform(s, request, now).store, x, later, at);
  }

  /** The request changes the status or the phone of this user. */
  ghost predicate Concerns(s: Store, request: Request, user: Id) {
    match request
    case SetStatus(u, _) => u == user
    case ApplyBan(u, _) => u == user
    case ChangePhone(id, _, _) => id in s.sessions && s.sessions[id].user == user
    case BlockPhone(phone) => user in s.users && s.users[user].phone == phone
    case UnblockPhone(phone) => user in s.users && s.users[user].phone == phone
    case EraseAccount(u) => u == user
    case _ => false
  }

  lemma {:induction false} OthersStayEligible(s: Store, request: Request, now: int, user: Id)
    requires Inv(s) && user in s.users && !Concerns(s, request, user)
    ensures Eligible(Perform(s, request, now).store, user) <==> Eligible(s, user)
  {
    assert request.Register? && request.user == user ==> user in s.drawn;
  }

  /** A session that a request neither ends nor whose user it concerns is active exactly when it was before. */
  lemma {:induction false} OthersAreSpared(s: Store, request: Request, now: int, x: Id, at: int)
    requires Inv(s) && x in s.sessions && !Ends(s, request, now, x) && !Reuses(s, request, s.sessions[x].family)
    requires !Concerns(s, request, s.sessions[x].user)
    ensures IsActive(Perform(s, request, now).store, x, at) <==> IsActive(s, x, at)
  {
    hide Ends, Reuses, Eligible;
    assert SessionLinked(s, x) && FamilyLinked(s, s.sessions[x].family);
    RequestEnds(s, request, now, x);
    OthersStayEligible(s, request, now, s.sessions[x].user);
  }

  /** A refused request changes no row, except that the reuse of a replaced token is punished. */
  lemma {:induction false} RefusalChangesNothing(s: Store, request: Request, now: int)
    requires Inv(s) && Perform(s, request, now).error.Some? && forall f :: f in s.families ==> !Reuses(s, request, f)
    ensures Perform(s, request, now).store == s
  {
    if request.Refresh? {
      var found := WithDigest(s, request.presented);
      if found.Some? {
        assert SessionLinked(s, found.value);
        assert !Reuses(s, request, s.sessions[found.value].family);
      }
    }
  }

  // ----- accounts and phones -----

  /** The account rows and the blocked phones after an accepted request. */
  ghost predicate AccountsFollow(s: Store, request: Request, t: Store) {
    match request
    case Register(user, phone, _) =>
      t.users == s.users[user := Account(true, phone)] && user !in s.users && t.blocked == s.blocked
    case SetStatus(user, active) =>
      user in s.users && t.users == s.users[user := Account(active, s.users[user].phone)] && t.blocked == s.blocked
    case ChangePhone(id, phone, _) =>
      && id in s.sessions && s.sessions[id].user in s.users && t.blocked == s.blocked
      && t.users == s.users[s.sessions[id].user := Account(s.users[s.sessions[id].user].active, phone)]
    case ApplyBan(user, blocks) =>
      && user in s.users && t.users == s.users[user := Account(false, s.users[user].phone)]
      && t.blocked == s.blocked + if blocks then {s.users[user].phone} else {}
    case BlockPhone(phone) => t.users == s.users && t.blocked == s.blocked + {phone}
    case UnblockPhone(phone) => t.users == s.users && t.blocked == s.blocked - {phone}
    case EraseAccount(user) => t.users == s.users - {user} && user in s.users && t.blocked == s.blocked
    case _ => t.users == s.users && t.blocked == s.blocked
  }

  /** Evictions, new families, and successors leave the accounts alone. */
  lemma {:induction false} SessionsLeaveAccounts(s: Store, user: Id, login: Login, now: int, until: int)
    ensures var made := CreateLoginState(s, user, login, now, until);
      made.Some? ==> made.value.users == s.users && made.value.blocked == s.blocked
  {
    hide ActiveFamilies, Evicted;
  }

  lemma {:induction false} LoginsSetAccounts(s: Store, request: Request, now: int)
    requires Inv(s) && Perform(s, request, now).error.None?
    requires request.SignIn? || request.CreateSession? || request.Register? || request.ChangePassword?
             || request.ChangePhone?
    ensures AccountsFollow(s, request, Perform(s, request, now).store)
  {
    hide CreateLoginState, Inv, Stamp;
    match request
    case SignIn(user, login) => SessionsLeaveAccounts(s, user, login, now, now + REFRESH_TTL_MS);
    case CreateSession(user, login, expiresAt) => SessionsLeaveAccounts(s, user, login, now, expiresAt);
    case Register(user, phone, login) => RegisterSetsAccounts(s, user, phone, login, now);
    case ChangePassword(_, _) => ChangeSetsAccounts(s, request, now);
    case ChangePhone(_, _, _) => ChangeSetsAccounts(s, request, now);
  }

  lemma {:induction false} RegisterSetsAccounts(s: Store, user: Id, phone: Phone, login: Login, now: int)
    requires Inv(s) && Perform(s, Register(user, phone, login), now).error.None?
    ensures AccountsFollow(s, Register(user, phone, login), Perform(s, Register(user, phone, login), now).store)
  {
    hide CreateLoginState;
    var added := s.(users := s.users[user := Account(true, phone)], drawn := s.drawn + {user});
    SessionsLeaveAccounts(added, user, login, now, now + REFRESH_TTL_MS);
  }

  lemma {:induction false} ChangeSetsAccounts(s: Store, request: Request, now: int)
    requires Inv(s) && Perform(s, request, now).error.None? && (request.ChangePassword? || request.ChangePhone?)
    ensures AccountsFollow(s, request, Perform(s, request, now).store)
  {
    hide CreateLoginState, Inv;
    var user := s.sessions[request.session].user;
    var stamped := StampUsers(s, {user}, now);
    SessionsLeaveAccounts(stamped, user, request.login, now, now + REFRESH_TTL_MS);
    if request.ChangePhone? {
      SessionsLeaveAccounts(WithUser(stamped, user, s.users[user].(phone := request.phone)), user, request.login, now,
                            now + REFRESH_TTL_MS);
    }
  }

  lemma {:induction false} AccountsAreSet(s: Store, request: Request, now: int)
    requires Inv(s) && Perform(s, request, now).error.None?
    ensures AccountsFollow(s, request, Perform(s, request, now).store)
  {
    hide CreateLoginState, Inv;
    match request
    case SignIn(_, _) => LoginsSetAccounts(s, request, now);
    case CreateSession(_, _, _) => LoginsSetAccounts(s, request, now);
    case Register(_, _, _) => LoginsSetAccounts(s, request, now);
    case ChangePassword(_, _) => LoginsSetAccounts(s, request, now);
    case ChangePhone(_, _, _) => LoginsSetAccounts(s, request, now);
    case SetStatus(user, active) =>
      var account := Account(active, s.users[user].phone);
      assert s.users[user].(active := active) == account;
      assert s.users[user].active == active ==> s.users[user := account] == s.users;
    case BlockPhone(phone) => assert phone in s.blocked ==> s.blocked + {phone} == s.blocked;
    case ApplyBan(user, blocks) => assert s.blocked + {} == s.blocked;
    case _ =>
  }

  // ----- the session that a request opens -----

  /** The new session, its owner, and the instants at which it is live. */
  ghost predicate Opened(t: Store, id: Id, user: Id, family: Id, digest: Digest, until: int) {
    && id in t.sessions && family in t.families && t.families[family].user == user
    && t.sessions[id].user == user && t.sessions[id].family == family && t.sessions[id].digest == digest
    && forall at {:trigger RowsLive(t, id, at)} ::
         RowsLive(t, id, at) <==> at < until && at < t.families[family].createdAt + FAMILY_TTL_MS
  }

  /** A new family, created now, whose first session lasts until `until`; there is no other new row. */
  ghost predicate LoginOpened(s: Store, t: Store, user: Id, login: Login, now: int, until: int) {
    && Opened(t, login.session, user, login.family, login.digest, until)
    && t.families[login.family].createdAt == now
    && login.session !in s.sessions && login.family !in s.families
    && t.sessions.Keys <= s.sessions.Keys + {login.session} && t.families.Keys <= s.families.Keys + {login.family}
  }

  /** A session in the family of `id` that lasts until `until`; there is no other new row. */
  ghost predicate SuccessorOpened(s: Store, t: Store, id: Id, next: Id, digest: Digest, until: int) {
    && id in s.sessions && s.sessions[id].family in s.families
    && Opened(t, next, s.sessions[id].user, s.sessions[id].family, digest, until)
    && t.families == s.families && next !in s.sessions && t.sessions.Keys == s.sessions.Keys + {next}
    && id in t.sessions && t.sessions[id].replacedBy == Some(next)
  }

  /** What an accepted request opens, and for how long. */
  ghost predicate Opens(s: Store, request: Request, now: int, t: Store) {
    match request
    case Register(user, _, login) => LoginOpened(s, t, user, login, now, now + REFRESH_TTL_MS)
    case SignIn(user, login) => LoginOpened(s, t, user, login, now, now + REFRESH_TTL_MS)
    case CreateSession(user, login, expiresAt) => LoginOpened(s, t, user, login, now, expiresAt)
    case ChangePassword(id, login) =>
      id in s.sessions && LoginOpened(s, t, s.sessions[id].user, login, now, now + REFRESH_TTL_MS)
    case ChangePhone(id, _, login) =>
      id in s.sessions && LoginOpened(s, t, s.sessions[id].user, login, now, now + REFRESH_TTL_MS)
    case RotateSession(id, next, digest, expiresAt) => SuccessorOpened(s, t, id, next, digest, expiresAt)
    case Refresh(presented, next, digest) =>
      exists id :: id in s.sessions && s.sessions[id].digest == presented
                   && SuccessorOpened(s, t, id, next, digest, now + REFRESH_TTL_MS)
    case _ => t.sessions.Keys <= s.sessions.Keys && t.families.Keys <= s.families.Keys
  }

  lemma {:induction false} LoginOpens(s: Store, mid: Store, user: Id, login: Login, now: int, until: int)
    requires Linked(mid) && mid.sessions.Keys == s.sessions.Keys && mid.families.Keys == s.families.Keys
    requires CreateLoginState(mid, user, login, now, until).Some?
    ensures LoginOpened(s, CreateLoginState(mid, user, login, now, until).value, user, login, now, until)
  {
    LoginRows(mid, user, login, now, until);
  }

  lemma {:induction false} ReplaceOpens(s: Store, id: Id, next: Id, digest: Digest, now: int, until: int)
    requires Inv(s) && IsActive(s, id, now) && Replace(s, id, next, digest, now, until).Some?
    ensures SuccessorOpened(s, Replace(s, id, next, digest, now, until).value, id, next, digest, until)
  {
    assert SessionLinked(s, id) && FamilyLinked(s, s.sessions[id].family);
    assert next in s.sessions ==> SessionLinked(s, next);
  }

  lemma {:induction false} RestartOpens(s: Store, user: Id, account: Account, login: Login, now: int)
    requires Inv(s) && user in s.users
    requires account.phone == s.users[user].phone || !Registered(s, account.phone)
    requires var moved := WithUser(StampUsers(s, {user}, now), user, account);
             CreateLoginState(moved, user, login, now, now + REFRESH_TTL_MS).Some?
    ensures var moved := WithUser(StampUsers(s, {user}, now), user, account);
            LoginOpened(s, CreateLoginState(moved, user, login, now, now + REFRESH_TTL_MS).value, user, login, now,
                        now + REFRESH_TTL_MS)
  {
    StampUsersKeeps(s, {user}, now);
    ChangeUserKeeps(s, StampUsers(s, {user}, now), user, account);
    LoginOpens(s, WithUser(StampUsers(s, {user}, now), user, account), user, login, now, now + REFRESH_TTL_MS);
  }

  lemma {:induction false} ChangeOpens(s: Store, request: Request, now: int)
    requires Inv(s) && Perform(s, request, now).error.None? && (request.ChangePassword? || request.ChangePhone?)
    ensures Opens(s, request, now, Perform(s, request, now).store)
  {
    hide LoginOpened, CreateLoginState;
    var user := s.sessions[request.session].user;
    if request.ChangePassword? {
      assert WithUser(StampUsers(s, {user}, now), user, s.users[user]) == StampUsers(s, {user}, now);
      RestartOpens(s, user, s.users[user], request.login, now);
    } else {
      RestartOpens(s, user, s.users[user].(phone := request.phone), request.login, now);
    }
  }

  /** An accepted request opens the one session that it promises, for its lifetime, and no other. */
  lemma {:induction false} RequestOpens(s: Store, request: Request, now: int)
    requires Inv(s) && Perform(s, request, now).error.None?
    ensures Opens(s, request, now, Perform(s, request, now).store)
  {
    hide LoginOpened, SuccessorOpened, CreateLoginState, Replace, Eligible, RowsLive;
    match request
    case Register(user, phone, login) =>
      var added := s.(users := s.users[user := Account(true, phone)], drawn := s.drawn + {user});
      AccountsKeep(s, added);
      LoginOpens(s, added, user, login, now, now + REFRESH_TTL_MS);
    case SignIn(user, login) => LoginOpens(s, s, user, login, now, now + REFRESH_TTL_MS);
    case CreateSession(user, login, expiresAt) => LoginOpens(s, s, user, login, now, expiresAt);
    case ChangePassword(_, _) => ChangeOpens(s, request, now);
    case ChangePhone(_, _, _) => ChangeOpens(s, request, now);
    case RotateSession(id, next, digest, expiresAt) => ReplaceOpens(s, id, next, digest, now, expiresAt);
    case Refresh(presented, next, digest) =>
      ReplaceOpens(s, WithDigest(s, presented).value, next, digest, now, now + REFRESH_TTL_MS);
    case _ =>
  }

  // ----- when a request is accepted -----

  /** The random ids and the refresh digest of the new rows do not collide. */
  ghost predicate LoginFree(s: Store, login: Login) {
    && login.family !in s.drawn && login.session !in s.drawn && login.family != login.session
    && forall x :: x in s.sessions ==> s.sessions[x].digest != login.digest
  }

  ghost predicate NextFree(s: Store, next: Id, digest: Digest) {
    next !in s.drawn && forall x :: x in s.sessions ==> s.sessions[x].digest != digest
  }

  /** The state in which the source accepts the request. */
  ghost predicate Admitted(s: Store, request: Request, now: int) {
    match request
    case Register(user, phone, login) =>
      && phone !in s.blocked && (forall u :: u in s.users ==> s.users[u].phone != phone)
      && user !in s.drawn + {login.family, login.session} && LoginFree(s, login)
    case SignIn(user, login) => Eligible(s, user) && LoginFree(s, login)
    case CreateSession(user, login, expiresAt) =>
      now < expiresAt && user in s.users && s.users[user].active && LoginFree(s, login)
    case RotateSession(id, next, digest, expiresAt) =>
      now < expiresAt && IsActive(s, id, now) && NextFree(s, next, digest)
    case Refresh(presented, next, digest) =>
      && NextFree(s, next, digest)
      && exists id :: id in s.sessions && s.sessions[id].digest == presented && IsActive(s, id, now)
    case RevokeSession(id) => id in s.sessions
    case RevokeFamily(family) => family in s.families
    case RevokeAll(user) => user in s.users
    case SetStatus(user, _) => user in s.users
    case ChangePassword(id, login) => IsActive(s, id, now) && LoginFree(s, login)
    case ChangePhone(id, phone, login) =>
      && IsActive(s, id, now) && phone !in s.blocked && (forall u :: u in s.users ==> s.users[u].phone != phone)
      && LoginFree(s, login)
    case BlockPhone(_) => true
    case UnblockPhone(_) => true
    case ApplyBan(user, _) => user in s.users
    case EraseAccount(user) => user in s.users && s.users[user].active
  }

  /** What must be the case for the request to raise this error. */
  ghost predicate Causes(s: Store, request: Request, now: int, e: Error) {
    match e
    case PhoneBlockedError =>
      || (request.SignIn? && request.user in s.users && s.users[request.user].phone in s.blocked)
      || ((request.Register? || request.ChangePhone?) && request.phone in s.blocked && !Registered(s, request.phone))
    case IdentityConflictError =>
      || ((request.Register? || request.ChangePhone?) && Registered(s, request.phone))
      || (request.Register? && request.phone !in s.blocked
          && (request.user in s.drawn + {request.login.family, request.login.session} || !LoginFree(s, request.login)))
    case AuthenticationError =>
      match request {
        case SignIn(user, _) => !Eligible(s, user) && (user in s.users ==> s.users[user].phone !in s.blocked)
        case ChangePassword(id, _) => !IsActive(s, id, now)
        case ChangePhone(id, _, _) => !IsActive(s, id, now)
        case Refresh(presented, _, _) =>
          forall id :: id in s.sessions && s.sessions[id].digest == presented ==> !IsActive(s, id, now)
        case _ => false
      }
    case ContractError => (request.CreateSession? || request.RotateSession?) && request.expiresAt <= now
    case AccountNotFoundError =>
      match request {
        case CreateSession(user, _, _) => user !in s.users
        case RotateSession(id, _, _, _) => id !in s.sessions
        case RevokeSession(id) => id !in s.sessions
        case RevokeFamily(family) => family !in s.families
        case RevokeAll(user) => user !in s.users
        case SetStatus(user, _) => user !in s.users
        case EraseAccount(user) => user !in s.users
        case _ => false
      }
    case AccountStateError =>
      || (request.ApplyBan? && request.user !in s.users)
      || ((request.CreateSession? || request.EraseAccount?) && request.user in s.users && !s.users[request.user].active)
    case SessionStateError =>
      match request {
        case RotateSession(id, next, digest, _) =>
          id in s.sessions && (!IsActive(s, id, now) || !NextFree(s, next, digest))
        case CreateSession(user, login, _) => user in s.users && !LoginFree(s, login)
        case _ => false
      }
    case StorageError =>
      match request {
        case SignIn(user, login) => Eligible(s, user) && !LoginFree(s, login)
        case ChangePassword(id, login) => IsActive(s, id, now) && !LoginFree(s, login)
        case ChangePhone(id, _, login) => IsActive(s, id, now) && !LoginFree(s, login)
        case Refresh(_, next, digest) => !NextFree(s, next, digest)
        case _ => false
      }
    case _ => false
  }

  lemma {:induction false} LoginGoesThrough(s: Store, mid: Store, user: Id, login: Login, now: int, until: int)
    requires mid.sessions.Keys == s.sessions.Keys && mid.drawn == s.drawn
    requires forall x :: x in s.sessions ==> mid.sessions[x].digest == s.sessions[x].digest
    ensures CreateLoginState(mid, user, login, now, until).Some? <==> LoginFree(s, login)
  {
    var evicted := Evict(mid, user, now);
    if x :| x in s.sessions && s.sessions[x].digest == login.digest {
      assert evicted.sessions[x].digest == login.digest;
    }
  }

  ghost predicate Answered(s: Store, request: Request, now: int) {
    var error := Perform(s, request, now).error;
    if Admitted(s, request, now) then error.None? else error.Some? && Causes(s, request, now, error.value)
  }

  lemma {:induction false} LoginAnswered(s: Store, request: Request, now: int)
    requires Inv(s) && (request.SignIn? || request.CreateSession?)
    ensures Answered(s, request, now)
  {
    hide CreateLoginState, LoginFree, Inv;
    match request
    case SignIn(user, login) => LoginGoesThrough(s, s, user, login, now, now + REFRESH_TTL_MS);
    case CreateSession(user, login, expiresAt) => LoginGoesThrough(s, s, user, login, now, expiresAt);
  }

  lemma {:induction false} RegisterAnswered(s: Store, user: Id, phone: Phone, login: Login, now: int)
    requires Inv(s)
    ensures Answered(s, Register(user, phone, login), now)
  {
    hide CreateLoginState, Inv;
    var added := s.(users := s.users[user := Account(true, phone)], drawn := s.drawn + {user});
    LoginGoesThrough(added, added, user, login, now, now + REFRESH_TTL_MS);
    assert LoginFree(added, login) <==> LoginFree(s, login) && user !in {login.family, login.session};
  }

  lemma {:induction false} ChangeAnswered(s: Store, request: Request, now: int)
    requires Inv(s) && (request.ChangePassword? || request.ChangePhone?)
    ensures Answered(s, request, now)
  {
    hide CreateLoginState, LoginFree, Inv;
    var id := request.session;
    if IsActive(s, id, now) {
      var user := s.sessions[id].user;
      var stamped := StampUsers(s, {user}, now);
      LoginGoesThrough(s, stamped, user, request.login, now, now + REFRESH_TTL_MS);
      if request.ChangePhone? {
        var moved := WithUser(stamped, user, s.users[user].(phone := request.phone));
        LoginGoesThrough(s, moved, user, request.login, now, now + REFRESH_TTL_MS);
      }
    }
  }

  lemma {:induction false} RotationAnswered(s: Store, request: Request, now: int)
    requires Inv(s) && (request.RotateSession? || request.Refresh?)
    ensures Answered(s, request, now)
  {
    if request.Refresh? {
      var found := WithDigest(s, request.presented);
      if found.Some? {
        assert SessionLinked(s, found.value) && FamilyLinked(s, s.sessions[found.value].family);
        assert forall id :: id in s.sessions && s.sessions[id].digest == request.presented ==> id == found.value;
      }
    }
  }

  /** A request is accepted exactly when it is admitted; otherwise the error names the cause. */
  lemma {:induction false} AnswersFollow(s: Store, request: Request, now: int)
    requires Inv(s)
    ensures var error := Perform(s, request, now).error;
            if Admitted(s, request, now) then error.None? else error.Some? && Causes(s, request, now, error.value)
  {
    hide LoginFree, NextFree, IsActive, Inv;
    match request
    case SignIn(_, _) => LoginAnswered(s, request, now);
    case CreateSession(_, _, _) => LoginAnswered(s, request, now);
    case Register(user, phone, login) => RegisterAnswered(s, user, phone, login, now);
    case ChangePassword(_, _) => ChangeAnswered(s, request, now);
    case ChangePhone(_, _, _) => ChangeAnswered(s, request, now);
    case RotateSession(_, _, _, _) => RotationAnswered(s, request, now);
    case Refresh(_, _, _) => RotationAnswered(s, request, now);
    case _ =>
  }
}
