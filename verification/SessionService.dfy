/** The session transactions of AccountService and AuthService, updating the tables in place. */
module SessionService {
  import opened Outcomes
  import opened Sessions

  // ----- eviction, as a set and as a loop -----

  ghost predicate Sorted(families: map<Id, Family>, rows: seq<Id>) {
    && (forall i :: 0 <= i < |rows| ==> rows[i] in families)
    && (forall i, j :: 0 <= i < j < |rows| ==> rows[i] != rows[j] && Before(families, rows[i], rows[j]))
  }

  function Members(rows: seq<Id>): set<Id> {
    set f | f in rows
  }

  lemma {:induction false} SizeOfMembers(families: map<Id, Family>, rows: seq<Id>)
    requires Sorted(families, rows)
    ensures |Members(rows)| == |rows|
    decreases |rows|
  {
    if rows == [] {
      assert Members(rows) == {};
    } else {
      SizeOfMembers(families, rows[1..]);
      assert rows == [rows[0]] + rows[1..];
      assert Members(rows) == {rows[0]} + Members(rows[1..]);
    }
  }

  /** The eviction set starts with the head of the sorted rows. */
  lemma {:induction false} PopIsOldest(families: map<Id, Family>, rows: seq<Id>)
    requires Sorted(families, rows)
    ensures Members(rows) <= families.Keys && (rows != [] ==> Members(rows[1..]) <= families.Keys)
    ensures |rows| < FAMILY_LIMIT ==> Evicted(families, Members(rows)) == {}
    ensures |rows| >= FAMILY_LIMIT ==>
              Evicted(families, Members(rows)) == {rows[0]} + Evicted(families, Members(rows[1..]))
  {
    SizeOfMembers(families, rows);
    if |rows| >= FAMILY_LIMIT {
      assert rows == [rows[0]] + rows[1..];
      var oldest := Oldest(families, Members(rows));
      assert oldest == rows[0] by {
        assert Before(families, oldest, rows[0]);
        var i :| 0 <= i < |rows| && rows[i] == oldest;
      }
      assert Members(rows) - {rows[0]} == Members(rows[1..]);
    }
  }

  lemma {:induction false} StampedTogether(s: Store, gone: set<Id>, f: Id, now: int)
    ensures StampFamilies(StampFamilies(s, gone, now), {f}, now) == StampFamilies(s, gone + {f}, now)
  {
    var a, b := StampFamilies(StampFamilies(s, gone, now), {f}, now), StampFamilies(s, gone + {f}, now);
    assert a.families == b.families;
    assert a.sessions == b.sessions;
  }

  lemma {:induction false} StampNothing(s: Store, now: int)
    ensures StampFamilies(s, {}, now) == s
  {
    assert StampFamilies(s, {}, now).families == s.families;
    assert StampFamilies(s, {}, now).sessions == s.sessions;
  }

  class Service {
    var users: map<Id, Account>
    var blocked: set<Phone>
    var families: map<Id, Family>
    var sessions: map<Id, Session>
    var drawn: set<Id>

    /** The tables as one value. */
    function View(): Store
      reads this
    {
      Store(users, blocked, families, sessions, drawn)
    }

    constructor ()
      ensures View() == EMPTY
    {
      users, blocked, families, sessions, drawn := map[], {}, map[], map[], {};
    }

    method Rollback(saved: Store)
      modifies this
      ensures View() == saved
    {
      users, blocked, drawn := saved.users, saved.blocked, saved.drawn;
      families, sessions := saved.families, saved.sessions;
    }

    // ----- revocation -----

    method RevokeFamilyTx(family: Id, now: int)
      modifies this`families, this`sessions
      ensures View() == StampFamilies(old(View()), {family}, now)
    {
      if family in families && families[family].revokedAt.None? {
        families := families[family := families[family].(revokedAt := Some(now))];
      }
      sessions := map x | x in sessions ::
        if sessions[x].family == family && sessions[x].revokedAt.None? then sessions[x].(revokedAt := Some(now))
        else sessions[x];
      assert families == StampFamilies(old(View()), {family}, now).families;
      assert sessions == StampFamilies(old(View()), {family}, now).sessions;
    }

    method RevokeUsersTx(owners: set<Id>, now: int)
      modifies this`families, this`sessions
      ensures View() == StampUsers(old(View()), owners, now)
    {
      families := map f | f in families ::
        if families[f].user in owners && families[f].revokedAt.None? then families[f].(revokedAt := Some(now))
        else families[f];
      sessions := map x | x in sessions ::
        if sessions[x].user in owners && sessions[x].revokedAt.None? then sessions[x].(revokedAt := Some(now))
        else sessions[x];
      assert families == StampUsers(old(View()), owners, now).families;
      assert sessions == StampUsers(old(View()), owners, now).sessions;
    }

    // ----- eviction -----

    /** The SELECT of the eviction, in its order. */
    method ActiveRows(user: Id, now: int) returns (rows: seq<Id>)
      ensures Sorted(families, rows) && Members(rows) == ActiveFamilies(View(), user, now)
    {
      var rest := ActiveFamilies(View(), user, now);
      rows := [];
      while rest != {}
        invariant rest <= families.Keys && Sorted(families, rows)
        invariant Members(rows) + rest == ActiveFamilies(View(), user, now)
        invariant forall i, f :: 0 <= i < |rows| && f in rest ==> rows[i] != f && Before(families, rows[i], f)
        decreases rest
      {
        var next := Oldest(families, rest);
        ghost var shorter := rows;
        rows := rows + [next];
        assert Members(rows) == Members(shorter) + {next};
        rest := rest - {next};
      }
    }

    /** _evict_excess_families_tx: pops the oldest family until fewer than five are left. */
    method EvictExcessFamilies(user: Id, now: int)
      modifies this`families, this`sessions
      ensures View() == Evict(old(View()), user, now)
    {
      hide ActiveFamilies, StampFamilies, Evicted, Before;
      ghost var s := View();
      var rows := ActiveRows(user, now);
      ghost var gone: set<Id> := {};
      StampNothing(s, now);
      while |rows| >= FAMILY_LIMIT
        invariant Sorted(s.families, rows) && Members(rows) <= s.families.Keys
        invariant View() == StampFamilies(s, gone, now)
        invariant Evicted(s.families, ActiveFamilies(s, user, now)) == gone + Evicted(s.families, Members(rows))
      {
        var family := rows[0];
        PopIsOldest(s.families, rows);
        StampedTogether(s, gone, family, now);
        rows := rows[1..];
        RevokeFamilyTx(family, now);
        gone := gone + {family};
      }
      PopIsOldest(s.families, rows);
      assert gone + {} == gone;
    }

    // ----- inserting sessions -----

    method InsertSession(id: Id, row: Session) returns (ok: bool)
      modifies this`sessions, this`drawn
      ensures ok <==> id !in old(drawn) && !DigestTaken(old(View()), row.digest)
      ensures ok ==> sessions == old(sessions)[id := row] && drawn == old(drawn) + {id}
      ensures !ok ==> sessions == old(sessions) && drawn == old(drawn)
    {
      if id in drawn || exists x :: x in sessions && sessions[x].digest == row.digest {
        return false;
      }
      sessions, drawn := sessions[id := row], drawn + {id};
      return true;
    }

    /** _create_login_state_tx; the caller rolls back when an insert fails. */
    method CreateLoginStateTx(user: Id, login: Login, now: int, expiresAt: int) returns (ok: bool)
      modifies this
      ensures ok <==> CreateLoginState(old(View()), user, login, now, expiresAt).Some?
      ensures ok ==> View() == CreateLoginState(old(View()), user, login, now, expiresAt).value
    {
      EvictExcessFamilies(user, now);
      ghost var evicted := View();
      if login.family in drawn {
        return false;
      }
      families, drawn := families[login.family := Family(user, now, None)], drawn + {login.family};
      ok := InsertSession(login.session, Session(user, login.family, login.digest, now, expiresAt, None, None));
      assert evicted.drawn + {login.family} + {login.session} == evicted.drawn + {login.family, login.session};
    }

    /** _rotate_login_state_tx: revoke, insert the successor, then link to it. */
    method RotateTx(id: Id, next: Id, digest: Digest, now: int, expiresAt: int) returns (ok: bool)
      requires id in sessions && id in drawn
      modifies this
      ensures ok <==> Replace(old(View()), id, next, digest, now, expiresAt).Some?
      ensures ok ==> View() == Replace(old(View()), id, next, digest, now, expiresAt).value
    {
      var row := sessions[id];
      ghost var s := View();
      sessions := sessions[id := row.(revokedAt := Some(now))];
      assert DigestTaken(View(), digest) <==> DigestTaken(s, digest) by {
        assert forall x :: x in s.sessions <==> x in sessions;
        assert forall x :: x in s.sessions ==> s.sessions[x].digest == sessions[x].digest;
      }
      ok := InsertSession(next, Session(row.user, row.family, digest, now, expiresAt, None, None));
      if ok {
        sessions := sessions[id := sessions[id].(replacedBy := Some(next))];
        assert sessions == Replace(s, id, next, digest, now, expiresAt).value.sessions;
      }
    }

    // ----- transactions -----

    method SignIn(user: Id, login: Login, now: int) returns (e: Option<Error>)
      modifies this
      ensures Outcome(View(), e) == DoSignIn(old(View()), user, login, now)
    {
      if user !in users {
        return Some(AuthenticationError);
      }
      if users[user].phone in blocked {
        return Some(PhoneBlockedError);
      }
      if !users[user].active {
        return Some(AuthenticationError);
      }
      var saved := View();
      var ok := CreateLoginStateTx(user, login, now, now + REFRESH_TTL_MS);
      if !ok {
        Rollback(saved);
        return Some(StorageError);
      }
      return None;
    }

    method CompleteRegistration(user: Id, phone: Phone, login: Login, now: int) returns (e: Option<Error>)
      modifies this
      ensures Outcome(View(), e) == DoRegister(old(View()), user, phone, login, now)
    {
      if exists u :: u in users && users[u].phone == phone {
        return Some(IdentityConflictError);
      }
      if phone in blocked {
        return Some(PhoneBlockedError);
      }
      if user in drawn {
        return Some(IdentityConflictError);
      }
      var saved := View();
      users, drawn := users[user := Account(true, phone)], drawn + {user};
      var ok := CreateLoginStateTx(user, login, now, now + REFRESH_TTL_MS);
      if !ok {
        Rollback(saved);
        return Some(IdentityConflictError);
      }
      return None;
    }

    method CreateSession(user: Id, login: Login, expiresAt: int, now: int) returns (e: Option<Error>)
      modifies this
      ensures Outcome(View(), e) == DoCreateSession(old(View()), user, login, expiresAt, now)
    {
      if expiresAt <= now {
        return Some(ContractError);
      }
      if user !in users {
        return Some(AccountNotFoundError);
      }
      if !users[user].active {
        return Some(AccountStateError);
      }
      var saved := View();
      var ok := CreateLoginStateTx(user, login, now, expiresAt);
      if !ok {
        Rollback(saved);
        return Some(SessionStateError);
      }
      return None;
    }

    method RotateSession(id: Id, next: Id, digest: Digest, expiresAt: int, now: int) returns (e: Option<Error>)
      requires sessions.Keys <= drawn
      modifies this
      ensures Outcome(View(), e) == DoRotateSession(old(View()), id, next, digest, expiresAt, now)
    {
      if expiresAt <= now {
        return Some(ContractError);
      }
      if id !in sessions {
        return Some(AccountNotFoundError);
      }
      if !IsActive(View(), id, now) {
        return Some(SessionStateError);
      }
      var saved := View();
      var ok := RotateTx(id, next, digest, now, expiresAt);
      if !ok {
        Rollback(saved);
        return Some(SessionStateError);
      }
      return None;
    }

    method RefreshSession(presented: Digest, next: Id, digest: Digest, now: int) returns (e: Option<Error>)
      requires sessions.Keys <= drawn
      modifies this
      ensures Outcome(View(), e) == DoRefresh(old(View()), presented, next, digest, now)
    {
      var found := WithDigest(View(), presented);
      if found.None? || sessions[found.value].user !in users {
        return Some(AuthenticationError);
      }
      var id := found.value;
      if !IsActive(View(), id, now) {
        if sessions[id].replacedBy.Some? {
          RevokeFamilyTx(sessions[id].family, now);
        }
        return Some(AuthenticationError);
      }
      var saved := View();
      var ok := RotateTx(id, next, digest, now, now + REFRESH_TTL_MS);
      if !ok {
        Rollback(saved);
        return Some(StorageError);
      }
      return None;
    }

    method RevokeSession(id: Id, now: int) returns (e: Option<Error>)
      modifies this
      ensures Outcome(View(), e) == DoRevokeSession(old(View()), id, now)
    {
      if id !in sessions {
        return Some(AccountNotFoundError);
      }
      ghost var stamped := Stamp(View(), {}, {id}, now);
      assert stamped.families == families;
      if sessions[id].revokedAt.None? {
        sessions := sessions[id := sessions[id].(revokedAt := Some(now))];
      }
      assert sessions == stamped.sessions;
      return None;
    }

    method RevokeSessionFamily(family: Id, now: int) returns (e: Option<Error>)
      modifies this
      ensures Outcome(View(), e) == DoRevokeFamily(old(View()), family, now)
    {
      if family !in families {
        return Some(AccountNotFoundError);
      }
      RevokeFamilyTx(family, now);
      return None;
    }

    method RevokeAllSessions(user: Id, now: int) returns (e: Option<Error>)
      modifies this
      ensures Outcome(View(), e) == DoRevokeAll(old(View()), user, now)
    {
      if user !in users {
        return Some(AccountNotFoundError);
      }
      RevokeUsersTx({user}, now);
      return None;
    }

    method SetUserStatus(user: Id, active: bool, now: int) returns (e: Option<Error>)
      modifies this
      ensures Outcome(View(), e) == DoSetStatus(old(View()), user, active, now)
    {
      if user !in users {
        return Some(AccountNotFoundError);
      }
      if users[user].active == active {
        return None;
      }
      if !active {
        RevokeUsersTx({user}, now);
      }
      users := users[user := users[user].(active := active)];
      return None;
    }

    method ChangePassword(id: Id, login: Login, now: int) returns (e: Option<Error>)
      modifies this
      ensures Outcome(View(), e) == DoChangePassword(old(View()), id, login, now)
    {
      if !IsActive(View(), id, now) {
        return Some(AuthenticationError);
      }
      var saved, user := View(), sessions[id].user;
      RevokeUsersTx({user}, now);
      var ok := CreateLoginStateTx(user, login, now, now + REFRESH_TTL_MS);
      if !ok {
        Rollback(saved);
        return Some(StorageError);
      }
      return None;
    }

    method CompletePhoneChange(id: Id, phone: Phone, login: Login, now: int) returns (e: Option<Error>)
      modifies this
      ensures Outcome(View(), e) == DoChangePhone(old(View()), id, phone, login, now)
    {
      if !IsActive(View(), id, now) {
        return Some(AuthenticationError);
      }
      if exists u :: u in users && users[u].phone == phone {
        return Some(IdentityConflictError);
      }
      if phone in blocked {
        return Some(PhoneBlockedError);
      }
      var saved, user := View(), sessions[id].user;
      users := users[user := users[user].(phone := phone)];
      RevokeUsersTx({user}, now);
      assert View() == WithUser(StampUsers(saved, {user}, now), user, saved.users[user].(phone := phone));
      var ok := CreateLoginStateTx(user, login, now, now + REFRESH_TTL_MS);
      if !ok {
        Rollback(saved);
        return Some(StorageError);
      }
      return None;
    }

    // ----- the session side of the phone operations -----

    method BlockPhone(phone: Phone, now: int) returns (e: Option<Error>)
      modifies this
      ensures Outcome(View(), e) == DoBlockPhone(old(View()), phone, now)
    {
      if phone in blocked {
        return None;
      }
      blocked := blocked + {phone};
      var owners := set u | u in users && users[u].phone == phone;
      assert owners == OwnersOf(old(View()), phone);
      RevokeUsersTx(owners, now);
      return None;
    }

    method UnblockPhone(phone: Phone) returns (e: Option<Error>)
      modifies this
      ensures Outcome(View(), e) == DoUnblockPhone(old(View()), phone)
    {
      blocked := blocked - {phone};
      return None;
    }

    method ApplyBan(user: Id, blocks: bool, now: int) returns (e: Option<Error>)
      modifies this
      ensures Outcome(View(), e) == DoApplyBan(old(View()), user, blocks, now)
    {
      if user !in users {
        return Some(AccountStateError);
      }
      if blocks {
        blocked := blocked + {users[user].phone};
      }
      users := users[user := users[user].(active := false)];
      RevokeUsersTx({user}, now);
      return None;
    }

    method EraseAccount(user: Id) returns (e: Option<Error>)
      modifies this
      ensures Outcome(View(), e) == DoEraseAccount(old(View()), user)
    {
      if user !in users {
        return Some(AccountNotFoundError);
      }
      if !users[user].active {
        return Some(AccountStateError);
      }
      sessions := map x | x in sessions && sessions[x].user != user :: sessions[x];
      families := map f | f in families && families[f].user != user :: families[f];
      users := users - {user};
      assert families == Erased(old(View()), user).families;
      assert sessions == Erased(old(View()), user).sessions;
      return None;
    }
  }
}
