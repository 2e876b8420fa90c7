/** Safety of sessions over whole runs, under a clock that does not go back. */
module SessionRuns {
  import opened Outcomes
  import opened Sessions
  import opened SessionLaws

  // ----- runs keep the invariant -----

  lemma {:induction false} EmptyIsSound()
    ensures Inv(EMPTY)
  {
  }

  lemma {:induction false} RunKeeps(s: Store, steps: seq<Step>)
    requires Inv(s)
    ensures Inv(Run(s, steps)) && Evolves(s, Run(s, steps))
    decreases |steps|
  {
    if steps == [] {
      Stands(s);
    } else {
      var n := |steps| - 1;
      RunKeeps(s, steps[..n]);
      var t := Run(s, steps[..n]);
      StepKeeps(t, steps[n].request, steps[n].now);
      EvolvesFurther(s, t, Run(s, steps));
    }
  }

  /** The sessions of a family form one chain in which only the last may still be live. */
  lemma {:induction false} RotationIsLinear(steps: seq<Step>, f: Id) returns (chain: seq<Id>)
    requires f in Run(EMPTY, steps).families
    ensures IsChain(Run(EMPTY, steps), f, chain)
    ensures var s := Run(EMPTY, steps);
            forall x, now :: RowsLive(s, x, now) && s.sessions[x].family == f ==> x == chain[|chain| - 1]
  {
    var s := Run(EMPTY, steps);
    EmptyIsSound();
    RunKeeps(EMPTY, steps);
    assert HasChain(s, f);
    chain :| IsChain(s, f, chain);
    forall x, now | RowsLive(s, x, now) && s.sessions[x].family == f
      ensures x == chain[|chain| - 1]
    {
      LiveIsLast(s, f, chain, x);
    }
  }

  // ----- no resurrection -----

  /** No later write can make the rows of this session valid again. */
  ghost predicate Dead(s: Store, x: Id, now: int) {
    x in s.drawn && !RowsLive(s, x, now)
  }

  lemma {:induction false} RowsOnlyFade(s: Store, t: Store, x: Id, from: int, now: int)
    requires Linked(s) && Evolves(s, t) && x in s.drawn && from <= now
    ensures RowsLive(t, x, now) ==> RowsLive(s, x, from) && t.sessions[x].user == s.sessions[x].user
  {
    assert SessionStays(s, t, x);
    if x in s.sessions {
      assert SessionLinked(s, x) && FamilyLinked(s, s.sessions[x].family);
      assert FamilyStays(s, t, s.sessions[x].family);
    }
  }

  lemma {:induction false} StampedRowsAreDead(s: Store, users: set<Id>, now: int, t: Store, x: Id, later: int)
    requires x in s.sessions && s.sessions[x].user in users && x in s.drawn
    requires Evolves(StampUsers(s, users, now), t)
    ensures !RowsLive(t, x, later)
  {
    assert SessionStays(StampUsers(s, users, now), t, x);
  }

  lemma {:induction false} PhoneChangeSpares(s: Store, id: Id, phone: Phone, login: Login, now: int, x: Id)
    requires Inv(s) && x in s.sessions && Eligible(s, s.sessions[x].user)
    requires RowsLive(DoChangePhone(s, id, phone, login, now).store, x, now)
    ensures Eligible(DoChangePhone(s, id, phone, login, now).store, s.sessions[x].user)
  {
    var t := DoChangePhone(s, id, phone, login, now);
    if t.error.None? {
      var user := s.sessions[id].user;
      var stamped := StampUsers(s, {user}, now);
      assert SessionLinked(s, x) && SessionLinked(s, id) && FamilyLinked(s, s.sessions[id].family);
      StampUsersKeeps(s, {user}, now);
      ChangeUserKeeps(s, stamped, user, s.users[user].(phone := phone));
      Stands(stamped);
      ChangeUserKeeps(stamped, stamped, user, s.users[user].(phone := phone));
      var moved := WithUser(stamped, user, s.users[user].(phone := phone));
      LoginKeeps(moved, user, login, now, now + REFRESH_TTL_MS);
      EvolvesFurther(stamped, moved, t.store);
      if s.sessions[x].user == user {
        StampedRowsAreDead(s, {user}, now, t.store, x, now);
      }
    }
  }

  lemma {:induction false} SuspensionSpares(s: Store, user: Id, account: Account, blocked: set<Phone>, now: int, x: Id)
    requires Inv(s) && user in s.users && account.phone == s.users[user].phone
    requires x in s.sessions && Eligible(s, s.sessions[x].user)
    requires blocked <= s.blocked + {account.phone}
    requires RowsLive(WithUser(StampUsers(s, {user}, now), user, account).(blocked := blocked), x, now)
    ensures Eligible(WithUser(StampUsers(s, {user}, now), user, account).(blocked := blocked), s.sessions[x].user)
  {
    var stamped := StampUsers(s, {user}, now);
    assert SessionLinked(s, x);
    StampUsersKeeps(s, {user}, now);
    Stands(stamped);
    ChangeUserKeeps(stamped, stamped, user, account);
    BlockedKeeps(stamped, WithUser(stamped, user, account), blocked);
    if s.sessions[x].user == user {
      StampedRowsAreDead(s, {user}, now, WithUser(stamped, user, account).(blocked := blocked), x, now);
    }
  }

  lemma {:induction false} BlockSpares(s: Store, phone: Phone, now: int, x: Id)
    requires Inv(s) && x in s.sessions && Eligible(s, s.sessions[x].user)
    requires RowsLive(DoBlockPhone(s, phone, now).store, x, now)
    ensures Eligible(DoBlockPhone(s, phone, now).store, s.sessions[x].user)
  {
    var stamped := StampPhone(s, phone, now);
    assert SessionLinked(s, x);
    StampUsersKeeps(s, OwnersOf(s, phone), now);
    Stands(stamped);
    BlockedKeeps(stamped, stamped, s.blocked + {phone});
    if phone !in s.blocked && s.users[s.sessions[x].user].phone == phone {
      StampedRowsAreDead(s, OwnersOf(s, phone), now, stamped.(blocked := s.blocked + {phone}), x, now);
    }
  }

  /** A request that takes away a user's eligibility also revokes the sessions of that user. */
  lemma {:induction false} EligibilityIsNotLostSilently(s: Store, request: Request, now: int, x: Id)
    requires Inv(s) && x in s.sessions && Eligible(s, s.sessions[x].user)
    requires RowsLive(Perform(s, request, now).store, x, now)
    ensures Eligible(Perform(s, request, now).store, s.sessions[x].user)
  {
    match request
    case SetStatus(user, active) =>
      if user in s.users && !active && s.users[user].active {
        SuspensionSpares(s, user, s.users[user].(active := false), s.blocked, now, x);
      }
    case ChangePhone(id, phone, login) => PhoneChangeSpares(s, id, phone, login, now, x);
    case BlockPhone(phone) => BlockSpares(s, phone, now, x);
    case ApplyBan(user, blocks) =>
      if user in s.users {
        SuspensionSpares(s, user, s.users[user].(active := false),
                         if blocks then s.blocked + {s.users[user].phone} else s.blocked, now, x);
      }
    case Register(user, phone, login) =>
      assert SessionLinked(s, x) && s.sessions[x].user in s.users && (user in s.drawn || user !in s.users);
    case _ =>
  }

  lemma {:induction false} StepNeverRevives(s: Store, step: Step, x: Id, from: int)
    requires Inv(s) && x in s.drawn && from <= step.now
    ensures x in After(s, step).drawn
    ensures Dead(s, x, from) ==> Dead(After(s, step), x, step.now)
    ensures IsActive(s, x, from) ==> IsActive(After(s, step), x, step.now) || Dead(After(s, step), x, step.now)
  {
    var t := After(s, step);
    StepKeeps(s, step.request, step.now);
    RowsOnlyFade(s, t, x, from, step.now);
    if IsActive(s, x, from) && RowsLive(t, x, step.now) {
      EligibilityIsNotLostSilently(s, step.request, step.now, x);
    }
  }

  lemma {:induction false} TimeNeverRevives(s: Store, x: Id, from: int, to: int)
    requires x in s.drawn && from <= to
    ensures Dead(s, x, from) ==> Dead(s, x, to)
    ensures IsActive(s, x, from) ==> IsActive(s, x, to) || Dead(s, x, to)
  {
    assert RowsLive(s, x, to) ==> RowsLive(s, x, from);
  }

  lemma {:induction false} RunNeverRevives(s: Store, steps: seq<Step>, x: Id, from: int, to: int)
    requires Inv(s) && x in s.drawn && Timed(from, steps, to)
    ensures x in Run(s, steps).drawn
    ensures Dead(s, x, from) ==> Dead(Run(s, steps), x, to)
    ensures IsActive(s, x, from) ==> IsActive(Run(s, steps), x, to) || Dead(Run(s, steps), x, to)
    decreases |steps|
  {
    hide Inv, IsActive, Dead, After;
    if steps == [] {
      TimeNeverRevives(s, x, from, to);
    } else {
      var n := |steps| - 1;
      var t, step := Run(s, steps[..n]), steps[n];
      RunNeverRevives(s, steps[..n], x, from, step.now);
      RunKeeps(s, steps[..n]);
      StepNeverRevives(t, step, x, step.now);
      TimeNeverRevives(Run(s, steps), x, step.now, to);
    }
  }

  /** A session that was active once and then became inactive stays inactive, whatever is requested later. */
  lemma {:induction false} NoResurrection(
    before: seq<Step>, x: Id, at: int, first: seq<Step>, inactiveAt: int, later: seq<Step>, to: int)
    requires IsActive(Run(EMPTY, before), x, at)
    requires Timed(at, first, inactiveAt) && !IsActive(Run(Run(EMPTY, before), first), x, inactiveAt)
    requires Timed(inactiveAt, later, to)
    ensures !IsActive(Run(Run(Run(EMPTY, before), first), later), x, to)
  {
    var s := Run(EMPTY, before);
    EmptyIsSound();
    RunKeeps(EMPTY, before);
    assert SessionLinked(s, x);
    RunNeverRevives(s, first, x, at, inactiveAt);
    RunKeeps(s, first);
    RunNeverRevives(Run(s, first), later, x, inactiveAt, to);
  }

  /**
   * "Once active" is needed: create_session does not look at the phone, so a session opened under a
   * blocked phone starts inactive and an unblock makes it active.
   */
  lemma {:induction false} NeverActiveMayBecomeActive()
    ensures var s := Store(map[1 := Account(true, "+1")], {"+1"}, map[], map[], {1});
            var made := After(s, Step(CreateSession(1, Login(2, 3, "d"), 100), 0));
            Inv(s) && 3 in made.sessions && !IsActive(made, 3, 0)
            && IsActive(After(made, Step(UnblockPhone("+1"), 1)), 3, 1)
  {
    var s := Store(map[1 := Account(true, "+1")], {"+1"}, map[], map[], {1});
    assert ActiveFamilies(s, 1, 0) == {};
    assert Evict(s, 1, 0) == s;
  }

  /** A refresh moves the activity of a session to its successor, and touches no other session. */
  lemma {:induction false} RefreshHandsOver(s: Store, x: Id, next: Id, digest: Digest, now: int, y: Id, later: int)
    requires Inv(s) && IsActive(s, x, now) && next !in s.drawn && !DigestTaken(s, digest)
    ensures var done := Perform(s, Refresh(s.sessions[x].digest, next, digest), now);
            && done.error == None && next in done.store.sessions
            && done.store.sessions[next].user == s.sessions[x].user
            && done.store.sessions[next].family == s.sessions[x].family
            && IsActive(done.store, next, now) && !IsActive(done.store, x, later)
            && (y != x && y != next ==> (IsActive(done.store, y, later) <==> IsActive(s, y, later)))
  {
    assert SessionLinked(s, x) && FamilyLinked(s, s.sessions[x].family);
    assert DigestTaken(s, s.sessions[x].digest);
    assert WithDigest(s, s.sessions[x].digest) == Some(x);
  }

  // ----- reuse of a superseded token -----

  ghost predicate FamilyEnded(s: Store, f: Id) {
    f in s.drawn && (f in s.families ==> s.families[f].revokedAt.Some?)
  }

  /** A replaced refresh token is refused and ends its family: none of its sessions is active ever after. */
  lemma {:induction false} ReuseEndsTheFamily(
    before: seq<Step>, x: Id, next: Id, digest: Digest, now: int, later: seq<Step>, y: Id, at: int)
    requires x in Run(EMPTY, before).sessions && Run(EMPTY, before).sessions[x].replacedBy.Some?
    ensures var s := Run(EMPTY, before);
            var reused := Perform(s, Refresh(s.sessions[x].digest, next, digest), now);
            var t := Run(reused.store, later);
            reused.error == Some(AuthenticationError)
            && (y in t.sessions && t.sessions[y].family == s.sessions[x].family ==> !IsActive(t, y, at))
  {
    var s := Run(EMPTY, before);
    EmptyIsSound();
    RunKeeps(EMPTY, before);
    var f := s.sessions[x].family;
    assert SessionLinked(s, x) && FamilyLinked(s, f);
    var request := Refresh(s.sessions[x].digest, next, digest);
    assert DigestTaken(s, s.sessions[x].digest);
    assert WithDigest(s, s.sessions[x].digest) == Some(x);
    StepKeeps(s, request, now);
    var reused := Perform(s, request, now).store;
    assert FamilyEnded(reused, f);
    RunKeeps(reused, later);
    assert FamilyStays(reused, Run(reused, later), f);
  }

  // ----- at most five active families -----

  ghost predicate Bounded(s: Store, now: int) {
    forall u {:trigger ActiveFamilies(s, u, now)} :: |ActiveFamilies(s, u, now)| <= FAMILY_LIMIT
  }

  lemma {:induction false} SubsetIsSmaller<T>(a: set<T>, b: set<T>)
    requires a <= b
    ensures |a| <= |b|
  {
    assert b == a + (b - a);
  }

  /** Nothing but a rotation of a live session adds a session, and nothing adds a family. */
  ghost predicate OpensNothing(s: Store, t: Store, from: int) {
    && t.families.Keys <= s.families.Keys
    && (forall x :: x in t.sessions && x !in s.sessions ==> HasLiveLeaf(s, t.sessions[x].family, from))
  }

  lemma {:induction false} Fewer(s: Store, t: Store, u: Id, from: int, now: int)
    requires Linked(s) && Evolves(s, t) && OpensNothing(s, t, from) && from <= now
    ensures ActiveFamilies(t, u, now) <= ActiveFamilies(s, u, from)
  {
    forall f | f in ActiveFamilies(t, u, now)
      ensures f in ActiveFamilies(s, u, from)
    {
      assert FamilyLinked(s, f) && FamilyStays(s, t, f);
      var x :| x in t.sessions && t.sessions[x].family == f && LeafLive(t.sessions[x], now);
      if x in s.sessions {
        assert SessionLinked(s, x) && SessionStays(s, t, x);
        assert LeafLive(s.sessions[x], from);
      }
      assert HasLiveLeaf(s, f, from);
    }
  }

  lemma {:induction false} BoundedFewer(s: Store, t: Store, from: int, now: int)
    requires Bounded(s, from) && Linked(s) && Evolves(s, t) && OpensNothing(s, t, from) && from <= now
    ensures Bounded(t, now)
  {
    forall u
      ensures |ActiveFamilies(t, u, now)| <= FAMILY_LIMIT
    {
      Fewer(s, t, u, from, now);
      SubsetIsSmaller(ActiveFamilies(t, u, now), ActiveFamilies(s, u, from));
    }
  }

  lemma {:induction false} TimeBounded(s: Store, from: int, now: int)
    requires Inv(s) && Bounded(s, from) && from <= now
    ensures Bounded(s, now)
  {
    Stands(s);
    BoundedFewer(s, s, from, now);
  }

  /** The eviction loop pops exactly the excess over four, oldest first. */
  lemma {:induction false} EvictedAreOldest(families: map<Id, Family>, rows: set<Id>)
    requires rows <= families.Keys
    ensures Evicted(families, rows) <= rows
    ensures |rows - Evicted(families, rows)| == Min(|rows|, FAMILY_LIMIT - 1)
    ensures forall f, g :: f in Evicted(families, rows) && g in rows - Evicted(families, rows) ==>
        Before(families, f, g)
    decreases |rows|
  {
    if |rows| < FAMILY_LIMIT {
      assert rows - {} == rows;
    } else {
      var f := Oldest(families, rows);
      EvictedAreOldest(families, rows - {f});
      var gone := Evicted(families, rows - {f});
      assert rows - ({f} + gone) == (rows - {f}) - gone;
    }
  }

  lemma {:induction false} LeavesUntouched(s: Store, t: Store, gone: set<Id>, f: Id, now: int, added: Id)
    requires f !in gone && added !in s.sessions && t.sessions.Keys == s.sessions.Keys + {added}
    requires t.sessions[added].family != f
    requires forall x :: x in s.sessions ==>
        t.sessions[x] == StampSession(s.sessions[x], s.sessions[x].family in gone, now)
    ensures HasLiveLeaf(t, f, now) <==> HasLiveLeaf(s, f, now)
  {
    if HasLiveLeaf(s, f, now) {
      var x :| x in s.sessions && s.sessions[x].family == f && LeafLive(s.sessions[x], now);
      assert t.sessions[x] == s.sessions[x];
    }
    if HasLiveLeaf(t, f, now) {
      var x :| x in t.sessions && t.sessions[x].family == f && LeafLive(t.sessions[x], now);
      assert x in s.sessions && t.sessions[x] == s.sessions[x];
    }
  }

  /** The old rows after a login: stamped where their family was evicted. */
  lemma {:induction false} LoginRows(s: Store, user: Id, login: Login, now: int, expiresAt: int)
    requires Linked(s) && CreateLoginState(s, user, login, now, expiresAt).Some?
    ensures var t := CreateLoginState(s, user, login, now, expiresAt).value;
            var gone := Evicted(s.families, ActiveFamilies(s, user, now));
            && login.family !in s.families && login.session !in s.sessions
            && t.families.Keys == s.families.Keys + {login.family}
            && t.sessions.Keys == s.sessions.Keys + {login.session}
            && (forall f :: f in s.families ==> t.families[f] == StampFamily(s.families[f], f in gone, now))
            && (forall x :: x in s.sessions ==>
                  t.sessions[x] == StampSession(s.sessions[x], s.sessions[x].family in gone, now))
            && t.families[login.family] == Family(user, now, None)
            && t.sessions[login.session] == Session(user, login.family, login.digest, now, expiresAt, None, None)
  {
    assert login.session in s.sessions ==> SessionLinked(s, login.session);
    assert login.family in s.families ==> FamilyLinked(s, login.family);
  }

  lemma {:induction false} LoginSpares(s: Store, user: Id, login: Login, now: int, expiresAt: int, u: Id, f: Id)
    requires Linked(s) && CreateLoginState(s, user, login, now, expiresAt).Some? && f in s.families
    ensures f in CreateLoginState(s, user, login, now, expiresAt).value.families
    ensures IsActiveFamily(CreateLoginState(s, user, login, now, expiresAt).value, u, f, now) <==>
            IsActiveFamily(s, u, f, now) && f !in Evicted(s.families, ActiveFamilies(s, user, now))
  {
    var gone := Evicted(s.families, ActiveFamilies(s, user, now));
    var t := CreateLoginState(s, user, login, now, expiresAt).value;
    LoginRows(s, user, login, now, expiresAt);
    if f in gone {
      assert t.families[f].revokedAt.Some?;
    } else {
      LeavesUntouched(s, t, gone, f, now, login.session);
    }
  }

  lemma {:induction false} NewFamilyIsActive(s: Store, user: Id, login: Login, now: int, expiresAt: int, u: Id)
    requires Linked(s) && CreateLoginState(s, user, login, now, expiresAt).Some? && now < expiresAt
    ensures login.family in CreateLoginState(s, user, login, now, expiresAt).value.families
    ensures IsActiveFamily(CreateLoginState(s, user, login, now, expiresAt).value, u, login.family, now) <==> u == user
  {
    var t := CreateLoginState(s, user, login, now, expiresAt).value;
    LoginRows(s, user, login, now, expiresAt);
    assert t.sessions[login.session].family == login.family && LeafLive(t.sessions[login.session], now);
    assert HasLiveLeaf(t, login.family, now);
  }

  /** After a login, the families that stay active are those that were not evicted, and the new one. */
  lemma {:induction false} LoginKeepsTheNewest(s: Store, user: Id, login: Login, now: int, expiresAt: int, u: Id)
    requires Linked(s) && CreateLoginState(s, user, login, now, expiresAt).Some? && now < expiresAt
    ensures ActiveFamilies(CreateLoginState(s, user, login, now, expiresAt).value, u, now)
         == (ActiveFamilies(s, u, now) - Evicted(s.families, ActiveFamilies(s, user, now)))
            + (if u == user then {login.family} else {})
  {
    hide Linked, Evicted, CreateLoginState;
    var t := CreateLoginState(s, user, login, now, expiresAt).value;
    LoginRows(s, user, login, now, expiresAt);
    NewFamilyIsActive(s, user, login, now, expiresAt, u);
    forall f | f in s.families
      ensures f in ActiveFamilies(t, u, now) <==>
              f in ActiveFamilies(s, u, now) - Evicted(s.families, ActiveFamilies(s, user, now))
    {
      LoginSpares(s, user, login, now, expiresAt, u, f);
    }
  }

  lemma {:induction false} LoginBounded(s: Store, user: Id, login: Login, now: int, expiresAt: int)
    requires Linked(s) && Bounded(s, now) && now < expiresAt && CreateLoginState(s, user, login, now, expiresAt).Some?
    ensures Bounded(CreateLoginState(s, user, login, now, expiresAt).value, now)
  {
    var t := CreateLoginState(s, user, login, now, expiresAt).value;
    var gone := Evicted(s.families, ActiveFamilies(s, user, now));
    forall u
      ensures |ActiveFamilies(t, u, now)| <= FAMILY_LIMIT
    {
      LoginKeepsTheNewest(s, user, login, now, expiresAt, u);
      EvictedAreOldest(s.families, ActiveFamilies(s, user, now));
      SubsetIsSmaller(ActiveFamilies(s, u, now) - gone, ActiveFamilies(s, u, now));
    }
  }

  lemma {:induction false} CommitBounded(
    s: Store, t: Store, user: Id, login: Login, from: int, now: int, expiresAt: int, e: Error)
    requires Inv(s) && Bounded(s, from) && Keeps(s, t) && OpensNothing(s, t, from) && from <= now < expiresAt
    ensures Bounded(Commit(s, CreateLoginState(t, user, login, now, expiresAt), e).store, now)
  {
    Stands(s);
    BoundedFewer(s, s, from, now);
    BoundedFewer(s, t, from, now);
    if CreateLoginState(t, user, login, now, expiresAt).Some? {
      LoginBounded(t, user, login, now, expiresAt);
    }
  }

  lemma {:induction false} RotationBounded(
    s: Store, id: Id, next: Id, digest: Digest, from: int, now: int, expiresAt: int)
    requires Inv(s) && Bounded(s, from) && from <= now && IsActive(s, id, now)
    requires Replace(s, id, next, digest, now, expiresAt).Some?
    ensures Bounded(Replace(s, id, next, digest, now, expiresAt).value, now)
  {
    ReplaceKeeps(s, id, next, digest, now, expiresAt);
    assert HasLiveLeaf(s, s.sessions[id].family, from);
    BoundedFewer(s, Replace(s, id, next, digest, now, expiresAt).value, from, now);
  }

  lemma {:induction false} PhoneChangeBounded(s: Store, id: Id, phone: Phone, login: Login, from: int, now: int)
    requires Inv(s) && Bounded(s, from) && from <= now
    ensures Bounded(DoChangePhone(s, id, phone, login, now).store, now)
  {
    Stands(s);
    TimeBounded(s, from, now);
    if IsActive(s, id, now) && !Registered(s, phone) && phone !in s.blocked {
      var user := s.sessions[id].user;
      StampUsersKeeps(s, {user}, now);
      ChangeUserKeeps(s, StampUsers(s, {user}, now), user, s.users[user].(phone := phone));
      CommitBounded(s, WithUser(StampUsers(s, {user}, now), user, s.users[user].(phone := phone)), user, login,
                    from, now, now + REFRESH_TTL_MS, StorageError);
    }
  }

  lemma {:induction false} RegisterBounded(s: Store, user: Id, phone: Phone, login: Login, from: int, now: int)
    requires Inv(s) && Bounded(s, from) && from <= now
    ensures Bounded(DoRegister(s, user, phone, login, now).store, now)
  {
    Stands(s);
    TimeBounded(s, from, now);
    if !Registered(s, phone) && phone !in s.blocked && user !in s.drawn {
      var added := s.(users := s.users[user := Account(true, phone)], drawn := s.drawn + {user});
      AccountsKeep(s, added);
      CommitBounded(s, added, user, login, from, now, now + REFRESH_TTL_MS, IdentityConflictError);
    }
  }

  ghost predicate MayOpen(request: Request) {
    request.Register? || request.SignIn? || request.CreateSession? || request.RotateSession? || request.Refresh?
    || request.ChangePassword? || request.ChangePhone?
  }

  lemma {:induction false} OthersOpenNothing(s: Store, request: Request, from: int, now: int)
    requires Inv(s) && !MayOpen(request)
    ensures OpensNothing(s, Perform(s, request, now).store, from)
  {
  }

  lemma {:induction false} RefreshBounded(s: Store, presented: Digest, next: Id, digest: Digest, from: int, now: int)
    requires Inv(s) && Bounded(s, from) && from <= now
    ensures Bounded(DoRefresh(s, presented, next, digest, now).store, now)
  {
    Stands(s);
    TimeBounded(s, from, now);
    var found := WithDigest(s, presented);
    if found.Some? {
      var id := found.value;
      assert SessionLinked(s, id);
      var f := {s.sessions[id].family};
      if IsActive(s, id, now) {
        if Replace(s, id, next, digest, now, now + REFRESH_TTL_MS).Some? {
          RotationBounded(s, id, next, digest, from, now, now + REFRESH_TTL_MS);
        }
      } else {
        StampKeeps(s, f, SessionsIn(s, f), now);
        OthersOpenNothing(s, RevokeFamily(s.sessions[id].family), from, now);
        BoundedFewer(s, StampFamilies(s, f, now), from, now);
      }
    }
  }

  lemma {:induction false} RotateBounded(
    s: Store, id: Id, next: Id, digest: Digest, expiresAt: int, from: int, now: int)
    requires Inv(s) && Bounded(s, from) && from <= now
    ensures Bounded(DoRotateSession(s, id, next, digest, expiresAt, now).store, now)
  {
    TimeBounded(s, from, now);
    if IsActive(s, id, now) && Replace(s, id, next, digest, now, expiresAt).Some? {
      RotationBounded(s, id, next, digest, from, now, expiresAt);
    }
  }

  lemma {:induction false} PasswordChangeBounded(s: Store, id: Id, login: Login, from: int, now: int)
    requires Inv(s) && Bounded(s, from) && from <= now
    ensures Bounded(DoChangePassword(s, id, login, now).store, now)
  {
    TimeBounded(s, from, now);
    if IsActive(s, id, now) {
      var user := s.sessions[id].user;
      StampUsersKeeps(s, {user}, now);
      OthersOpenNothing(s, RevokeAll(user), from, now);
      CommitBounded(s, StampUsers(s, {user}, now), user, login, from, now, now + REFRESH_TTL_MS, StorageError);
    }
  }

  lemma {:induction false} SignInBounded(
    s: Store, user: Id, login: Login, from: int, now: int, expiresAt: int, e: Error)
    requires Inv(s) && Bounded(s, from) && from <= now < expiresAt
    ensures Bounded(Commit(s, CreateLoginState(s, user, login, now, expiresAt), e).store, now)
  {
    Stands(s);
    CommitBounded(s, s, user, login, from, now, expiresAt, e);
  }

  lemma {:induction false} OtherBounded(s: Store, request: Request, from: int, now: int)
    requires Inv(s) && Bounded(s, from) && from <= now && !MayOpen(request)
    ensures Bounded(Perform(s, request, now).store, now)
  {
    StepKeeps(s, request, now);
    OthersOpenNothing(s, request, from, now);
    BoundedFewer(s, Perform(s, request, now).store, from, now);
  }

  lemma {:induction false} StepBounded(s: Store, step: Step, from: int)
    requires Inv(s) && Bounded(s, from) && from <= step.now
    ensures Bounded(After(s, step), step.now)
  {
    var now := step.now;
    TimeBounded(s, from, now);
    match step.request
    case Register(user, phone, login) => RegisterBounded(s, user, phone, login, from, now);
    case SignIn(user, login) => SignInBounded(s, user, login, from, now, now + REFRESH_TTL_MS, StorageError);
    case CreateSession(user, login, expiresAt) =>
      if now < expiresAt { SignInBounded(s, user, login, from, now, expiresAt, SessionStateError); }
    case RotateSession(id, next, digest, expiresAt) => RotateBounded(s, id, next, digest, expiresAt, from, now);
    case Refresh(presented, next, digest) => RefreshBounded(s, presented, next, digest, from, now);
    case ChangePassword(id, login) => PasswordChangeBounded(s, id, login, from, now);
    case ChangePhone(id, phone, login) => PhoneChangeBounded(s, id, phone, login, from, now);
    case _ => OtherBounded(s, step.request, from, now);
  }

  lemma {:induction false} StepBoundedUntil(s: Store, step: Step, from: int, to: int)
    requires Inv(s) && Bounded(s, from) && from <= step.now <= to
    ensures Bounded(After(s, step), to)
  {
    StepBounded(s, step, from);
    StepKeeps(s, step.request, step.now);
    TimeBounded(After(s, step), step.now, to);
  }

  lemma {:induction false} RunBounded(s: Store, steps: seq<Step>, from: int, to: int)
    requires Inv(s) && Bounded(s, from) && Timed(from, steps, to)
    ensures Bounded(Run(s, steps), to)
    decreases |steps|
  {
    hide Bounded, Inv, After;
    if steps == [] {
      TimeBounded(s, from, to);
    } else {
      var n := |steps| - 1;
      RunBounded(s, steps[..n], from, steps[n].now);
      RunKeeps(s, steps[..n]);
      StepBoundedUntil(Run(s, steps[..n]), steps[n], steps[n].now, to);
    }
  }

  /** At no instant has a user more than five active families. */
  lemma {:induction false} AtMostFiveFamilies(steps: seq<Step>, from: int, at: int, user: Id)
    requires Timed(from, steps, at)
    ensures |ActiveFamilies(Run(EMPTY, steps), user, at)| <= FAMILY_LIMIT
  {
    EmptyIsSound();
    assert forall u :: ActiveFamilies(EMPTY, u, from) == {};
    RunBounded(EMPTY, steps, from, at);
  }

  /** A password change leaves the user exactly one active family: the one it opens. */
  lemma {:induction false} PasswordChangeLeavesOne(s: Store, id: Id, login: Login, now: int)
    requires Inv(s) && Perform(s, ChangePassword(id, login), now).error.None?
    ensures id in s.sessions
    ensures ActiveFamilies(Perform(s, ChangePassword(id, login), now).store, s.sessions[id].user, now) == {login.family}
  {
    var user := s.sessions[id].user;
    var stamped := StampUsers(s, {user}, now);
    StampUsersKeeps(s, {user}, now);
    assert ActiveFamilies(stamped, user, now) == {};
    LoginKeepsTheNewest(stamped, user, login, now, now + REFRESH_TTL_MS, user);
  }
}
