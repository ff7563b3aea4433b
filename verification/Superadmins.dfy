/**
 The last-superadmin guard of backend-rust/src/api/users.rs. The advisory lock and the transaction live on one
 connection, so losing it gives up both.
 */
module Superadmins {
  import opened Options

  const SUPERADMIN := "superadmin"

  datatype Tables = Tables(users: map<nat, string>, roles: set<string>, roleUser: set<(nat, string)>)

  datatype Request =
    | Update(user: nat, name: Option<string>, role: Option<string>)
    | Delete(user: nat)

  datatype Reply = Done | LastSuperadmin | NotFound | RoleUnknown | DatabaseError

  function Supers(t: Tables): set<nat> {
    set ru | ru in t.roleUser && ru.1 == SUPERADMIN :: ru.0
  }

  /** is_only_superadmin_on: another superadmin exists, or this user is not one, or it is the only one. */
  predicate IsOnly(t: Tables, user: nat) {
    |Supers(t)| <= 1 && user in Supers(t)
  }

  /** The requests that can take the role away. */
  predicate Demotes(r: Request) {
    r.Delete? || (r.role.Some? && r.role.value != SUPERADMIN)
  }

  function Unassigned(t: Tables, user: nat): Tables {
    t.(roleUser := set ru | ru in t.roleUser && ru.0 != user)
  }

  /** What the statements of a request write; deleting a user cascades to its roles. */
  function Written(t: Tables, r: Request): Tables {
    match r
    case Update(user, name, role) =>
      var named := if name.Some? then t.(users := t.users[user := name.value]) else t;
      if role.None? then named
      else
        var cleared := Unassigned(named, user);
        cleared.(roleUser := cleared.roleUser + {(user, role.value)})
    case Delete(user) => Unassigned(t, user).(users := t.users - {user})
  }

  function Served(t: Tables, r: Request): (Tables, Reply) {
    if r.user !in t.users then (t, NotFound)
    else if Demotes(r) && IsOnly(t, r.user) then (t, LastSuperadmin)
    else if r.Update? && r.role.Some? && r.role.value !in t.roles then (t, RoleUnknown)
    else (Written(t, r), Done)
  }

  /** update_user_locked and delete_user_locked on the tables themselves. */
  class UserTables {
    var users: map<nat, string>
    const roles: set<string>
    var roleUser: set<(nat, string)>

    function S(): Tables
      reads this
    {
      Tables(users, roles, roleUser)
    }

    constructor (t: Tables)
      ensures S() == t
    {
      users, roles, roleUser := t.users, t.roles, t.roleUser;
    }

    /** COUNT(DISTINCT user_id) first; the user's own row only when there is at most one superadmin. */
    method IsOnlySuperadmin(user: nat) returns (only: bool)
      ensures only <==> IsOnly(S(), user)
    {
      var total := |set ru | ru in roleUser && ru.1 == SUPERADMIN :: ru.0|;
      if total > 1 { return false; }
      only := exists ru | ru in roleUser :: ru.1 == SUPERADMIN && ru.0 == user;
    }

    /** A failed role insert leaves by the error path, which rolls the transaction back. */
    method UpdateUserLocked(user: nat, name: Option<string>, role: Option<string>) returns (reply: Reply)
      modifies `users, `roleUser
      ensures (S(), reply) == Served(old(S()), Update(user, name, role))
    {
      if user !in users { return NotFound; }
      if role.Some? && role.value != SUPERADMIN {
        var only := IsOnlySuperadmin(user);
        if only { return LastSuperadmin; }
      }
      var savedUsers, savedRoles := users, roleUser;
      if name.Some? {
        users := users[user := name.value];
      }
      if role.Some? {
        roleUser := set ru | ru in roleUser && ru.0 != user;
        if role.value !in roles {
          users, roleUser := savedUsers, savedRoles;
          return RoleUnknown;
        }
        roleUser := roleUser + {(user, role.value)};
      }
      return Done;
    }

    method DeleteUserLocked(user: nat) returns (reply: Reply)
      modifies `users, `roleUser
      ensures (S(), reply) == Served(old(S()), Delete(user))
    {
      if user !in users { return NotFound; }
      var only := IsOnlySuperadmin(user);
      if only { return LastSuperadmin; }
      users := users - {user};
      roleUser := set ru | ru in roleUser && ru.0 != user;
      return Done;
    }
  }

  lemma SupersAfter(t: Tables, r: Request)
    ensures
      var s := Supers(Written(t, r));
      && (Demotes(r) ==> s == Supers(t) - {r.user})
      && (!Demotes(r) ==> s >= Supers(t))
  {
    var t' := Written(t, r);
    forall u ensures u in Supers(t') <==>
        if u == r.user && (r.Delete? || r.role.Some?) then r.Update? && r.role == Some(SUPERADMIN) else u in Supers(t)
    {
      assert u in Supers(t) <==> (u, SUPERADMIN) in t.roleUser;
      assert u in Supers(t') <==> (u, SUPERADMIN) in t'.roleUser;
    }
  }

  lemma OnlyMeansAlone(t: Tables, user: nat)
    ensures IsOnly(t, user) <==> Supers(t) == {user}
  {
    var s := Supers(t);
    if user in s {
      assert s == {user} + (s - {user});
      assert |s| == 1 + |s - {user}|;
    }
  }

  /** A request is refused as the last superadmin's exactly when carrying it out would leave none. */
  lemma RefusedIffLast(t: Tables, r: Request)
    requires Supers(t) != {} && r.user in t.users
    ensures Served(t, r).1 == LastSuperadmin <==> Supers(Written(t, r)) == {}
  {
    SupersAfter(t, r);
    OnlyMeansAlone(t, r.user);
  }

  /** The user is the one and only superadmin. */
  ghost predicate LastOne(t: Tables, user: nat) {
    forall u: nat :: (u, "superadmin") in t.roleUser <==> u == user
  }

  /** What the request asks for is stored, and nothing about any other user changes. */
  ghost predicate AsAsked(t: Tables, t': Tables, r: Request) {
    && t'.roles == t.roles
    && t'.users.Keys == (if r.Delete? then t.users.Keys - {r.user} else t.users.Keys)
    && (forall u | u in t.users && u in t'.users ::
          t'.users[u] == if u == r.user && r.Update? && r.name.Some? then r.name.value else t.users[u])
    && forall u: nat, role ::
         ((u, role) in t'.roleUser <==>
          if u != r.user || (r.Update? && r.role.None?) then (u, role) in t.roleUser
          else r.Update? && r.role == Some(role))
  }

  lemma LastOneIs(t: Tables, user: nat)
    ensures IsOnly(t, user) <==> LastOne(t, user)
  {
    OnlyMeansAlone(t, user);
    assert forall u: nat :: u in Supers(t) <==> (u, SUPERADMIN) in t.roleUser;
    if LastOne(t, user) {
      assert Supers(t) == {user};
    }
  }

  lemma WrittenAsAsked(t: Tables, r: Request)
    requires r.user in t.users
    ensures AsAsked(t, Written(t, r), r)
  {
    var t' := Written(t, r);
    forall u: nat, role
      ensures (u, role) in t'.roleUser <==>
          if u != r.user || (r.Update? && r.role.None?) then (u, role) in t.roleUser
          else r.Update? && r.role == Some(role)
    {
      assert (u, role).0 == u && (u, role).1 == role;
    }
  }

  /** Which answer each request gets, and that only a carried out one changes the tables. */
  lemma ServedIs(t: Tables, r: Request)
    ensures
      var (t', reply) := Served(t, r);
      if r.user !in t.users then t' == t && reply == NotFound
      else if (r.Delete? || (r.role.Some? && r.role.value != "superadmin")) && LastOne(t, r.user) then
        t' == t && reply == LastSuperadmin
      else if r.Update? && r.role.Some? && r.role.value !in t.roles then t' == t && reply == RoleUnknown
      else AsAsked(t, t', r) && reply == Done
  {
    LastOneIs(t, r.user);
    if r.user in t.users { WrittenAsAsked(t, r); }
  }

  // ---- concurrent requests ----

  datatype Phase =
    | Waiting(r: Request)
    | Locked(r: Request)
    | Found(r: Request)
    | Cleared(r: Request)
    | Finished(reply: Reply)

  /** Committed tables, the holder of the advisory lock, and where each connection is. */
  datatype World = World(t: Tables, lock: Option<nat>, connections: map<nat, Phase>)

  datatype Step =
    | Ask(c: nat, r: Request)
    | Granted(c: nat)
    | GiveUp(c: nat)
    | ReadRow(c: nat)
    | CountSuperadmins(c: nat)
    | Commit(c: nat)
    | Fail(c: nat)
    | Release(c: nat)
    | Lose(c: nat)
    | AddUser(user: nat, name: string, role: string)

  predicate In(w: World, c: nat, s: Step) {
    c in w.connections && match s
      case Granted(_) => w.connections[c].Waiting? && w.lock.None?
      case GiveUp(_) => w.connections[c].Waiting?
      case ReadRow(_) => w.connections[c].Locked?
      case CountSuperadmins(_) => w.connections[c].Found?
      case Commit(_) => w.connections[c].Cleared?
      case Fail(_) => w.connections[c].Locked? || w.connections[c].Found? || w.connections[c].Cleared?
      case Release(_) => w.connections[c].Finished?
      case Lose(_) => true
      case _ => false
  }

  predicate Can(w: World, s: Step) {
    match s
    case Ask(c, _) => c !in w.connections
    case AddUser(user, _, role) => user !in w.t.users && role in w.t.roles
    case _ => In(w, s.c, s)
  }

  function To(w: World, c: nat, p: Phase): World { w.(connections := w.connections[c := p]) }

  /** The connection is gone: no transaction, no lock. */
  function Without(w: World, c: nat): World {
    w.(connections := w.connections - {c}, lock := if w.lock == Some(c) then None else w.lock)
  }

  /** Each statement of update_user_safely and delete_user_safely; AddUser is any other writer. */
  function Do(w: World, s: Step): World
    requires Can(w, s)
  {
    match s
    case Ask(c, r) => To(w, c, Waiting(r))
    case Granted(c) => To(w, c, Locked(w.connections[c].r)).(lock := Some(c))
    case GiveUp(c) => Without(w, c)
    case ReadRow(c) =>
      var r := w.connections[c].r;
      To(w, c, if r.user in w.t.users then Found(r) else Finished(NotFound))
    case CountSuperadmins(c) =>
      var r := w.connections[c].r;
      To(w, c, if Demotes(r) && IsOnly(w.t, r.user) then Finished(LastSuperadmin) else Cleared(r))
    case Commit(c) =>
      var r := w.connections[c].r;
      if r.Update? && r.role.Some? && r.role.value !in w.t.roles then To(w, c, Finished(RoleUnknown))
      else To(w.(t := Written(w.t, r)), c, Finished(Done))
    case Fail(c) => To(w, c, Finished(DatabaseError))
    case Release(c) => Without(w, c)
    case Lose(c) => Without(w, c)
    case AddUser(user, name, role) =>
      w.(t := w.t.(users := w.t.users[user := name], roleUser := w.t.roleUser + {(user, role)}))
  }

  /** Only the lock's holder is past asking for it, and a cleared demotion leaves a superadmin. */
  ghost predicate Guarded(w: World) {
    && Supers(w.t) != {}
    && (forall c | c in w.connections && !w.connections[c].Waiting? :: w.lock == Some(c))
    && (forall c | c in w.connections && w.connections[c].Cleared? && Demotes(w.connections[c].r) ::
          Supers(w.t) - {w.connections[c].r.user} != {})
  }

  lemma GuardKept(w: World, s: Step)
    requires Guarded(w) && Can(w, s)
    ensures Guarded(Do(w, s))
  {
    var w' := Do(w, s);
    match s
    case CountSuperadmins(c) =>
      OnlyMeansAlone(w.t, w.connections[c].r.user);
    case Commit(c) =>
      SupersAfter(w.t, w.connections[c].r);
    case AddUser(user, name, role) =>
      forall u | u in Supers(w.t) ensures u in Supers(w'.t) {
        assert (u, SUPERADMIN) in w'.t.roleUser;
      }
    case _ =>
  }

  ghost predicate Runs(w: World, steps: seq<Step>)
    decreases |steps|
  {
    steps == [] || (Can(w, steps[0]) && Runs(Do(w, steps[0]), steps[1..]))
  }

  ghost function After(w: World, steps: seq<Step>): World
    requires Runs(w, steps)
    decreases |steps|
  {
    if steps == [] then w else After(Do(w, steps[0]), steps[1..])
  }

  /**
   However demotions, deletions, lost connections and new accounts interleave, an installation with a superadmin
   always has one.
   */
  lemma {:induction false} NeverOwnerless(w: World, steps: seq<Step>)
    requires Guarded(w) && Runs(w, steps)
    ensures Guarded(After(w, steps)) && Supers(After(w, steps).t) != {}
    decreases |steps|
  {
    if steps == [] {
    } else {
      GuardKept(w, steps[0]);
      NeverOwnerless(Do(w, steps[0]), steps[1..]);
    }
  }

  /** What the lock is for: two demotions that both passed the count would leave nobody. */
  lemma TwoClearedLeaveNone(w: World)
    requires w.connections == map[1 := Cleared(Delete(1)), 2 := Cleared(Delete(2))] && Supers(w.t) == {1, 2}
    ensures Runs(w, [Commit(1), Commit(2)]) && Supers(After(w, [Commit(1), Commit(2)]).t) == {} && !Guarded(w)
  {
    var w1 := Do(w, Commit(1));
    SupersAfter(w.t, Delete(1));
    SupersAfter(w1.t, Delete(2));
    assert [Commit(1), Commit(2)][1..] == [Commit(2)] && [Commit(2)][1..] == [];
  }

  /** A request whose row was found still has its user: only the lock's holder deletes users. */
  ghost predicate Present(w: World) {
    forall c | c in w.connections && (w.connections[c].Found? || w.connections[c].Cleared?) :: w.connections[c].r.user in w.t.users
  }

  lemma PresentKept(w: World, s: Step)
    requires Guarded(w) && Present(w) && Can(w, s)
    ensures Present(Do(w, s))
  {
  }

  lemma {:induction false} PresentOverRun(w: World, steps: seq<Step>)
    requires Guarded(w) && Present(w) && Runs(w, steps)
    ensures Guarded(After(w, steps)) && Present(After(w, steps))
    decreases |steps|
  {
    if steps != [] {
      GuardKept(w, steps[0]);
      PresentKept(w, steps[0]);
      PresentOverRun(Do(w, steps[0]), steps[1..]);
    }
  }

  /**
   Checked in separate statements among other writers, a request is nevertheless answered as if it had been carried out at
   one moment: the step that decides its reply leaves the tables and gives the reply it would get on its own there.
   */
  lemma AnsweredAtOnce(w0: World, steps: seq<Step>, s: Step)
    requires Guarded(w0) && Present(w0) && Runs(w0, steps) && Can(After(w0, steps), s)
    requires s.ReadRow? || s.CountSuperadmins? || s.Commit?
    requires Do(After(w0, steps), s).connections[s.c].Finished?
    ensures
      var w := After(w0, steps);
      (Do(w, s).t, Do(w, s).connections[s.c].reply) == Served(w.t, w.connections[s.c].r)
  {
    PresentOverRun(w0, steps);
    var w := After(w0, steps);
    OnlyMeansAlone(w.t, w.connections[s.c].r.user);
  }
}
