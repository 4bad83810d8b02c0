/** Accounts and sessions of the backend: backend/users.go, user_handlers.go, session.go and the
    session half of loginHandler. Each handler is one atomic step; a failing query changes nothing. */
module Accounts {
  import opened Options

  datatype Role = Admin | Analyst
  datatype User = User(hash: string, role: Role)
  datatype Session = Session(username: string, role: Role, expiresAt: int)
  type Users = map<string, User>
  type Sessions = map<string, Session>

  /** The two tables. `missed` is history: the users whose sessions were not dropped when they
      were last removed or changed role, because that query failed. */
  datatype Tables = Tables(users: Users, sessions: Sessions, missed: set<string>)

  datatype Reply = LoggedIn(token: string) | NoContent | Unauthorized | Forbidden | BadRequest | NotFound | Conflict | InternalError

  /** Which of the queries a handler may make fail. */
  datatype Faults = Faults(session: bool, renew: bool, read: bool, count: bool, write: bool, drop: bool)

  datatype Entry = Entry(username: string, hash: string, role: string)
  datatype UsersFile = NoPath | Missing | Unreadable | Malformed | Parsed(entries: seq<Entry>)

  /** The environment SeedUsers reads; `hash` is None when hashing fails, and `insertFails` is
      the insert that fails, the admin's being number 0 (negative for none). */
  datatype SeedEnv = SeedEnv(
    adminUser: string, passwordLength: nat, countFails: bool, hash: Option<string>, file: UsersFile, insertFails: int)

  datatype UserRequest =
    | Create(username: string, blank: bool, passwordLength: nat, hash: Option<string>, role: string)
    | Delete(username: string)
    | SetRole(username: string, role: string)

  datatype Op =
    | Restart(env: SeedEnv)
    | Login(username: string, passwordMatches: bool, token: string, now: int, faults: Faults)
    | Logout(token: string, faults: Faults)
    | CleanUp(now: int, faults: Faults)
    | Manage(token: string, now: int, request: UserRequest, faults: Faults)

  const MIN_PASSWORD := 12
  const SESSION_TTL := 8 * 3600

  function RoleOf(role: string): Option<Role> {
    if role == "admin" then Some(Admin) else if role == "analyst" then Some(Analyst) else None
  }

  function UpsertIfAbsent(users: Users, username: string, hash: string, role: Role): Users {
    if username in users then users else users[username := User(hash, role)]
  }

  function Admins(users: Users): set<string> {
    set u | u in users && users[u].role == Admin
  }

  function SeedEntries(users: Users, entries: seq<Entry>, insertFails: int): (r: (Users, bool))
    decreases |entries|
  {
    if entries == [] then (users, true)
    else
      var e := entries[0];
      match RoleOf(e.role)
      case None => (users, false)
      case Some(role) =>
        if insertFails == 0 then (users, false)
        else SeedEntries(UpsertIfAbsent(users, e.username, e.hash, role), entries[1..], insertFails - 1)
  }

  function Seed(users: Users, env: SeedEnv): (Users, bool) {
    if env.adminUser == "" || env.passwordLength < MIN_PASSWORD || env.countFails then (users, false)
    else if |users| > 0 then (users, true)
    else if env.hash.None? || env.insertFails == 0 then (users, false)
    else
      var seeded := UpsertIfAbsent(users, env.adminUser, env.hash.value, Admin);
      match env.file
      case NoPath => (seeded, true)
      case Missing => (seeded, true)
      case Unreadable => (seeded, false)
      case Malformed => (seeded, false)
      case Parsed(entries) => SeedEntries(seeded, entries, env.insertFails - 1)
  }

  function Without(sessions: Sessions, username: string): Sessions {
    map t | t in sessions && sessions[t].username != username :: sessions[t]
  }

  /** DeleteByUsername, which may fail. */
  function Drop(t: Tables, username: string, fails: bool): Tables {
    if fails then t.(missed := t.missed + {username})
    else t.(sessions := Without(t.sessions, username), missed := t.missed - {username})
  }

  /** SessionStore.Get */
  function GetSession(t: Tables, token: string, now: int, f: Faults): (Tables, Option<Session>) {
    if f.session || token !in t.sessions then (t, None)
    else
      var s := t.sessions[token];
      if now > s.expiresAt then
        (if f.renew then t else t.(sessions := t.sessions - {token}), None)
      else
        (if f.renew then t else t.(sessions := t.sessions[token := s.(expiresAt := now + SESSION_TTL)]), Some(s))
  }

  function CreateUser(t: Tables, r: UserRequest, f: Faults): (Tables, Reply)
    requires r.Create?
  {
    if r.blank || RoleOf(r.role).None? || r.passwordLength < MIN_PASSWORD then (t, BadRequest)
    else if r.hash.None? then (t, InternalError)
    else if r.username in t.users || f.write then (t, Conflict)
    else (t.(users := t.users[r.username := User(r.hash.value, RoleOf(r.role).value)]), NoContent)
  }

  function DeleteUser(t: Tables, r: UserRequest, f: Faults): (Tables, Reply)
    requires r.Delete?
  {
    if f.read || r.username !in t.users then (t, NotFound)
    else if t.users[r.username].role == Admin && f.count then (t, InternalError)
    else if t.users[r.username].role == Admin && |Admins(t.users)| <= 1 then (t, Conflict)
    else if f.write then (t, InternalError)
    else (Drop(t.(users := t.users - {r.username}), r.username, f.drop), NoContent)
  }

  function UpdateRole(t: Tables, r: UserRequest, f: Faults): (Tables, Reply)
    requires r.SetRole?
  {
    if RoleOf(r.role).None? then (t, BadRequest)
    else if f.read || r.username !in t.users then (t, NotFound)
    else
      var demotes := t.users[r.username].role == Admin && RoleOf(r.role).value == Analyst;
      if demotes && f.count then (t, InternalError)
      else if demotes && |Admins(t.users)| <= 1 then (t, Conflict)
      else if f.write then (t, InternalError)
      else
        var u := t.users[r.username].(role := RoleOf(r.role).value);
        (Drop(t.(users := t.users[r.username := u]), r.username, f.drop), NoContent)
  }

  /** The route: a live session of an admin, then the handler. */
  function ManageUsers(t: Tables, token: string, now: int, r: UserRequest, f: Faults): (Tables, Reply) {
    var (t', s) := GetSession(t, token, now, f);
    if s.None? then (t', Unauthorized)
    else if s.value.role != Admin then (t', Forbidden)
    else
      match r
      case Create(_, _, _, _, _) => CreateUser(t', r, f)
      case Delete(_) => DeleteUser(t', r, f)
      case SetRole(_, _) => UpdateRole(t', r, f)
  }

  /** loginHandler after the rate limiter; a repeated random token breaks the primary key. */
  function LogIn(t: Tables, username: string, passwordMatches: bool, token: string, now: int, f: Faults): (Tables, Reply) {
    if f.read || username !in t.users || !passwordMatches then (t, Unauthorized)
    else if f.write || token in t.sessions then (t, InternalError)
    else (t.(sessions := t.sessions[token := Session(username, t.users[username].role, now + SESSION_TTL)]), LoggedIn(token))
  }

  function Expire(sessions: Sessions, now: int): Sessions {
    map t | t in sessions && sessions[t].expiresAt >= now :: sessions[t]
  }

  function Step(t: Tables, op: Op): Tables {
    match op
    case Restart(env) => t.(users := Seed(t.users, env).0)
    case Login(username, matches, token, now, f) => LogIn(t, username, matches, token, now, f).0
    case Logout(token, f) => if f.session then t else t.(sessions := t.sessions - {token})
    case CleanUp(now, f) => if f.session then t else t.(sessions := Expire(t.sessions, now))
    case Manage(token, now, request, f) => ManageUsers(t, token, now, request, f).0
  }

  function Run(t: Tables, ops: seq<Op>): Tables {
    if ops == [] then t else Step(Run(t, ops[..|ops| - 1]), ops[|ops| - 1])
  }

  // --- What holds over every run -------------------------------------------------------------

  predicate HasAdmin(users: Users) {
    exists u :: u in users && users[u].role == Admin
  }

  /** The session tells the truth about its user. */
  predicate Truthful(t: Tables, s: Session) {
    s.username in t.users && t.users[s.username].role == s.role
  }

  predicate Inv(t: Tables) {
    && (t.users == map[] ==> t.sessions == map[])
    && (t.users != map[] ==> HasAdmin(t.users))
    && forall k :: k in t.sessions ==> t.sessions[k].username in t.missed || Truthful(t, t.sessions[k])
  }

  lemma AdminsCount(users: Users)
    ensures |Admins(users)| > 0 <==> HasAdmin(users)
  {
    if HasAdmin(users) {
      var u :| u in users && users[u].role == Admin;
      assert u in Admins(users);
    } else {
      assert Admins(users) == {};
    }
  }

  /** The refusal is exact: a user whose removal or demotion would leave no admin is the last one. */
  lemma LastAdmin(users: Users, name: string)
    requires name in users && users[name].role == Admin
    ensures |Admins(users)| <= 1 <==> !HasAdmin(users - {name})
    ensures forall hash :: HasAdmin(users - {name}) <==> HasAdmin(users[name := User(hash, Analyst)])
  {
    AdminsCount(users - {name});
    assert Admins(users - {name}) == Admins(users) - {name};
    forall hash ensures HasAdmin(users - {name}) <==> HasAdmin(users[name := User(hash, Analyst)]) {
      var demoted := users[name := User(hash, Analyst)];
      assert Admins(demoted) == Admins(users - {name});
      AdminsCount(demoted);
    }
  }

  lemma {:induction false} SeedKeepsAdmin(users: Users, entries: seq<Entry>, insertFails: int)
    requires HasAdmin(users)
    ensures HasAdmin(SeedEntries(users, entries, insertFails).0)
    decreases |entries|
  {
    if entries != [] && RoleOf(entries[0].role).Some? && insertFails != 0 {
      var e := entries[0];
      var more := UpsertIfAbsent(users, e.username, e.hash, RoleOf(e.role).value);
      var u :| u in users && users[u].role == Admin;
      assert u in more && more[u].role == Admin;
      SeedKeepsAdmin(more, entries[1..], insertFails - 1);
    }
  }

  /** SeedUsers on an empty table leaves an admin or nothing, even when it then fails; on any
      other table it changes nothing. */
  lemma SeedBootstraps(users: Users, env: SeedEnv)
    ensures users != map[] ==> Seed(users, env).0 == users
    ensures users == map[] && Seed(users, env).0 != map[] ==> HasAdmin(Seed(users, env).0)
    ensures users == map[] && Seed(users, env).1 ==> HasAdmin(Seed(users, env).0)
  {
    if users == map[] && env.hash.Some? {
      var seeded := UpsertIfAbsent(users, env.adminUser, env.hash.value, Admin);
      assert seeded[env.adminUser].role == Admin;
      if env.file.Parsed? {
        SeedKeepsAdmin(seeded, env.file.entries, env.insertFails - 1);
      }
    }
  }

  lemma GetKeepsInv(t: Tables, token: string, now: int, f: Faults)
    requires Inv(t)
    ensures Inv(GetSession(t, token, now, f).0) && GetSession(t, token, now, f).0.users == t.users
  {
  }

  lemma DropKeepsInv(before: Tables, t: Tables, username: string, fails: bool)
    requires Inv(before) && t.sessions == before.sessions && t.missed == before.missed
    requires HasAdmin(t.users)
    requires forall u :: u != username ==> (u in t.users <==> u in before.users) && (u in t.users ==> t.users[u] == before.users[u])
    ensures Inv(Drop(t, username, fails))
  {
    var d := Drop(t, username, fails);
    forall k | k in d.sessions ensures d.sessions[k].username in d.missed || Truthful(d, d.sessions[k]) {
      assert k in before.sessions && d.sessions[k] == before.sessions[k];
    }
  }

  lemma CreateKeepsInv(t: Tables, r: UserRequest, f: Faults)
    requires Inv(t) && r.Create? && t.users != map[]
    ensures Inv(CreateUser(t, r, f).0) && CreateUser(t, r, f).0.users != map[]
  {
    var d := CreateUser(t, r, f).0;
    var u :| u in t.users && t.users[u].role == Admin;
    assert u in d.users && d.users[u].role == Admin;
  }

  lemma DeleteKeepsInv(t: Tables, r: UserRequest, f: Faults)
    requires Inv(t) && r.Delete? && t.users != map[]
    ensures Inv(DeleteUser(t, r, f).0) && HasAdmin(DeleteUser(t, r, f).0.users)
  {
    if DeleteUser(t, r, f).1.NoContent? {
      var left := t.(users := t.users - {r.username});
      if t.users[r.username].role == Admin {
        LastAdmin(t.users, r.username);
      } else {
        var u :| u in t.users && t.users[u].role == Admin;
        assert u in left.users && left.users[u].role == Admin;
      }
      DropKeepsInv(t, left, r.username, f.drop);
    }
  }

  lemma UpdateKeepsInv(t: Tables, r: UserRequest, f: Faults)
    requires Inv(t) && r.SetRole? && t.users != map[]
    ensures Inv(UpdateRole(t, r, f).0) && HasAdmin(UpdateRole(t, r, f).0.users)
  {
    if UpdateRole(t, r, f).1.NoContent? {
      var u := t.users[r.username];
      var changed := t.(users := t.users[r.username := u.(role := RoleOf(r.role).value)]);
      if RoleOf(r.role).value == Admin {
        assert changed.users[r.username].role == Admin;
      } else if u.role == Admin {
        LastAdmin(t.users, r.username);
        assert u.(role := Analyst) == User(u.hash, Analyst);
      } else {
        var a :| a in t.users && t.users[a].role == Admin;
        assert a in changed.users && changed.users[a].role == Admin;
      }
      DropKeepsInv(t, changed, r.username, f.drop);
    }
  }

  lemma StepKeepsInv(t: Tables, op: Op)
    requires Inv(t)
    ensures Inv(Step(t, op))
    ensures t.users != map[] ==> Step(t, op).users != map[]
  {
    match op
    case Restart(env) => SeedBootstraps(t.users, env);
    case Login(_, _, _, _, _) =>
    case Logout(_, _) =>
    case CleanUp(_, _) =>
    case Manage(token, now, r, f) =>
      GetKeepsInv(t, token, now, f);
      var t' := GetSession(t, token, now, f).0;
      if t.users != map[] {
        match r {
          case Create(_, _, _, _, _) => CreateKeepsInv(t', r, f);
          case Delete(_) => DeleteKeepsInv(t', r, f);
          case SetRole(_, _) => UpdateKeepsInv(t', r, f);
        }
      }
  }

  /** Over every run: once any account exists there is an admin at every moment, and a session
      carries its user's role unless the query that should have dropped it failed. */
  lemma {:induction false} RunKeepsInv(t: Tables, ops: seq<Op>)
    requires Inv(t)
    ensures Inv(Run(t, ops))
    ensures t.users != map[] ==> HasAdmin(Run(t, ops).users)
  {
    if ops != [] {
      RunKeepsInv(t, ops[..|ops| - 1]);
      StepKeepsInv(Run(t, ops[..|ops| - 1]), ops[|ops| - 1]);
    }
  }

  lemma StepMisses(t: Tables, op: Op)
    requires op.Manage? ==> !op.faults.drop
    ensures Step(t, op).missed <= t.missed
  {
  }

  lemma {:induction false} RunMisses(t: Tables, ops: seq<Op>)
    requires t.missed == {}
    requires forall i :: 0 <= i < |ops| && ops[i].Manage? ==> !ops[i].faults.drop
    ensures Run(t, ops).missed == {}
  {
    if ops != [] {
      RunMisses(t, ops[..|ops| - 1]);
      StepMisses(Run(t, ops[..|ops| - 1]), ops[|ops| - 1]);
    }
  }

  /** Without a failed drop there is no exception. */
  lemma RolesAgree(t: Tables, ops: seq<Op>)
    requires Inv(t) && t.missed == {}
    requires forall i :: 0 <= i < |ops| && ops[i].Manage? ==> !ops[i].faults.drop
    ensures var d := Run(t, ops);
      forall k :: k in d.sessions ==> Truthful(d, d.sessions[k])
  {
    RunKeepsInv(t, ops);
    RunMisses(t, ops);
  }

  predicate Concerns(op: Op, name: string) {
    op.Manage? && op.request.username == name
  }

  /** After the first seed nothing but a request about an account changes it: no restart, login
      or request about someone else adds, removes or promotes it. */
  lemma {:induction false} AccountsChangeOnRequest(t: Tables, ops: seq<Op>, name: string)
    requires Inv(t) && t.users != map[]
    requires forall i :: 0 <= i < |ops| ==> !Concerns(ops[i], name)
    ensures var d := Run(t, ops);
      (name in d.users <==> name in t.users) && (name in t.users ==> d.users[name] == t.users[name])
  {
    if ops != [] {
      var last := |ops| - 1;
      AccountsChangeOnRequest(t, ops[..last], name);
      RunKeepsInv(t, ops[..last]);
      var before := Run(t, ops[..last]);
      assert !Concerns(ops[last], name);
      OthersStay(before, ops[last], name);
    }
  }

  lemma OthersStay(t: Tables, op: Op, name: string)
    requires t.users != map[] && !Concerns(op, name)
    ensures var d := Step(t, op);
      (name in d.users <==> name in t.users) && (name in t.users ==> d.users[name] == t.users[name])
  {
    if op.Restart? {
      SeedBootstraps(t.users, op.env);
    }
  }

  /** Only a session that says admin can change an account, and what it says is true unless its
      drop failed. */
  lemma OnlyAdminsManage(t: Tables, op: Op)
    requires Inv(t) && t.users != map[] && Step(t, op).users != t.users
    ensures op.Manage? && op.token in t.sessions && t.sessions[op.token].expiresAt >= op.now
    ensures var s := t.sessions[op.token];
      s.role == Admin && (s.username in t.missed || (s.username in t.users && t.users[s.username].role == Admin))
  {
    if op.Restart? {
      SeedBootstraps(t.users, op.env);
    }
  }

  /** A request to remove or demote an existing user that meets no fault is refused exactly
      when it would leave no admin. */
  lemma RefusalsAreExact(t: Tables, r: UserRequest, f: Faults)
    requires Inv(t) && !r.Create? && r.username in t.users && !f.read && !f.count && !f.write
    ensures r.Delete? ==> (DeleteUser(t, r, f).1.Conflict? <==> !HasAdmin(t.users - {r.username}))
    ensures r.SetRole? && RoleOf(r.role).Some? ==>
      (UpdateRole(t, r, f).1.Conflict? <==>
        !HasAdmin(t.users[r.username := t.users[r.username].(role := RoleOf(r.role).value)]))
  {
    var u := t.users[r.username];
    if u.role == Admin {
      LastAdmin(t.users, r.username);
      assert u.(role := Analyst) == User(u.hash, Analyst);
      if r.SetRole? && RoleOf(r.role) == Some(Admin) {
        assert t.users[r.username := u.(role := Admin)][r.username].role == Admin;
      }
    } else {
      var a :| a in t.users && t.users[a].role == Admin;
      assert (t.users - {r.username})[a].role == Admin;
      if r.SetRole? && RoleOf(r.role).Some? {
        assert t.users[r.username := u.(role := RoleOf(r.role).value)][a].role == Admin;
      }
    }
  }

  // --- What single requests do, and where sessions come from ---------------------------------

  /** The role that a request names, if any. */
  predicate Names(role: string, r: Role) {
    (role == "admin" && r == Admin) || (role == "analyst" && r == Analyst)
  }

  /** No account but `name` is an admin. */
  ghost predicate OnlyAdmin(users: Users, name: string) {
    forall u :: u in users && users[u].role == Admin ==> u == name
  }

  lemma OnlyAdminIs(users: Users, name: string)
    requires name in users && users[name].role == Admin
    ensures OnlyAdmin(users, name) <==> |Admins(users)| <= 1
  {
    LastAdmin(users, name);
    if u :| u in users && users[u].role == Admin && u != name {
      assert (users - {name})[u].role == Admin;
    }
  }

  /** What a request of an admin does to the accounts, and what it is answered. */
  ghost predicate Managed(users: Users, users': Users, r: UserRequest, f: Faults, reply: Reply) {
    match r
    case Create(name, blank, length, hash, role) =>
      var valid := !blank && role in {"admin", "analyst"} && length >= 12;
      && (reply.BadRequest? <==> !valid)
      && (reply.InternalError? <==> valid && hash.None?)
      && (reply.Conflict? <==> valid && hash.Some? && (name in users || f.write))
      && (reply.NoContent? <==> valid && hash.Some? && name !in users && !f.write)
      && (reply.NoContent? ==> exists granted :: Names(role, granted) && users' == users[name := User(hash.value, granted)])
      && (!reply.NoContent? ==> users' == users)
    case Delete(name) =>
      var found := !f.read && name in users;
      && (reply.NotFound? <==> !found)
      && (reply.Conflict? <==> found && users[name].role == Admin && !f.count && OnlyAdmin(users, name))
      && (reply.NoContent? <==>
            found && !f.write && (users[name].role == Admin ==> !f.count && !OnlyAdmin(users, name)))
      && (reply in {NotFound, Conflict, NoContent, InternalError})
      && users' == if reply.NoContent? then users - {name} else users
    case SetRole(name, role) =>
      var valid, found := role in {"admin", "analyst"}, !f.read && name in users;
      var demotes := found && users[name].role == Admin && role == "analyst";
      && (reply.BadRequest? <==> !valid)
      && (reply.NotFound? <==> valid && !found)
      && (reply.Conflict? <==> demotes && !f.count && OnlyAdmin(users, name))
      && (reply.NoContent? <==> valid && found && !f.write && (demotes ==> !f.count && !OnlyAdmin(users, name)))
      && (reply in {BadRequest, NotFound, Conflict, NoContent, InternalError})
      && (reply.NoContent? ==> exists granted :: Names(role, granted) && users' == users[name := User(users[name].hash, granted)])
      && (!reply.NoContent? ==> users' == users)
  }

  lemma CreateManages(t: Tables, r: UserRequest, f: Faults)
    requires r.Create?
    ensures Managed(t.users, CreateUser(t, r, f).0.users, r, f, CreateUser(t, r, f).1)
  {
    if RoleOf(r.role).Some? {
      assert Names(r.role, RoleOf(r.role).value);
    }
  }

  lemma DeleteManages(t: Tables, r: UserRequest, f: Faults)
    requires r.Delete?
    ensures Managed(t.users, DeleteUser(t, r, f).0.users, r, f, DeleteUser(t, r, f).1)
  {
    if r.username in t.users && t.users[r.username].role == Admin {
      OnlyAdminIs(t.users, r.username);
    }
  }

  lemma UpdateManages(t: Tables, r: UserRequest, f: Faults)
    requires r.SetRole?
    ensures Managed(t.users, UpdateRole(t, r, f).0.users, r, f, UpdateRole(t, r, f).1)
  {
    if r.username in t.users && t.users[r.username].role == Admin {
      OnlyAdminIs(t.users, r.username);
    }
    if RoleOf(r.role).Some? {
      assert Names(r.role, RoleOf(r.role).value);
    }
  }

  /** The session of `token` is found and has not expired. */
  predicate Live(sessions: Sessions, token: string, now: int, f: Faults) {
    !f.session && token in sessions && now <= sessions[token].expiresAt
  }

  /** The user-management route: without a live session 401, without an admin's 403, and nothing
      happens; with one the request is carried out, and its reply is the route's. */
  lemma RouteIsGuarded(t: Tables, token: string, now: int, r: UserRequest, f: Faults)
    ensures var (t', reply) := ManageUsers(t, token, now, r, f); var live := Live(t.sessions, token, now, f);
      && (reply.Unauthorized? <==> !live)
      && (reply.Forbidden? <==> live && t.sessions[token].role == Analyst)
      && (live && t.sessions[token].role == Admin ==> Managed(t.users, t'.users, r, f, reply))
      && (!live || t.sessions[token].role == Analyst ==> t'.users == t.users)
      && (reply.NoContent? && !r.Create? && !f.drop ==> forall k :: k in t'.sessions ==> t'.sessions[k].username != r.username)
  {
    var (t', s) := GetSession(t, token, now, f);
    match r
    case Create(_, _, _, _, _) => CreateManages(t', r, f);
    case Delete(_) => DeleteManages(t', r, f);
    case SetRole(_, _) => UpdateManages(t', r, f);
  }

  /** The entries of the users file: the first of each new name is stored, none replaces an account,
      and seeding fails exactly at an unknown role or the failing insert. */
  lemma {:induction false} FileSeeds(users: Users, entries: seq<Entry>, insertFails: int, name: string)
    ensures var (seeded, ok) := SeedEntries(users, entries, insertFails);
      && (ok <==> (forall i :: 0 <= i < |entries| ==> entries[i].role in {"admin", "analyst"}) && !(0 <= insertFails < |entries|))
      && (name in users ==> name in seeded && seeded[name] == users[name])
      && (name in seeded && name !in users ==> exists i: nat :: IsFirst(entries, i, name, seeded[name]))
      && (ok ==> forall i :: 0 <= i < |entries| ==> entries[i].username in seeded)
    decreases |entries|
  {
    if entries != [] {
      var e, rest := entries[0], entries[1..];
      assert forall i :: 0 < i < |entries| ==> entries[i] == rest[i - 1];
      if RoleOf(e.role).Some? && insertFails != 0 {
        var more := UpsertIfAbsent(users, e.username, e.hash, RoleOf(e.role).value);
        FileSeeds(more, rest, insertFails - 1, name);
        FileSeeds(more, rest, insertFails - 1, e.username);
        var (seeded, ok) := SeedEntries(more, rest, insertFails - 1);
        if name in seeded && name !in users {
          if name == e.username {
            assert IsFirst(entries, 0, name, seeded[name]);
          } else {
            var i: nat :| IsFirst(rest, i, name, seeded[name]);
            FirstLater(entries, i, name, seeded[name]);
          }
        }
      }
    }
  }

  lemma FirstLater(entries: seq<Entry>, i: nat, name: string, u: User)
    requires entries != [] && entries[0].username != name && IsFirst(entries[1..], i, name, u)
    ensures IsFirst(entries, i + 1, name, u)
  {
    var rest := entries[1..];
    assert forall j :: 0 < j < |entries| ==> entries[j] == rest[j - 1];
  }

  /** Entry `i` is the first about `name`, and `u` is what it says. */
  ghost predicate IsFirst(entries: seq<Entry>, i: nat, name: string, u: User) {
    && i < |entries| && entries[i].username == name && (forall j :: 0 <= j < i ==> entries[j].username != name)
    && u.hash == entries[i].hash && Names(entries[i].role, u.role)
  }

  /** A login with the right password that opened the session of `token`. */
  predicate Opens(op: Op, token: string, username: string) {
    op.Login? && op.token == token && op.username == username && op.passwordMatches
  }

  /** `op` set the end of the session of `token`, 8 hours after its own time. */
  predicate Extends(op: Op, token: string, expiresAt: int) {
    ((op.Login? && op.token == token) || (op.Manage? && op.token == token)) && expiresAt == op.now + 28800
  }

  ghost predicate Explained(ops: seq<Op>, token: string, s: Session) {
    exists i, j :: 0 <= i <= j < |ops| && Opens(ops[i], token, s.username) && Extends(ops[j], token, s.expiresAt)
  }

  /** In every run every stored session was opened by a login of its user with the right password,
      and ends 8 hours after that login or the last request made with it. */
  lemma {:induction false} SessionsComeFromLogins(t: Tables, ops: seq<Op>, token: string)
    requires token !in t.sessions && token in Run(t, ops).sessions
    ensures Explained(ops, token, Run(t, ops).sessions[token])
  {
    var last := |ops| - 1;
    var before, op := Run(t, ops[..last]), ops[last];
    var s := Run(t, ops).sessions[token];
    if token in before.sessions {
      SessionsComeFromLogins(t, ops[..last], token);
      SessionStays(before, op, token);
      var was := before.sessions[token];
      var i, j :| 0 <= i <= j < last && Opens(ops[..last][i], token, was.username) && Extends(ops[..last][j], token, was.expiresAt);
      assert Opens(ops[i], token, s.username);
      assert Extends(ops[if s == was then j else last], token, s.expiresAt);
    } else {
      SessionAppears(before, op, token);
      assert Opens(ops[last], token, s.username) && Extends(ops[last], token, s.expiresAt);
    }
  }

  lemma SessionAppears(t: Tables, op: Op, token: string)
    requires token !in t.sessions && token in Step(t, op).sessions
    ensures var s := Step(t, op).sessions[token]; Opens(op, token, s.username) && Extends(op, token, s.expiresAt)
  {
  }

  lemma SessionStays(t: Tables, op: Op, token: string)
    requires token in t.sessions && token in Step(t, op).sessions
    ensures var s, s' := t.sessions[token], Step(t, op).sessions[token];
      s'.username == s.username && s'.role == s.role && (s' == s || Extends(op, token, s'.expiresAt))
  {
  }

  /** The backend process over its database. */
  class Backend {
    var users: Users
    var sessions: Sessions
    ghost var missed: set<string>

    ghost function State(): Tables
      reads this
    {
      Tables(users, sessions, missed)
    }

    ghost predicate Valid()
      reads this
    {
      Inv(State())
    }

    constructor ()
      ensures Valid() && State() == Tables(map[], map[], {})
    {
      users, sessions, missed := map[], map[], {};
    }

    method SeedUsers(env: SeedEnv) returns (ok: bool)
      requires Valid()
      modifies this`users
      ensures Valid()
      ensures State() == Step(old(State()), Restart(env))
      ensures ok == Seed(old(users), env).1
      ensures var usable := env.adminUser != "" && env.passwordLength >= 12 && !env.countFails;
        var first := usable && old(users) == map[] && env.hash.Some? && env.insertFails != 0;
        && (!first ==> users == old(users) && (ok <==> usable && old(users) != map[]))
        && (first ==> env.adminUser in users && users[env.adminUser] == User(env.hash.value, Admin))
        && (first && !env.file.Parsed? ==>
              users == map[env.adminUser := User(env.hash.value, Admin)] && (ok <==> env.file.NoPath? || env.file.Missing?))
        && (first && env.file.Parsed? ==>
              (ok <==> (forall i :: 0 <= i < |env.file.entries| ==> env.file.entries[i].role in {"admin", "analyst"})
                       && !(1 <= env.insertFails <= |env.file.entries|)))
    {
      StepKeepsInv(State(), Restart(env));
      if env.adminUser == "" || env.passwordLength < MIN_PASSWORD || env.countFails {
        return false;
      }
      if |users| > 0 {
        return true;
      }
      if env.hash.None? || env.insertFails == 0 {
        return false;
      }
      users := UpsertIfAbsent(users, env.adminUser, env.hash.value, Admin);
      if env.file.NoPath? || env.file.Missing? {
        return true;
      }
      if !env.file.Parsed? {
        return false;
      }
      ok := SeedFromFile(env.file.entries, env.insertFails - 1);
      FileSeeds(map[env.adminUser := User(env.hash.value, Admin)], env.file.entries, env.insertFails - 1, env.adminUser);
    }

    method SeedFromFile(entries: seq<Entry>, insertFails: int) returns (ok: bool)
      modifies this`users
      ensures (users, ok) == SeedEntries(old(users), entries, insertFails)
    {
      for i := 0 to |entries|
        invariant SeedEntries(old(users), entries, insertFails) == SeedEntries(users, entries[i..], insertFails - i)
      {
        var e := entries[i];
        assert entries[i..][1..] == entries[i + 1..];
        var role := RoleOf(e.role);
        if role.None? || insertFails == i {
          return false;
        }
        users := UpsertIfAbsent(users, e.username, e.hash, role.value);
      }
      return true;
    }

    method Get(token: string, now: int, f: Faults) returns (s: Option<Session>)
      requires Valid()
      modifies this`sessions
      ensures Valid()
      ensures (State(), s) == GetSession(old(State()), token, now, f)
      ensures s.Some? <==> Live(old(sessions), token, now, f)
      ensures s.Some? ==> s.value == old(sessions)[token]
      ensures s.Some? ==>
        sessions == if f.renew then old(sessions) else old(sessions)[token := s.value.(expiresAt := now + 28800)]
      ensures s.None? ==>
        sessions == if f.session || f.renew then old(sessions) else old(sessions) - {token}
    {
      GetKeepsInv(State(), token, now, f);
      if f.session || token !in sessions {
        return None;
      }
      var found := sessions[token];
      if now > found.expiresAt {
        if !f.renew {
          sessions := sessions - {token};
        }
        return None;
      }
      if !f.renew {
        sessions := sessions[token := found.(expiresAt := now + SESSION_TTL)];
      }
      return Some(found);
    }

    method DeleteByUsername(username: string, fails: bool)
      modifies this`sessions, this`missed
      ensures State() == Drop(old(State()), username, fails)
      ensures fails ==> sessions == old(sessions)
      ensures !fails ==> forall k ::
        && (k in sessions <==> k in old(sessions) && old(sessions)[k].username != username)
        && (k in sessions ==> sessions[k] == old(sessions)[k])
    {
      if fails {
        missed := missed + {username};
        return;
      }
      sessions := Without(sessions, username);
      missed := missed - {username};
    }

    method Handle(token: string, now: int, r: UserRequest, f: Faults) returns (reply: Reply)
      requires Valid()
      modifies this
      ensures Valid()
      ensures State() == Step(old(State()), Manage(token, now, r, f))
      ensures reply == ManageUsers(old(State()), token, now, r, f).1
      ensures var live := Live(old(sessions), token, now, f);
        && (reply.Unauthorized? <==> !live) && (reply.Forbidden? <==> live && old(sessions)[token].role == Analyst)
        && (live && old(sessions)[token].role == Admin ==> Managed(old(users), users, r, f, reply))
        && (!live || old(sessions)[token].role == Analyst ==> users == old(users))
      ensures reply.NoContent? && !r.Create? && !f.drop ==> forall k :: k in sessions ==> sessions[k].username != r.username
    {
      RouteIsGuarded(State(), token, now, r, f);
      StepKeepsInv(State(), Manage(token, now, r, f));
      var s := Get(token, now, f);
      if s.None? {
        return Unauthorized;
      }
      if s.value.role != Admin {
        return Forbidden;
      }
      match r {
        case Create(_, _, _, _, _) => reply := HandleCreate(r, f);
        case Delete(_) => reply := HandleDelete(r, f);
        case SetRole(_, _) => reply := HandleUpdateRole(r, f);
      }
    }

    method HandleCreate(r: UserRequest, f: Faults) returns (reply: Reply)
      requires r.Create?
      modifies this`users
      ensures (State(), reply) == CreateUser(old(State()), r, f)
    {
      if r.blank {
        return BadRequest;
      }
      var role := RoleOf(r.role);
      if role.None? || r.passwordLength < MIN_PASSWORD {
        return BadRequest;
      }
      if r.hash.None? {
        return InternalError;
      }
      if r.username in users || f.write {
        return Conflict;
      }
      users := users[r.username := User(r.hash.value, role.value)];
      return NoContent;
    }

    method HandleDelete(r: UserRequest, f: Faults) returns (reply: Reply)
      requires r.Delete?
      modifies this
      ensures (State(), reply) == DeleteUser(old(State()), r, f)
    {
      if f.read || r.username !in users {
        return NotFound;
      }
      if users[r.username].role == Admin {
        if f.count {
          return InternalError;
        }
        if |Admins(users)| <= 1 {
          return Conflict;
        }
      }
      if f.write {
        return InternalError;
      }
      users := users - {r.username};
      DeleteByUsername(r.username, f.drop);
      return NoContent;
    }

    method HandleUpdateRole(r: UserRequest, f: Faults) returns (reply: Reply)
      requires r.SetRole?
      modifies this
      ensures (State(), reply) == UpdateRole(old(State()), r, f)
    {
      var role := RoleOf(r.role);
      if role.None? {
        return BadRequest;
      }
      if f.read || r.username !in users {
        return NotFound;
      }
      var target := users[r.username];
      if target.role == Admin && role.value == Analyst {
        if f.count {
          return InternalError;
        }
        if |Admins(users)| <= 1 {
          return Conflict;
        }
      }
      if f.write {
        return InternalError;
      }
      users := users[r.username := target.(role := role.value)];
      DeleteByUsername(r.username, f.drop);
      return NoContent;
    }

    method HandleLogin(username: string, passwordMatches: bool, token: string, now: int, f: Faults) returns (reply: Reply)
      requires Valid()
      modifies this`sessions
      ensures Valid()
      ensures State() == Step(old(State()), Login(username, passwordMatches, token, now, f))
      ensures reply.Unauthorized? <==> !passwordMatches || f.read || username !in old(users)
      ensures reply.LoggedIn? <==>
        passwordMatches && username in old(users) && !f.read && !f.write && token !in old(sessions)
      ensures reply in {Unauthorized, InternalError, LoggedIn(token)}
      ensures reply.LoggedIn? ==>
        sessions == old(sessions)[token := Session(username, old(users)[username].role, now + 28800)]
      ensures !reply.LoggedIn? ==> sessions == old(sessions)
    {
      StepKeepsInv(State(), Login(username, passwordMatches, token, now, f));
      if f.read || username !in users || !passwordMatches {
        return Unauthorized;
      }
      var user := users[username];
      if f.write || token in sessions {
        return InternalError;
      }
      sessions := sessions[token := Session(username, user.role, now + SESSION_TTL)];
      return LoggedIn(token);
    }

    method HandleLogout(token: string, f: Faults)
      requires Valid()
      modifies this`sessions
      ensures Valid()
      ensures State() == Step(old(State()), Logout(token, f))
      ensures sessions == if f.session then old(sessions) else old(sessions) - {token}
    {
      StepKeepsInv(State(), Logout(token, f));
      if !f.session {
        sessions := sessions - {token};
      }
    }

    method CleanupExpired(now: int, f: Faults)
      requires Valid()
      modifies this`sessions
      ensures Valid()
      ensures State() == Step(old(State()), CleanUp(now, f))
      ensures f.session ==> sessions == old(sessions)
      ensures !f.session ==> forall k ::
        && (k in sessions <==> k in old(sessions) && now <= old(sessions)[k].expiresAt)
        && (k in sessions ==> sessions[k] == old(sessions)[k])
    {
      StepKeepsInv(State(), CleanUp(now, f));
      if !f.session {
        sessions := Expire(sessions, now);
      }
    }
  }
}
