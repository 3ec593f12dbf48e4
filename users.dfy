/** The user service: registration (`createUser`), the guarded profile update
    (`updateUser`) and the listing (`getAllUsers`), over a store of user documents
    keyed by id. Password hashing is a function the service is configured with. */
module Users {
  import opened Common

  type UserId = nat

  /** `UserRole`. `Other(name)` stands for any role string that is none of the three
      enum values: the actor's role is typed `string`, and the update body is not
      schema-checked before it reaches the service. `name` is assumed to differ from
      the enum strings, which are not part of this model, so `Other("ADMIN")` is not
      the admin role here. */
  datatype Role = Admin | Sender | Receiver | Other(name: string)

  /** A user document, and equally a partial one (`Partial<IUser>`) sent as a payload:
      every field may be absent. `profile` holds the remaining fields (name, phone,
      address, ...), which the service never inspects. */
  datatype UserDoc = UserDoc(
    email: Option<string>,
    password: Option<string>,
    role: Option<Role>,
    status: Option<string>,
    isDeleted: Option<bool>,
    isVerified: Option<bool>,
    profile: map<string, string>)

  /** The authenticated user on whose behalf an update is made. */
  datatype Actor = Actor(id: string, role: Role, status: string)

  /** A one-way password hash taking the password and the cost factor (bcrypt). */
  type Hasher = (string, nat) -> string

  /** The cost factor that registration passes to the hash. */
  const REGISTER_SALT_ROUNDS: nat := 10

  const REQUIRED_FIELDS := AppError("Email and password are required", BAD_REQUEST)
  const USER_EXISTS := AppError("User already exists", BAD_REQUEST)
  const USER_NOT_FOUND := AppError("User not found", NOT_FOUND)
  const EMAIL_IMMUTABLE := AppError("Email cannot be updated", BAD_REQUEST)
  const ROLE_CHANGE_FORBIDDEN := AppError("You are not authorized to change roles", FORBIDDEN)
  const PROMOTE_FORBIDDEN := AppError("You are not authorized to promote to admin", FORBIDDEN)
  const STATUS_CHANGE_FORBIDDEN := AppError("You are not authorized to change user status", FORBIDDEN)

  /** What a successful call returns: the document's id and the document as stored. */
  datatype Reply = Reply(id: UserId, user: UserDoc)

  /** JavaScript truthiness of `payload.role`: the empty role string is falsy. */
  predicate RoleSet(r: Option<Role>)
  {
    r.Some? && r.value != Other("")
  }

  /** The payload asks to change status, deletion or verification (`payload.status ||
      payload.isDeleted || payload.isVerified`): falsy values do not count. */
  predicate TouchesStatus(p: UserDoc)
  {
    Present(p.status) || IsTrue(p.isDeleted) || IsTrue(p.isVerified)
  }

  /** Some stored user has exactly this email (`User.findOne({ email })` finds one). */
  predicate EmailTaken(users: map<UserId, UserDoc>, email: string)
  {
    exists id :: id in users && users[id].email == Some(email)
  }

  /** No two users share an email that is set. */
  ghost predicate UniqueEmails(users: map<UserId, UserDoc>)
  {
    forall i, j :: i in users && j in users && i != j && Present(users[i].email) ==>
      users[i].email != users[j].email
  }

  /** The rule a role change obeys, stated by who may do what: an admin may set any
      role; an actor whose role is none of the three enum values may set any role but
      admin; senders and receivers may set none. */
  predicate RoleChangePermitted(newRole: Role, actor: Role)
  {
    actor == Admin || (actor.Other? && newRole != Admin)
  }

  /** The store: the user documents and the id the next registration receives. */
  datatype Store = Store(users: map<UserId, UserDoc>, nextId: nat)
  {
    /** Every stored id was handed out before `nextId`. */
    ghost predicate Valid()
    {
      forall id :: id in users ==> id < nextId
    }
  }

  /** What a service call returns, together with the store it leaves behind. */
  datatype Outcome = Outcome(result: Result<Reply, AppError>, store: Store)

  /** `updated` is the field after a write of `patch` over `current`: the patch's
      value when it carries one, the current value otherwise. */
  predicate Overrides<T(==)>(updated: Option<T>, current: Option<T>, patch: Option<T>)
  {
    (patch.Some? ==> updated == patch) && (patch.None? ==> updated == current)
  }

  /** One field after a write of `patch` over `current`. */
  function Overwrite<T(==)>(current: Option<T>, patch: Option<T>): (r: Option<T>)
    ensures Overrides(r, current, patch)
  {
    if patch.Some? then patch else current
  }

  /** The profile fields after a write: each key of the patch takes the patch's value,
      every other key keeps its own. */
  function MergeProfile(current: map<string, string>, patch: map<string, string>): (r: map<string, string>)
    ensures forall k :: k in r <==> k in current || k in patch
    ensures forall k :: k in patch ==> r[k] == patch[k]
    ensures forall k :: k in current && k !in patch ==> r[k] == current[k]
  {
    current + patch
  }

  /** `findByIdAndUpdate(id, patch)`: every field the patch carries replaces the
      document's; the others stay. */
  function Merge(doc: UserDoc, patch: UserDoc): (r: UserDoc)
    ensures Overrides(r.email, doc.email, patch.email)
    ensures Overrides(r.password, doc.password, patch.password)
    ensures Overrides(r.role, doc.role, patch.role)
    ensures Overrides(r.status, doc.status, patch.status)
    ensures Overrides(r.isDeleted, doc.isDeleted, patch.isDeleted)
    ensures Overrides(r.isVerified, doc.isVerified, patch.isVerified)
    ensures forall k :: k in r.profile <==> k in doc.profile || k in patch.profile
    ensures forall k :: k in patch.profile ==> r.profile[k] == patch.profile[k]
    ensures forall k :: k in doc.profile && k !in patch.profile ==> r.profile[k] == doc.profile[k]
  {
    UserDoc(
      Overwrite(doc.email, patch.email),
      Overwrite(doc.password, patch.password),
      Overwrite(doc.role, patch.role),
      Overwrite(doc.status, patch.status),
      Overwrite(doc.isDeleted, patch.isDeleted),
      Overwrite(doc.isVerified, patch.isVerified),
      MergeProfile(doc.profile, patch.profile))
  }

  /** The payload with a truthy password replaced by its hash, as `updateUser` does
      before writing; an absent or empty password is left as it is. */
  function HashPassword(payload: UserDoc, hash: Hasher, cost: nat): UserDoc
  {
    if Present(payload.password) then
      payload.(password := Some(hash(payload.password.value, cost)))
    else
      payload
  }

  /** `createUser` on store `s`: required fields first, then the duplicate check, then
      the insert of the payload with its password replaced by the hash. */
  function CreateUserOutcome(s: Store, payload: UserDoc, hash: Hasher): (o: Outcome)
    requires s.Valid()
    ensures o.store.Valid()
    ensures o.result.Failure? ==> o.store == s
    ensures !Present(payload.email) || !Present(payload.password) ==>
      o.result == Failure(REQUIRED_FIELDS)
    ensures Present(payload.email) && Present(payload.password) && EmailTaken(s.users, payload.email.value) ==>
      o.result == Failure(USER_EXISTS)
    ensures o.result.Success? <==>
      Present(payload.email) && Present(payload.password) && !EmailTaken(s.users, payload.email.value)
    ensures o.result.Success? ==>
      var Reply(id, user) := o.result.value;
      && id !in s.users
      && o.store.users == s.users[id := user]
      && |o.store.users| == |s.users| + 1
      && user.email == payload.email
      && user.password == Some(hash(payload.password.value, REGISTER_SALT_ROUNDS))
      && user == payload.(password := user.password)
  {
    if !Present(payload.email) || !Present(payload.password) then
      Outcome(Failure(REQUIRED_FIELDS), s)
    else if EmailTaken(s.users, payload.email.value) then
      Outcome(Failure(USER_EXISTS), s)
    else
      var user := payload.(password := Some(hash(payload.password.value, REGISTER_SALT_ROUNDS)));
      Outcome(Success(Reply(s.nextId, user)), Store(s.users[s.nextId := user], s.nextId + 1))
  }

  /** The guard chain of `updateUser`, in its order: missing user, then email, then
      role, then status; `None` lets the update through. */
  function UpdateCheck(found: bool, payload: UserDoc, actor: Role): (r: Option<AppError>)
    ensures !found ==> r == Some(USER_NOT_FOUND)
    ensures found && Present(payload.email) ==> r == Some(EMAIL_IMMUTABLE)
    ensures found && !Present(payload.email) && RoleSet(payload.role) && (actor == Sender || actor == Receiver) ==>
      r == Some(ROLE_CHANGE_FORBIDDEN)
    ensures found && !Present(payload.email) && payload.role == Some(Admin) && actor.Other? ==>
      r == Some(PROMOTE_FORBIDDEN)
    ensures
      (&& found
       && !Present(payload.email)
       && (RoleSet(payload.role) ==> RoleChangePermitted(payload.role.value, actor))
       && TouchesStatus(payload)
       && actor != Admin)
      ==> r == Some(STATUS_CHANGE_FORBIDDEN)
    ensures r.None? <==>
      && found
      && !Present(payload.email)
      && (RoleSet(payload.role) ==> RoleChangePermitted(payload.role.value, actor))
      && (TouchesStatus(payload) ==> actor == Admin)
  {
    if !found then Some(USER_NOT_FOUND)
    else if Present(payload.email) then Some(EMAIL_IMMUTABLE)
    else if RoleSet(payload.role) && (actor == Sender || actor == Receiver) then Some(ROLE_CHANGE_FORBIDDEN)
    else if RoleSet(payload.role) && payload.role.value == Admin && actor != Admin then Some(PROMOTE_FORBIDDEN)
    else if TouchesStatus(payload) && actor != Admin then Some(STATUS_CHANGE_FORBIDDEN)
    else None
  }

  /** `updateUser(userId, payload, actor)` on store `s`, hashing a new password with
      cost `cost`. */
  function UpdateUserOutcome(s: Store, userId: UserId, payload: UserDoc, actor: Actor, hash: Hasher, cost: nat): (o: Outcome)
    ensures o.result.Failure? ==>
      o.store == s && UpdateCheck(userId in s.users, payload, actor.role) == Some(o.result.error)
    ensures o.result.Success? <==> UpdateCheck(userId in s.users, payload, actor.role).None?
    ensures o.result.Success? ==>
      var Reply(id, user) := o.result.value;
      var before := s.users[userId];
      && id == userId
      && o.store == Store(s.users[userId := user], s.nextId)
      // the stored document is the payload, password hashed, written over the old one
      && user == Merge(before, HashPassword(payload, hash, cost))
      && Overrides(user.email, before.email, payload.email)
      && Overrides(user.role, before.role, payload.role)
      && Overrides(user.status, before.status, payload.status)
      && Overrides(user.isDeleted, before.isDeleted, payload.isDeleted)
      && Overrides(user.isVerified, before.isVerified, payload.isVerified)
      && (forall k :: k in user.profile <==> k in before.profile || k in payload.profile)
      && (forall k :: k in payload.profile ==> user.profile[k] == payload.profile[k])
      && (forall k :: k in before.profile && k !in payload.profile ==> user.profile[k] == before.profile[k])
      // a falsy password is written as given, an absent one leaves the old
      && (payload.password.Some? && !Present(payload.password) ==> user.password == payload.password)
      && (payload.password.None? ==> user.password == before.password)
      // the email is never changed to another non-empty address
      && (Present(user.email) ==> user.email == before.email)
      // a new password is stored as its hash
      && (Present(payload.password) ==> user.password == Some(hash(payload.password.value, cost)))
      // only an admin can make someone an admin or set status, deletion or verification
      && (actor.role != Admin ==>
            && (user.role == Some(Admin) ==> before.role == Some(Admin))
            && (Present(user.status) ==> user.status == before.status)
            && (IsTrue(user.isDeleted) ==> IsTrue(before.isDeleted))
            && (IsTrue(user.isVerified) ==> IsTrue(before.isVerified)))
  {
    match UpdateCheck(userId in s.users, payload, actor.role)
    case Some(e) => Outcome(Failure(e), s)
    case None =>
      var user := Merge(s.users[userId], HashPassword(payload, hash, cost));
      Outcome(Success(Reply(userId, user)), Store(s.users[userId := user], s.nextId))
  }

  /** The user service over its store. The hash and the update cost factor
      (`BCRYPT_SALT_ROUND` from the environment) are fixed at construction. */
  class UserService {
    var users: map<UserId, UserDoc>
    var nextId: nat
    const hash: Hasher
    const saltRounds: nat

    ghost predicate Valid()
      reads this
    {
      State().Valid()
    }

    function State(): Store
      reads this
    {
      Store(users, nextId)
    }

    constructor (hash: Hasher, saltRounds: nat)
      ensures Valid() && users == map[]
      ensures this.hash == hash && this.saltRounds == saltRounds
    {
      this.users := map[];
      this.nextId := 0;
      this.hash := hash;
      this.saltRounds := saltRounds;
    }

    /** `User.findOne({ email })`: some user with this email, if there is one. */
    method FindOneByEmail(email: string) returns (found: Option<UserId>)
      ensures found.Some? ==> found.value in users && users[found.value].email == Some(email)
      ensures found.None? <==> !EmailTaken(users, email)
    {
      if EmailTaken(users, email) {
        var id :| id in users && users[id].email == Some(email);
        found := Some(id);
      } else {
        found := None;
      }
    }

    /** `User.findById(userId)`. */
    method FindById(userId: UserId) returns (found: Option<UserDoc>)
      ensures found.Some? <==> userId in users
      ensures found.Some? ==> found.value == users[userId]
    {
      found := if userId in users then Some(users[userId]) else None;
    }

    /** `createUser(payload)`. */
    method CreateUser(payload: UserDoc) returns (r: Result<Reply, AppError>)
      requires Valid()
      modifies this
      ensures Valid()
      ensures Outcome(r, State()) == CreateUserOutcome(old(State()), payload, hash)
    {
      if !Present(payload.email) || !Present(payload.password) {
        return Failure(REQUIRED_FIELDS);
      }
      var email := payload.email.value;
      var existing := FindOneByEmail(email);
      if existing.Some? {
        return Failure(USER_EXISTS);
      }
      var hashedPassword := hash(payload.password.value, REGISTER_SALT_ROUNDS);
      var newUser := payload.(password := Some(hashedPassword));
      var id := nextId;
      users := users[id := newUser];
      nextId := nextId + 1;
      r := Success(Reply(id, newUser));
    }

    /** `updateUser(userId, payload, authUser)`. */
    method UpdateUser(userId: UserId, payload: UserDoc, authUser: Actor) returns (r: Result<Reply, AppError>)
      requires Valid()
      modifies this
      ensures Valid()
      ensures Outcome(r, State()) == UpdateUserOutcome(old(State()), userId, payload, authUser, hash, saltRounds)
    {
      var existingUser := FindById(userId);
      if existingUser.None? {
        return Failure(USER_NOT_FOUND);
      }
      if Present(payload.email) {
        return Failure(EMAIL_IMMUTABLE);
      }
      if RoleSet(payload.role) {
        if authUser.role == Sender || authUser.role == Receiver {
          return Failure(ROLE_CHANGE_FORBIDDEN);
        }
        if payload.role.value == Admin && authUser.role != Admin {
          return Failure(PROMOTE_FORBIDDEN);
        }
      }
      if TouchesStatus(payload) {
        if authUser.role != Admin {
          return Failure(STATUS_CHANGE_FORBIDDEN);
        }
      }
      var patch := payload;
      if Present(patch.password) {
        patch := patch.(password := Some(hash(patch.password.value, saltRounds)));
      }
      var updatedUser := Merge(existingUser.value, patch);
      users := users[userId := updatedUser];
      r := Success(Reply(userId, updatedUser));
    }

    /** `getAllUsers()`: every stored user, and their number as `meta.total`. */
    method GetAllUsers() returns (data: map<UserId, UserDoc>, total: nat)
      ensures data == users
      ensures total == |data|
    {
      data := users;
      total := |users|;
    }
  }

  /** A request reaching the user service. */
  datatype Request = Register(payload: UserDoc) | Patch(userId: UserId, payload: UserDoc, actor: Actor)

  /** The store after serving the requests in order, whatever each one returns. */
  ghost function Replay(s: Store, reqs: seq<Request>, hash: Hasher, cost: nat): (r: Store)
    requires s.Valid()
    ensures r.Valid()
    ensures s.users.Keys <= r.users.Keys
    decreases |reqs|
  {
    if reqs == [] then s
    else
      var next := match reqs[0]
        case Register(p) => CreateUserOutcome(s, p, hash).store
        case Patch(id, p, a) => UpdateUserOutcome(s, id, p, a, hash, cost).store;
      Replay(next, reqs[1..], hash, cost)
  }

  /** Registration keeps set emails unique: it refuses an email some user already has. */
  lemma CreateKeepsEmailsUnique(s: Store, payload: UserDoc, hash: Hasher)
    requires s.Valid() && UniqueEmails(s.users)
    ensures UniqueEmails(CreateUserOutcome(s, payload, hash).store.users)
  {
  }

  /** An update never gives a user a set email, so set emails stay unique. */
  lemma UpdateKeepsEmailsUnique(s: Store, userId: UserId, payload: UserDoc, actor: Actor, hash: Hasher, cost: nat)
    requires UniqueEmails(s.users)
    ensures UniqueEmails(UpdateUserOutcome(s, userId, payload, actor, hash, cost).store.users)
  {
  }

  /** However the register and update requests are interleaved, no two users end up
      with the same set email. */
  lemma {:induction false} ReplayKeepsEmailsUnique(s: Store, reqs: seq<Request>, hash: Hasher, cost: nat)
    requires s.Valid() && UniqueEmails(s.users)
    ensures UniqueEmails(Replay(s, reqs, hash, cost).users)
    decreases |reqs|
  {
    if reqs != [] {
      match reqs[0]
      case Register(p) =>
        CreateKeepsEmailsUnique(s, p, hash);
        ReplayKeepsEmailsUnique(CreateUserOutcome(s, p, hash).store, reqs[1..], hash, cost);
      case Patch(id, p, a) =>
        UpdateKeepsEmailsUnique(s, id, p, a, hash, cost);
        ReplayKeepsEmailsUnique(UpdateUserOutcome(s, id, p, a, hash, cost).store, reqs[1..], hash, cost);
    }
  }

  /** The user ids holding the admin role. */
  ghost function Admins(users: map<UserId, UserDoc>): set<UserId>
  {
    set id | id in users && users[id].role == Some(Admin)
  }

  /** Without an admin actor and without a registration that asks for the admin role,
      no new admin appears: the only new admins are those admitted by registration. */
  lemma {:induction false} ReplayWithoutAdminsCreatesNoAdmin(s: Store, reqs: seq<Request>, hash: Hasher, cost: nat)
    requires s.Valid()
    requires forall k :: 0 <= k < |reqs| && reqs[k].Patch? ==> reqs[k].actor.role != Admin
    requires forall k :: 0 <= k < |reqs| && reqs[k].Register? ==> reqs[k].payload.role != Some(Admin)
    ensures Admins(Replay(s, reqs, hash, cost).users) <= Admins(s.users)
    decreases |reqs|
  {
    if reqs != [] {
      var next := match reqs[0]
        case Register(p) => CreateUserOutcome(s, p, hash).store
        case Patch(id, p, a) => UpdateUserOutcome(s, id, p, a, hash, cost).store;
      assert Admins(next.users) <= Admins(s.users);
      ReplayWithoutAdminsCreatesNoAdmin(next, reqs[1..], hash, cost);
    }
  }

  /** An update whose password is the empty string is falsy, so it is written without
      hashing: the stored password becomes the empty string. */
  lemma UpdateStoresEmptyPasswordVerbatim(s: Store, userId: UserId, payload: UserDoc, actor: Actor, hash: Hasher, cost: nat)
    requires payload.password == Some("")
    requires UpdateCheck(userId in s.users, payload, actor.role).None?
    ensures UpdateUserOutcome(s, userId, payload, actor, hash, cost).result.value.user.password == Some("")
  {
  }

  /** An update whose email is the empty string is falsy, so it passes the email guard
      and clears the stored email. */
  lemma UpdateClearsEmailWithEmptyString(s: Store, userId: UserId, payload: UserDoc, actor: Actor, hash: Hasher, cost: nat)
    requires payload.email == Some("")
    requires UpdateCheck(userId in s.users, payload, actor.role).None?
    ensures UpdateUserOutcome(s, userId, payload, actor, hash, cost).result.value.user.email == Some("")
  {
  }

  /** Registration keeps every payload field but the password, so a registration that
      asks for the admin role creates an admin. */
  lemma RegisterKeepsRequestedRole(s: Store, payload: UserDoc, hash: Hasher)
    requires s.Valid()
    requires CreateUserOutcome(s, payload, hash).result.Success?
    ensures CreateUserOutcome(s, payload, hash).result.value.user.role == payload.role
  {
  }

  /** An admin's update of an existing user, with no email in it, is written: the
      role, status and flags it carries are stored. */
  lemma AdminUpdateIsStored(s: Store, userId: UserId, payload: UserDoc, actor: Actor, hash: Hasher, cost: nat)
    requires userId in s.users && actor.role == Admin && !Present(payload.email)
    ensures
      var o := UpdateUserOutcome(s, userId, payload, actor, hash, cost);
      && o.result.Success?
      && o.store.users[userId] == o.result.value.user
      && (payload.role.Some? ==> o.result.value.user.role == payload.role)
      && (payload.status.Some? ==> o.result.value.user.status == payload.status)
      && (payload.isDeleted.Some? ==> o.result.value.user.isDeleted == payload.isDeleted)
      && (payload.isVerified.Some? ==> o.result.value.user.isVerified == payload.isVerified)
  {
    AdminPassesRoleAndStatusGuards(payload);
  }

  /** The actors admitted by the route (admins) never meet the role guard. */
  lemma AdminPassesRoleAndStatusGuards(payload: UserDoc)
    requires !Present(payload.email)
    ensures UpdateCheck(true, payload, Admin).None?
  {
  }
}
