/**
 * The user handlers: list, create, update and delete accounts over a store
 * that holds the users collection, the notes collection and the
 * "ticketNums" counter. Each handler checks its guards in the order the
 * controller does and answers with a status and a body.
 */
module UsersController {
  import opened Wrappers
  import opened ObjectIds
  import opened NoteModel

  /** The cost factor handed to bcrypt with every hash. */
  const SaltRounds: nat := 10

  /** The random salt bcrypt draws for one hash. */
  type Salt = nat

  /** A stored password hash. It is a type of its own, so no plaintext can be stored as one. */
  datatype Digest = Digest(encoded: string)

  /** A user document. */
  datatype User = User(username: string, password: Digest, roles: seq<string>, active: bool)

  /** A user as listed to callers: the same document with the password left out. */
  datatype UserView = UserView(id: ObjectId, username: string, roles: seq<string>, active: bool)

  /** The `-password` projection: the document under its id, every field but the password kept. */
  function View(id: ObjectId, u: User): (v: UserView)
    ensures v.id == id && v.username == u.username && v.roles == u.roles && v.active == u.active
  {
    UserView(id, u.username, u.roles, u.active)
  }

  /** The response classes the handlers use. */
  datatype Status = OK | Created | BadRequest | Conflict

  /** The HTTP status each class is sent with. */
  function StatusCode(s: Status): (code: nat)
    ensures code == 200 <==> s == OK
    ensures code == 201 <==> s == Created
    ensures code == 400 <==> s == BadRequest
    ensures code == 409 <==> s == Conflict
    ensures 200 <= code < 300 <==> s == OK || s == Created
  {
    match s
    case OK => 200
    case Created => 201
    case BadRequest => 400
    case Conflict => 409
  }

  /** A JSON body: an object with a `message`, a bare string, or a list of users. */
  datatype Body = Message(message: string) | Text(text: string) | Users(list: seq<UserView>)

  datatype Reply = Reply(status: Status, body: Body)

  const NoUsersFound := "No users found"
  const AllFieldsRequired := "All fields are required"
  const DuplicateUsername := "Duplicate username"
  const UserNotFound := "User not found"
  const UserIdRequired := "User ID Required"
  const HasAssignedNotes := "User has assigned notes"

  /** The creation message names the new user between a fixed prefix and suffix. */
  function CreatedMessage(username: string): (m: string)
    ensures |m| == |username| + 17
    ensures m[..9] == "New user " && m[9..9 + |username|] == username && m[9 + |username|..] == " created"
  {
    "New user " + username + " created"
  }

  /** The update message starts with the username as saved. */
  function UpdatedMessage(username: string): (m: string)
    ensures |m| == |username| + 8
    ensures m[..|username|] == username && m[|username|..] == " updated"
  {
    username + " updated"
  }

  /** The deletion reply names the removed user and then its id. */
  function DeletedMessage(username: string, id: ObjectId): (m: string)
    ensures |m| == |username| + |ToString(id)| + 26
    ensures m[..9] == "Username " && m[9..9 + |username|] == username
    ensures m[9 + |username|..18 + |username|] == " with ID "
    ensures m[18 + |username|..18 + |username| + |ToString(id)|] == ToString(id)
    ensures m[18 + |username| + |ToString(id)|..] == " deleted"
  {
    "Username " + username + " with ID " + ToString(id) + " deleted"
  }

  // ---------------------------------------------------------------------
  // Properties of the users collection

  ghost predicate IdsBelow(users: map<ObjectId, User>, bound: nat)
  {
    forall id :: id in users ==> id < bound
  }

  ghost predicate UniqueUsernames(users: map<ObjectId, User>)
  {
    forall a, b :: a in users && b in users && a != b ==> users[a].username != users[b].username
  }

  /** What the create and update guards let through: a username and at least one role. */
  ghost predicate WellFormed(users: map<ObjectId, User>)
  {
    forall id :: id in users ==> users[id].username != "" && users[id].roles != []
  }

  ghost predicate UsernameTaken(users: map<ObjectId, User>, name: string)
  {
    exists id :: id in users && users[id].username == name
  }

  /** Some user other than `self` already has `name`. */
  ghost predicate TakenByOther(users: map<ObjectId, User>, name: string, self: ObjectId)
  {
    exists other :: other in users && other != self && users[other].username == name
  }

  ghost predicate OwnsNotes(notes: seq<Note>, id: ObjectId)
  {
    exists i :: 0 <= i < |notes| && notes[i].user == id
  }

  // ---------------------------------------------------------------------
  // Queries

  /**
   * `User.findOne({ username })` over the ids `from` up to `bound`: the first
   * user, in id order, whose username is exactly `name`.
   */
  function FindByUsername(users: map<ObjectId, User>, name: string, from: nat, bound: nat): (r: Option<ObjectId>)
    decreases bound - from
    ensures r.Some? ==> r.value in users && users[r.value].username == name && from <= r.value < bound
    ensures r.None? ==> forall id :: id in users && from <= id < bound ==> users[id].username != name
  {
    if from >= bound then None
    else if from in users && users[from].username == name then Some(from)
    else FindByUsername(users, name, from + 1, bound)
  }

  /** `Note.findOne({ user: id })`: the first note that references `id`. */
  function FindNoteOf(notes: seq<Note>, id: ObjectId): (r: Option<nat>)
    ensures r.Some? ==> r.value < |notes| && notes[r.value].user == id
    ensures r.None? ==> forall i :: 0 <= i < |notes| ==> notes[i].user != id
  {
    if notes == [] then None
    else if notes[0].user == id then Some(0)
    else
      match FindNoteOf(notes[1..], id)
      case None => None
      case Some(k) => Some(k + 1)
  }

  ghost predicate Listed(list: seq<UserView>, id: ObjectId)
  {
    exists k :: 0 <= k < |list| && list[k].id == id
  }

  /**
   * `User.find().select("-password")` over the ids `from` up to `bound`: every
   * such user once, in id order, without its password.
   */
  function ListFrom(users: map<ObjectId, User>, from: nat, bound: nat): (r: seq<UserView>)
    decreases bound - from
    ensures forall k :: 0 <= k < |r| ==> r[k].id in users && from <= r[k].id < bound
    ensures forall k :: 0 <= k < |r| ==> r[k] == View(r[k].id, users[r[k].id])
    ensures forall i, j :: 0 <= i < j < |r| ==> r[i].id < r[j].id
  {
    if from >= bound then []
    else if from in users then [View(from, users[from])] + ListFrom(users, from + 1, bound)
    else ListFrom(users, from + 1, bound)
  }

  /** Every user in the range appears in the listing. */
  lemma {:induction false} ListFromComplete(users: map<ObjectId, User>, from: nat, bound: nat, id: ObjectId)
    decreases bound - from
    requires id in users && from <= id < bound
    ensures Listed(ListFrom(users, from, bound), id)
  {
    var r := ListFrom(users, from, bound);
    if id == from {
      assert r[0].id == id;
    } else {
      ListFromComplete(users, from + 1, bound, id);
      var rest := ListFrom(users, from + 1, bound);
      var k :| 0 <= k < |rest| && rest[k].id == id;
      if from in users {
        assert r[k + 1] == rest[k];
      } else {
        assert r == rest;
      }
    }
  }

  ghost function InRange(users: map<ObjectId, User>, from: nat, bound: nat): set<ObjectId>
  {
    set id | id in users && from <= id < bound
  }

  /** The listing has exactly one entry per user in the range. */
  lemma {:induction false} ListFromLength(users: map<ObjectId, User>, from: nat, bound: nat)
    decreases bound - from
    ensures |ListFrom(users, from, bound)| == |InRange(users, from, bound)|
  {
    if from >= bound {
      assert InRange(users, from, bound) == {};
    } else {
      ListFromLength(users, from + 1, bound);
      if from in users {
        assert InRange(users, from, bound) == {from} + InRange(users, from + 1, bound);
      } else {
        assert InRange(users, from, bound) == InRange(users, from + 1, bound);
      }
    }
  }

  /** With every id below `bound`, the listing from 0 has one entry per user. */
  lemma ListAllLength(users: map<ObjectId, User>, bound: nat)
    requires IdsBelow(users, bound)
    ensures |ListFrom(users, 0, bound)| == |users|
  {
    ListFromLength(users, 0, bound);
    assert InRange(users, 0, bound) == users.Keys;
  }

  /** Under unique usernames, a user's own name is never "taken by another". */
  lemma OwnNameIsFree(users: map<ObjectId, User>, id: ObjectId)
    requires UniqueUsernames(users) && id in users
    ensures !TakenByOther(users, users[id].username, id)
  {
  }

  /**
   * The duplicate lookup of the update handler: the user `findOne` returns,
   * if its id differs from `self`, is exactly "taken by another".
   */
  lemma DuplicateLookupIsTakenByOther(users: map<ObjectId, User>, name: string, self: ObjectId, bound: nat)
    requires IdsBelow(users, bound) && UniqueUsernames(users)
    ensures (var dup := FindByUsername(users, name, 0, bound); dup.Some? && dup.value != self)
            <==> TakenByOther(users, name, self)
  {
  }

  // ---------------------------------------------------------------------
  // The store

  class Store {
    /** The users collection, keyed by `_id`. */
    var users: map<ObjectId, User>
    /** The notes collection, in insertion order. */
    var notes: seq<Note>
    /** The `_id` the next created user receives. */
    var nextId: ObjectId
    /** The "ticketNums" counter: the ticket the next saved note receives. */
    var nextTicket: nat
    /** `bcrypt.hash(password, rounds, salt)`. */
    const hash: (string, nat, Salt) -> Digest
    /** The User schema's default for `active`, applied when a user is created. */
    const activeDefault: bool

    ghost predicate Valid()
      reads this
    {
      && IdsBelow(users, nextId)
      && UniqueUsernames(users)
      && WellFormed(users)
      && TicketStart <= nextTicket
      && TicketsIncreasing(notes)
      && TicketsIssued(notes, nextTicket)
    }

    /** An empty database whose ticket sequence has not been used yet. */
    constructor (hash: (string, nat, Salt) -> Digest, activeDefault: bool)
      ensures Valid()
      ensures users == map[] && notes == [] && nextId == 0 && nextTicket == TicketStart
      ensures this.hash == hash && this.activeDefault == activeDefault
    {
      this.hash := hash;
      this.activeDefault := activeDefault;
      users := map[];
      notes := [];
      nextId := 0;
      nextTicket := TicketStart;
    }

    /**
     * GET /users: every user without its password, in creation order;
     * an empty collection is answered with 400 "No users found".
     */
    function GetAllUsers(): (r: Reply)
      reads this
      requires Valid()
      ensures r.status == BadRequest <==> users == map[]
      ensures r.status == BadRequest ==> r.body == Message(NoUsersFound)
      ensures r.status != BadRequest ==> r.status == OK && r.body.Users?
      ensures r.body.Users? ==>
        && |r.body.list| == |users|
        && (forall id :: id in users ==> Listed(r.body.list, id))
        && (forall k :: 0 <= k < |r.body.list| ==>
              r.body.list[k].id in users && r.body.list[k] == View(r.body.list[k].id, users[r.body.list[k].id]))
        && (forall i, j :: 0 <= i < j < |r.body.list| ==> r.body.list[i].id < r.body.list[j].id)
    {
      var list := ListFrom(users, 0, nextId);
      ListAllLength(users, nextId);
      assert forall id :: id in users ==> Listed(list, id) by {
        forall id | id in users ensures Listed(list, id) { ListFromComplete(users, 0, nextId, id); }
      }
      if |list| == 0 then Reply(BadRequest, Message(NoUsersFound))
      else Reply(OK, Users(list))
    }

    /**
     * POST /users: a username, a password and a non-empty roles array are
     * required; a taken username is a conflict; otherwise the user is stored
     * with the hash of its password.
     */
    method CreateNewUser(username: string, password: string, roles: Option<seq<string>>, salt: Salt)
      returns (reply: Reply)
      requires Valid()
      modifies this
      ensures Valid()
      ensures notes == old(notes) && nextTicket == old(nextTicket)
      ensures (username == "" || password == "" || roles.None? || roles.value == []) ==>
        reply == Reply(BadRequest, Message(AllFieldsRequired))
        && users == old(users) && nextId == old(nextId)
      ensures username != "" && password != "" && roles.Some? && roles.value != [] ==>
        if UsernameTaken(old(users), username) then
          reply == Reply(Conflict, Message(DuplicateUsername))
          && users == old(users) && nextId == old(nextId)
        else
          reply == Reply(Created, Message(CreatedMessage(username)))
          && old(nextId) !in old(users)
          && users == old(users)[old(nextId) := User(username, hash(password, SaltRounds, salt), roles.value, activeDefault)]
          && nextId == old(nextId) + 1
    {
      if username == "" || password == "" || roles.None? || roles.value == [] {
        return Reply(BadRequest, Message(AllFieldsRequired));
      }
      var duplicate := FindByUsername(users, username, 0, nextId);
      if duplicate.Some? {
        return Reply(Conflict, Message(DuplicateUsername));
      }
      var hashedPwd := hash(password, SaltRounds, salt);
      var user := User(username, hashedPwd, roles.value, activeDefault);
      users := users[nextId := user];
      nextId := nextId + 1;
      reply := Reply(Created, Message(CreatedMessage(username)));
    }

    /**
     * PATCH /users: id, username, a non-empty roles array and a boolean
     * `active` are required; the user must exist; another user holding the
     * username is a conflict. The password is re-hashed only when one is given.
     */
    method UpdateUser(id: Option<ObjectId>, username: string, roles: Option<seq<string>>, active: Option<bool>,
                      password: string, salt: Salt)
      returns (reply: Reply)
      requires Valid()
      modifies this
      ensures Valid()
      ensures notes == old(notes) && nextTicket == old(nextTicket) && nextId == old(nextId)
      ensures (id.None? || username == "" || roles.None? || roles.value == [] || active.None?) ==>
        reply == Reply(BadRequest, Message(AllFieldsRequired)) && users == old(users)
      ensures id.Some? && username != "" && roles.Some? && roles.value != [] && active.Some? ==>
        if id.value !in old(users) then
          reply == Reply(BadRequest, Message(UserNotFound)) && users == old(users)
        else if TakenByOther(old(users), username, id.value) then
          reply == Reply(Conflict, Message(DuplicateUsername)) && users == old(users)
        else
          var newPassword := if password != "" then hash(password, SaltRounds, salt)
                             else old(users)[id.value].password;
          reply == Reply(OK, Message(UpdatedMessage(username)))
          && users == old(users)[id.value := User(username, newPassword, roles.value, active.value)]
    {
      if id.None? || username == "" || roles.None? || roles.value == [] || active.None? {
        return Reply(BadRequest, Message(AllFieldsRequired));
      }
      var key := id.value;
      if key !in users {
        return Reply(BadRequest, Message(UserNotFound));
      }
      var user := users[key];
      var duplicate := FindByUsername(users, username, 0, nextId);
      DuplicateLookupIsTakenByOther(users, username, key, nextId);
      if duplicate.Some? && duplicate.value != key {
        return Reply(Conflict, Message(DuplicateUsername));
      }
      user := user.(username := username, roles := roles.value, active := active.value);
      if password != "" {
        user := user.(password := hash(password, SaltRounds, salt));
      }
      users := users[key := user];
      reply := Reply(OK, Message(UpdatedMessage(user.username)));
    }

    /**
     * DELETE /users: an id is required; a user that any note references is
     * not removed, and that check comes before the lookup; otherwise the
     * user is removed and named in the reply.
     */
    method DeleteUser(id: Option<ObjectId>) returns (reply: Reply)
      requires Valid()
      modifies this
      ensures Valid()
      ensures notes == old(notes) && nextTicket == old(nextTicket) && nextId == old(nextId)
      ensures id.None? ==> reply == Reply(BadRequest, Message(UserIdRequired)) && users == old(users)
      ensures id.Some? ==>
        if OwnsNotes(old(notes), id.value) then
          reply == Reply(BadRequest, Message(HasAssignedNotes)) && users == old(users)
        else if id.value !in old(users) then
          reply == Reply(BadRequest, Message(UserNotFound)) && users == old(users)
        else
          reply == Reply(OK, Text(DeletedMessage(old(users)[id.value].username, id.value)))
          && users == old(users) - {id.value}
    {
      if id.None? {
        return Reply(BadRequest, Message(UserIdRequired));
      }
      var key := id.value;
      var note := FindNoteOf(notes, key);
      if note.Some? {
        return Reply(BadRequest, Message(HasAssignedNotes));
      }
      if key !in users {
        return Reply(BadRequest, Message(UserNotFound));
      }
      var result := users[key];
      users := users - {key};
      reply := Reply(OK, Text(DeletedMessage(result.username, key)));
    }

    /**
     * Saving a new note: the draft is validated against the schema, and a
     * valid one takes the counter's value as its ticket and bumps the counter.
     * The referenced user is not looked up.
     */
    method CreateNote(draft: NoteDraft) returns (r: Result<Note, seq<RequiredPath>>)
      requires Valid()
      modifies this
      ensures Valid()
      ensures users == old(users) && nextId == old(nextId)
      ensures r == Build(draft, old(nextTicket))
      ensures r.Failure? ==> notes == old(notes) && nextTicket == old(nextTicket)
      ensures r.Success? ==> notes == old(notes) + [r.value] && nextTicket == old(nextTicket) + 1
    {
      r := Build(draft, nextTicket);
      if r.Success? {
        AppendIssued(notes, nextTicket, r.value);
        notes := notes + [r.value];
        nextTicket := nextTicket + 1;
      }
    }
  }
}
