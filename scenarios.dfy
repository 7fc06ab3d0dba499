/**
 * Client call sequences on a fresh store, verified against the handlers'
 * contracts only:
 * a duplicate sign-up, empty roles, keeping one's own name, renaming onto
 * another user, deletion blocked by notes, and ticket numbering.
 */
module Scenarios {
  import opened Wrappers
  import opened NoteModel
  import opened UsersController

  /** Signing "alice" up twice: the second request is a conflict. */
  method DuplicateSignup(hash: (string, nat, Salt) -> Digest) returns (first: Reply, second: Reply)
    ensures first == Reply(Created, Message("New user alice created"))
    ensures second == Reply(Conflict, Message("Duplicate username"))
  {
    var store := new Store(hash, true);
    first := store.CreateNewUser("alice", "pw1", Some(["Employee"]), 0);
    assert CreatedMessage("alice") == "New user alice created";
    assert store.users[0].username == "alice";
    second := store.CreateNewUser("alice", "pw2", Some(["Employee"]), 1);
  }

  /** An empty roles array is refused before anything else is looked at. */
  method EmptyRoles(hash: (string, nat, Salt) -> Digest) returns (reply: Reply, listing: Reply)
    ensures reply == Reply(BadRequest, Message("All fields are required"))
    ensures listing == Reply(BadRequest, Message("No users found"))
  {
    var store := new Store(hash, true);
    reply := store.CreateNewUser("bob", "pw", Some([]), 0);
    listing := store.GetAllUsers();
  }

  /**
   * Updating a user under its own username succeeds, and leaving the
   * password out keeps the stored hash.
   */
  method KeepOwnName(hash: (string, nat, Salt) -> Digest) returns (reply: Reply, kept: Digest)
    ensures reply == Reply(OK, Message("alice updated"))
    ensures kept == hash("pw1", SaltRounds, 7)
  {
    var store := new Store(hash, true);
    var _ := store.CreateNewUser("alice", "pw1", Some(["Employee"]), 7);
    reply := store.UpdateUser(Some(0), "alice", Some(["Manager"]), Some(false), "", 8);
    assert UpdatedMessage("alice") == "alice updated";
    kept := store.users[0].password;
  }

  /** Taking another user's name on update is a conflict. */
  method RenameOntoOther(hash: (string, nat, Salt) -> Digest) returns (reply: Reply)
    ensures reply == Reply(Conflict, Message("Duplicate username"))
  {
    var store := new Store(hash, true);
    var _ := store.CreateNewUser("alice", "pw1", Some(["Employee"]), 0);
    var _ := store.CreateNewUser("carol", "pw2", Some(["Employee"]), 1);
    assert store.users[0].username == "alice";
    reply := store.UpdateUser(Some(1), "alice", Some(["Employee"]), Some(true), "", 2);
  }

  /**
   * A user who owns a note cannot be deleted; a user who owns none can. A
   * note may reference an id no user has, and that id is then refused for
   * the notes, not as an unknown user.
   */
  method DeletionBlockedByNotes(hash: (string, nat, Salt) -> Digest)
    returns (blocked: Reply, orphan: Reply, removed: Reply)
    ensures blocked == Reply(BadRequest, Message("User has assigned notes"))
    ensures orphan == Reply(BadRequest, Message("User has assigned notes"))
    ensures removed.status == OK
  {
    var store := new Store(hash, true);
    var _ := store.CreateNewUser("alice", "pw1", Some(["Employee"]), 0);
    var _ := store.CreateNewUser("dave", "pw2", Some(["Employee"]), 1);
    var n := store.CreateNote(NoteDraft(Some(0), "Fix printer", "Toner is empty", None));
    assert store.notes[0].user == 0;
    var m := store.CreateNote(NoteDraft(Some(42), "Orphan", "No such user", None));
    assert store.notes[1].user == 42;
    blocked := store.DeleteUser(Some(0));
    orphan := store.DeleteUser(Some(42));
    removed := store.DeleteUser(Some(1));
  }

  /**
   * Tickets start at 500 and go up by one per saved note whoever owns it;
   * a rejected draft takes no ticket, and `completed` starts false.
   */
  method TicketNumbering(hash: (string, nat, Salt) -> Digest)
    returns (first: Result<Note, seq<RequiredPath>>, rejected: Result<Note, seq<RequiredPath>>,
             second: Result<Note, seq<RequiredPath>>)
    ensures first.Success? && first.value.ticket == 500 && !first.value.completed
    ensures rejected == Failure([TitlePath, TextPath])
    ensures second.Success? && second.value.ticket == 501 && second.value.completed
  {
    var store := new Store(hash, true);
    first := store.CreateNote(NoteDraft(Some(0), "Fix printer", "Toner is empty", None));
    rejected := store.CreateNote(NoteDraft(Some(1), "", "", Some(true)));
    assert MissingPaths(NoteDraft(Some(1), "", "", Some(true))) == [TitlePath, TextPath];
    second := store.CreateNote(NoteDraft(Some(1), "Order chairs", "Four of them", Some(true)));
  }
}
