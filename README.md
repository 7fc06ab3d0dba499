# Users controller and Note model of MERN-techNotes, in Dafny

This project models the account lifecycle of the techNotes back end. It covers
the four user handlers (list, create, update, delete) and the part of the Note
model they depend on. A `Store` object holds the state the handlers read and
change:

- the users collection, a map from `_id` to a user document (username,
  password hash, roles, active);
- the notes collection, a sequence in insertion order;
- the next user `_id`;
- the shared "ticketNums" counter that numbers notes.

Each handler checks its guards in the controller's order. It answers with a
`Reply`: a status (`OK`, `Created`, `BadRequest`, `Conflict`, sent as 200, 201,
400 and 409) and a JSON body. The body is an object with a `message`, a bare
string (the delete reply), or the list of users.

Files:

- `wrappers.dfy`: `Option` and `Result`.
- `object_ids.dfy`: document ids and their decimal rendering, with its parse
  round trip.
- `note_model.dfy`: the Note schema. It covers the required paths, the
  `completed` default, the ticket start value 500 and the ticket ordering
  invariant.
- `users_controller.dfy`: user documents, replies, the `findOne`/`find`
  queries as recursive functions, and the `Store` class with the handlers and
  note creation.
- `scenarios.dfy`: client call sequences on a fresh store, verified against
  the handlers' contracts only. They cover a duplicate sign-up, empty roles, keeping one's own
  name, renaming onto another user, deletion blocked by notes, and ticket
  numbering.

How the request fields are modelled:

- A string field that is absent or falsy is `""`.
- `roles` is `None` when it is not an array.
- `active` is `None` when it is not a boolean.
- `id` is `None` when it is missing.

`Store.Valid()` is the invariant every handler keeps:

- every id is below the next id;
- no two users share a username;
- every user has a username and at least one role;
- tickets are at least 500 and below the counter;
- tickets strictly increase along the notes collection.

Password hashing is the store's `hash` function applied to the password, the
cost factor 10 and a salt. The salt is a parameter of each call, standing for
bcrypt's randomness. A stored password has type `Digest`, so a plaintext
cannot be stored.

## Model

| member | source | states |
|---|---|---|
| UsersController.Store.GetAllUsers | controllers/usersController.js:11-24 | 400 "No users found" exactly when there are no users; otherwise 200 with one entry per user (as many entries as users, every user listed), each equal to that user's document without the password, in id order |
| UsersController.ListFrom | controllers/usersController.js:14 | every listed entry is a user in the range, shown without its password; ids strictly increase |
| UsersController.ListFromComplete | controllers/usersController.js:14 | every user in the range appears in the listing |
| UsersController.ListFromLength | controllers/usersController.js:14 | the listing has exactly as many entries as there are users in the range |
| UsersController.ListAllLength | controllers/usersController.js:14-18 | listing from id 0 yields exactly one entry per stored user, so the emptiness test on the list is the emptiness of the collection |
| UsersController.View | controllers/usersController.js:14 | a listed user keeps its id, username, roles and active; the listed record has no password field |
| UsersController.CreatedMessage | controllers/usersController.js:61 | the creation message is "New user ", then the username, then " created" |
| UsersController.UpdatedMessage | controllers/usersController.js:115 | the update message is the saved username followed by " updated" |
| UsersController.DeletedMessage | controllers/usersController.js:151 | the deletion reply is "Username ", the username, " with ID ", the id's rendering, then " deleted" |
| UsersController.Store.CreateNewUser | controllers/usersController.js:29-65 | 400 "All fields are required" with no change when username or password is empty or roles is not a non-empty array; 409 "Duplicate username" with no change when any user has that username; otherwise 201 "New user <name> created", and exactly one user is added under a fresh id with that username and roles and password `hash(password, 10, salt)`; other users, notes and the counter are unchanged; the invariant is kept |
| UsersController.FindByUsername | controllers/usersController.js:41-47 | returns a user whose username is exactly the name, or no user when none in the range has it |
| UsersController.Store.UpdateUser | controllers/usersController.js:70-116 | 400 "All fields are required" with no change when id or username is missing, roles is not a non-empty array or active is not a boolean; then 400 "User not found" with no change for an unknown id, checked before duplicates; 409 only when a user with another id has the username; otherwise 200 "<name> updated", and the target's username, roles and active are replaced; its password becomes `hash(password, 10, salt)` only when a password is given and keeps the old hash otherwise; every other user, the notes and both counters are unchanged |
| UsersController.DuplicateLookupIsTakenByOther | controllers/usersController.js:94-99 | under unique usernames, "findOne found a user whose id differs from the request id" holds exactly when another user has the name |
| UsersController.OwnNameIsFree | controllers/usersController.js:96-97 | under unique usernames a user's own username is never taken by another user, so renaming a user to its current name is not a conflict |
| UsersController.Store.DeleteUser | controllers/usersController.js:121-154 | 400 "User ID Required" for a missing id; 400 "User has assigned notes" whenever any note references the id, checked before the lookup (so also for an unknown id); 400 "User not found" for an unknown id; otherwise 200 with the text "Username <name> with ID <id> deleted", exactly that user removed, notes and counters unchanged |
| UsersController.FindNoteOf | controllers/usersController.js:132-135 | returns the index of a note referencing the id, or nothing when no note references it |
| UsersController.StatusCode | controllers/usersController.js:44-47 | OK is sent as 200, Created as 201, BadRequest as 400 and Conflict as 409, each code for exactly one class; the 2xx codes are exactly the two success classes |
| UsersController.Store.constructor | models/Note.js:36-40 | an empty store whose ticket counter stands at 500, satisfying the invariant |
| UsersController.Store.CreateNote | models/Note.js:5-40 | the outcome is `Build(draft, counter)`; a rejected draft changes nothing; a valid one is appended with the counter's value as ticket and the counter goes up by one; the referenced user is not looked up and users are unchanged; ticket ordering is kept |
| NoteModel.MissingPaths | models/Note.js:7-19 | lists `user`, `title` or `text` exactly when that required path is unset |
| NoteModel.Build | models/Note.js:5-24 | succeeds exactly when user, title and text are all set, with the fields as given and the given ticket; `completed` is false when omitted and as given otherwise; a failure lists the unset paths |
| NoteModel.AppendIssued | models/Note.js:36-40 | a note saved under the counter's current value keeps tickets strictly increasing and within [500, counter + 1) |
| ObjectIds.ToString | controllers/usersController.js:151 | the rendering of an id is a non-empty string of decimal digits |
| ObjectIds.ParseToString | controllers/usersController.js:151 | parsing an id's rendering gives the id back |
| ObjectIds.ToStringInjective | controllers/usersController.js:151 | distinct ids render differently, so the delete reply names the deleted id (a property of the model's rendering, not a parse the source performs) |
| Scenarios.DuplicateSignup | controllers/usersController.js:29-65 | creating "alice" answers 201 "New user alice created"; creating "alice" again answers 409 "Duplicate username" |
| Scenarios.EmptyRoles | controllers/usersController.js:35-37 | creating with an empty roles array answers 400 and leaves the store empty, so listing answers 400 "No users found" |
| Scenarios.KeepOwnName | controllers/usersController.js:96-110 | updating a user with its own username answers 200 "alice updated" and, with no password given, keeps the original hash |
| Scenarios.RenameOntoOther | controllers/usersController.js:94-99 | renaming a user to another user's username answers 409 |
| Scenarios.DeletionBlockedByNotes | controllers/usersController.js:126-153 | deleting a note owner answers 400 "User has assigned notes"; so does deleting an id that no user has but that a note references; deleting a user without notes succeeds |
| Scenarios.TicketNumbering | models/Note.js:20-40 | the first note gets ticket 500 and `completed` false; a draft without title and text is refused with both paths and takes no ticket; the next note gets 501 |

## Left out

- Routing (`routes/userRoutes.js`) and the CORS policy (`config/corsOptions.js`) are not part of this model. They are transport plumbing, and `allowedOrigins` lives in a module outside this model.
- The User model file is not part of this model. Its default for `active` on creation is a constructor parameter (`activeDefault`). Any further validation it performs on `create` or `save` is not modelled, and neither is the `user` falsy branch after `User.create` (controllers/usersController.js:62-64).
- bcrypt's salting and cost are reduced to an abstract `hash(password, 10, salt)` with the salt passed in. There is no verify function, because the controller never calls one.
- UsersController.Store.DeleteUser: the reply takes `await user.deleteOne()` to resolve to the removed document, as the comment at controllers/usersController.js:148 says. It is therefore built from the user's username and id as they were before removal. Mongoose releases where a document's `deleteOne()` resolves to a delete summary instead would reply "Username undefined with ID undefined deleted". The Mongoose version is not part of this model.
- UsersController.Store.UpdateUser: the self-exclusion of the duplicate check is modelled as id equality. The source compares `duplicate._id.toString()` with the request's `id` text (controllers/usersController.js:97). The two agree only when the request writes the id in canonical lower-case hex. A request id in another spelling that `findById` still accepts, such as upper-case hex, would be answered 409 on the user's own username. The model does not capture that case, and OwnNameIsFree and Scenarios.KeepOwnName hold only for canonical id text.
- The parse round trip in `object_ids.dfy` (Parse, ParseToString, ToStringInjective) supports the claim that the delete reply names the deleted id. It describes the model's decimal rendering, not anything the source does: the source never parses a reply.
- Store ids are handed out by a counter and rendered in decimal. Real ObjectIds are generated by the driver and rendered as 24 hex digits.
- A request id that is not a well-formed ObjectId makes Mongoose throw a cast error, which `asyncHandler` turns into an error response. Ids are typed here, so this path does not arise.
- Request fields carry the types the handlers expect. A truthy non-string username or password (a number, say) and Mongoose's casting of it are not modelled.
- The `find` order is taken to be creation order. The listing is produced in id order, which is creation order under the id counter.
- Mongoose and `express-async-handler` mechanics are left out: `lean`, `exec`, `select`, promises, store failures and their propagation.
- The `createdAt`/`updatedAt` timestamps are left out because they depend on the clock.
- Concurrency is left out. Every handler runs alone, so the check-then-insert and check-then-delete races and the atomicity of the counter increment are not modelled. Under sequential execution usernames stay unique, and `Store.Valid()` records this.
- Deleting and updating notes belong to the notes controller, which is not part of this model. The ticket invariant is stated so that removing notes would keep it.
- A rejected note draft leaves the counter untouched. This takes validation to run before the auto-increment hook, so that the counter grows once per saved note.
- How a listing with no users is answered follows the code: 400 "No users found", not an empty 200 list.
