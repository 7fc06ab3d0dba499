/**
 * The Note schema: the fields a note must carry, the `completed` default,
 * and the bounds of the shared "ticketNums" sequence that numbers notes.
 */
module NoteModel {
  import opened Wrappers
  import opened ObjectIds

  /** The value the auto-increment plugin gives the first note ever saved. */
  const TicketStart: nat := 500

  /**
   * A saved note. `user` is only a reference to a user's `_id`; nothing in
   * the schema checks that such a user exists. `ticket` is the number the
   * auto-increment plugin stores on the note, under the path "ticketNums".
   */
  datatype Note = Note(user: ObjectId, title: string, text: string, completed: bool, ticket: nat)

  /**
   * What a caller hands to the model before saving. A missing reference is
   * `None`; a missing or empty string is "" (the `required` check on a String
   * path refuses the empty string too); an omitted `completed` is `None`.
   */
  datatype NoteDraft = NoteDraft(user: Option<ObjectId>, title: string, text: string, completed: Option<bool>)

  /** The schema paths declared `required`. */
  datatype RequiredPath = UserPath | TitlePath | TextPath

  /** The required paths a draft leaves unset, in schema order. */
  function MissingPaths(d: NoteDraft): (r: seq<RequiredPath>)
    ensures UserPath in r <==> d.user.None?
    ensures TitlePath in r <==> d.title == ""
    ensures TextPath in r <==> d.text == ""
    ensures |r| <= 3
  {
    (if d.user.None? then [UserPath] else [])
    + (if d.title == "" then [TitlePath] else [])
    + (if d.text == "" then [TextPath] else [])
  }

  /**
   * Validating a draft and filling in defaults: the note that is stored when
   * it is saved under `ticket`, or the list of failing paths.
   */
  function Build(d: NoteDraft, ticket: nat): (r: Result<Note, seq<RequiredPath>>)
    ensures r.Success? <==> d.user.Some? && d.title != "" && d.text != ""
    ensures r.Failure? ==> r.error == MissingPaths(d) && r.error != []
    ensures r.Success? ==> r.value.user == d.user.value && r.value.title == d.title
                           && r.value.text == d.text && r.value.ticket == ticket
    ensures r.Success? && d.completed.None? ==> !r.value.completed
    ensures r.Success? && d.completed.Some? ==> r.value.completed == d.completed.value
  {
    var missing := MissingPaths(d);
    if missing != [] then Failure(missing)
    else
      var completed := match d.completed case Some(b) => b case None => false;
      Success(Note(d.user.value, d.title, d.text, completed, ticket))
  }

  /** Tickets grow strictly along the notes collection, whoever owns each note. */
  ghost predicate TicketsIncreasing(notes: seq<Note>)
  {
    forall i, j :: 0 <= i < j < |notes| ==> notes[i].ticket < notes[j].ticket
  }

  /** Every stored note was numbered by the counter, which now stands at `next`. */
  ghost predicate TicketsIssued(notes: seq<Note>, next: nat)
  {
    forall i :: 0 <= i < |notes| ==> TicketStart <= notes[i].ticket < next
  }

  /** A note saved under the counter's current value keeps the tickets increasing. */
  lemma AppendIssued(notes: seq<Note>, next: nat, n: Note)
    requires TicketsIncreasing(notes) && TicketsIssued(notes, next)
    requires n.ticket == next && TicketStart <= next
    ensures TicketsIncreasing(notes + [n]) && TicketsIssued(notes + [n], next + 1)
  {
  }
}
