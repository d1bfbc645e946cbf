/** The dashboard's note state: the cached list for the selected filter, the
    search term, the create and edit forms with their tag input, and the
    handlers that change them. Each handler runs as one sequential step; the
    server's answers and the delete confirmation are its parameters. */
module Dashboard {
  import opened Wrappers
  import opened Text
  import opened Notes
  import opened Api

  /** The form an `addTag` or `removeTag` acts on. */
  datatype Form = CreateForm | EditForm

  class Dashboard {
    const client: Client
    var notes: seq<Note>
    var loading: bool
    var searchTerm: string
    var filter: string
    var isCreating: bool
    var editingNote: Option<Note>
    var newNote: Draft
    var newTag: string

    /** The create draft's tags are well-formed: they start empty, are reset
        to empty, and change only through `addTag` and `removeTag`. */
    predicate Valid()
      reads this
    {
      WellFormedTags(newNote.tags)
    }

    /** The state on first render: empty cache, loading, default filter,
        both forms closed, an empty draft. */
    constructor (client: Client)
      ensures this.client == client
      ensures notes == [] && loading && searchTerm == "" && filter == "all"
      ensures !isCreating && editingNote == None && newNote == EmptyDraft && newTag == ""
      ensures Valid()
    {
      this.client := client;
      notes := [];
      loading := true;
      searchTerm := "";
      filter := "all";
      isCreating := false;
      editingNote := None;
      newNote := EmptyDraft;
      newTag := "";
    }

    /** The list on screen: the cache narrowed by the search term. */
    function Visible(): (r: seq<Note>)
      reads this
      ensures Seqs.IsSubsequence(r, notes)
      ensures searchTerm == "" ==> r == notes
    {
      FilteredNotes(notes, searchTerm)
    }

    /** `fetchNotes`: one list request with the current filter's parameters;
        on success the cache becomes exactly the returned items, on failure it
        is kept; loading is over either way. */
    method FetchNotes(outcome: Result<seq<Note>, HttpError>)
      requires Valid()
      modifies this`notes, this`loading, client, client.storage
      ensures var s := Step(old(client.storage.token), GetNotes(FilterParams(filter)), ErrorOf(outcome));
        client.sent == old(client.sent) + [s.1] && client.storage.token == s.0
      ensures notes == if outcome.Success? then outcome.value else old(notes)
      ensures !loading
      ensures Valid()
    {
      loading := true;
      var params := FilterParams(filter);
      var response := client.Perform(GetNotes(params), outcome);
      if response.Success? {
        notes := response.value;
      }
      loading := false;
    }

    /** The filter selector with its effect: choosing a different mode
        re-fetches under the new mode; choosing the current one does nothing. */
    method SelectFilter(mode: string, outcome: Result<seq<Note>, HttpError>)
      requires Valid()
      modifies this`filter, this`notes, this`loading, client, client.storage
      ensures filter == mode
      ensures mode == old(filter) ==>
        notes == old(notes) && loading == old(loading) &&
        client.sent == old(client.sent) && client.storage.token == old(client.storage.token)
      ensures mode != old(filter) ==>
        var s := Step(old(client.storage.token), GetNotes(FilterParams(mode)), ErrorOf(outcome));
        client.sent == old(client.sent) + [s.1] && client.storage.token == s.0 &&
        notes == (if outcome.Success? then outcome.value else old(notes)) && !loading
      ensures Valid()
    {
      if mode != filter {
        filter := mode;
        FetchNotes(outcome);
      }
    }

    /** The search box. */
    method SetSearchTerm(term: string)
      requires Valid()
      modifies this`searchTerm
      ensures searchTerm == term
      ensures Valid()
    {
      searchTerm := term;
    }

    /** Opening and closing the create form; the draft survives a close. */
    method SetCreating(open: bool)
      requires Valid()
      modifies this`isCreating
      ensures isCreating == open
      ensures Valid()
    {
      isCreating := open;
    }

    /** The create form's title input: the title changes, body and tags stay. */
    method SetNewNoteTitle(title: string)
      requires Valid()
      modifies this`newNote
      ensures newNote == old(newNote).(title := title)
      ensures Valid()
    {
      newNote := newNote.(title := title);
    }

    /** The create form's body input: the body changes, title and tags stay. */
    method SetNewNoteBody(body: string)
      requires Valid()
      modifies this`newNote
      ensures newNote == old(newNote).(body := body)
      ensures Valid()
    {
      newNote := newNote.(body := body);
    }

    /** Opening the edit form on a copy of a note, editing it, or closing it. */
    method SetEditingNote(note: Option<Note>)
      requires Valid()
      modifies this`editingNote
      ensures editingNote == note
      ensures Valid()
    {
      editingNote := note;
    }

    /** The tag input shared by both forms. */
    method SetNewTag(text: string)
      requires Valid()
      modifies this`newTag
      ensures newTag == text
      ensures Valid()
    {
      newTag := text;
    }

    /** `handleCreateNote`: a blank title is refused before any request;
        otherwise the draft is sent, and on success the created note goes to
        the front of the cache and the form is reset and closed. A failure
        changes nothing but what the pipeline does on a 401. */
    method CreateNote(outcome: Result<Note, HttpError>)
      requires Valid()
      modifies this`notes, this`newNote, this`isCreating, client, client.storage
      ensures IsBlank(old(newNote.title)) ==>
        notes == old(notes) && newNote == old(newNote) && isCreating == old(isCreating) &&
        client.sent == old(client.sent) && client.storage.token == old(client.storage.token)
      ensures !IsBlank(old(newNote.title)) ==>
        var s := Step(old(client.storage.token), Api.CreateNote(old(newNote)), ErrorOf(outcome));
        client.sent == old(client.sent) + [s.1] && client.storage.token == s.0
      ensures !IsBlank(old(newNote.title)) && outcome.Success? ==>
        notes == [outcome.value] + old(notes) && newNote == EmptyDraft && !isCreating
      ensures outcome.Failure? ==>
        notes == old(notes) && newNote == old(newNote) && isCreating == old(isCreating)
      ensures Valid()
    {
      var blank := TrimsToEmpty(newNote.title);
      if blank {
        return;
      }
      var response := client.Perform(Api.CreateNote(newNote), outcome);
      if response.Success? {
        notes := [response.value] + notes;
        newNote := EmptyDraft;
        isCreating := false;
      }
    }

    /** `handleUpdateNote`, with the edit form open: a blank title is refused
        before any request; otherwise title, body and tags are sent for the
        note's id, and on success every cached entry with that id becomes the
        server's note and the form closes. */
    method UpdateNote(outcome: Result<Note, HttpError>)
      requires editingNote.Some?
      requires Valid()
      modifies this`notes, this`editingNote, client, client.storage
      ensures var edited := old(editingNote.value);
        IsBlank(edited.title) ==>
          notes == old(notes) && editingNote == old(editingNote) &&
          client.sent == old(client.sent) && client.storage.token == old(client.storage.token)
      ensures var edited := old(editingNote.value);
        !IsBlank(edited.title) ==>
          var s := Step(old(client.storage.token), Api.UpdateNote(edited.id, Payload(edited)), ErrorOf(outcome));
          client.sent == old(client.sent) + [s.1] && client.storage.token == s.0
      ensures var edited := old(editingNote.value);
        !IsBlank(edited.title) && outcome.Success? ==>
          notes == ReplaceById(old(notes), edited.id, outcome.value) && editingNote == None
      ensures outcome.Failure? ==> notes == old(notes) && editingNote == old(editingNote)
      ensures Valid()
    {
      var edited := editingNote.value;
      var blank := TrimsToEmpty(edited.title);
      if blank {
        return;
      }
      var response := client.Perform(Api.UpdateNote(edited.id, Payload(edited)), outcome);
      if response.Success? {
        notes := ReplaceById(notes, edited.id, response.value);
        editingNote := None;
      }
    }

    /** `handleDeleteNote`: without confirmation nothing is sent; otherwise
        exactly one delete request goes out (no re-fetch), and on success the
        entries with that id leave the cache. */
    method DeleteNote(noteId: string, confirmed: bool, outcome: Result<(), HttpError>)
      requires Valid()
      modifies this`notes, client, client.storage
      ensures !confirmed ==>
        notes == old(notes) && client.sent == old(client.sent) &&
        client.storage.token == old(client.storage.token)
      ensures confirmed ==>
        var s := Step(old(client.storage.token), Api.DeleteNote(noteId), ErrorOf(outcome));
        client.sent == old(client.sent) + [s.1] && client.storage.token == s.0
      ensures confirmed && outcome.Success? ==> notes == RemoveById(old(notes), noteId)
      ensures outcome.Failure? ==> notes == old(notes)
      ensures Valid()
    {
      if !confirmed {
        return;
      }
      var response := client.Perform(Api.DeleteNote(noteId), outcome);
      if response.Success? {
        notes := RemoveById(notes, noteId);
      }
    }

    /** The pin button of a note: `unpin` when the note is pinned, else `pin`.
        On success the flag is not flipped locally: the current filter is
        re-fetched. A failed request triggers no re-fetch. */
    method TogglePin(note: Note, outcome: Result<(), HttpError>, refetch: Result<seq<Note>, HttpError>)
      requires Valid()
      modifies this`notes, this`loading, client, client.storage
      ensures var s := Step(old(client.storage.token), PinToggle(note), ErrorOf(outcome));
        outcome.Failure? ==>
          client.sent == old(client.sent) + [s.1] && client.storage.token == s.0 &&
          notes == old(notes) && loading == old(loading)
      ensures var s := Step(old(client.storage.token), PinToggle(note), ErrorOf(outcome));
        var f := Step(s.0, GetNotes(FilterParams(filter)), ErrorOf(refetch));
        outcome.Success? ==>
          client.sent == old(client.sent) + [s.1, f.1] && client.storage.token == f.0 &&
          notes == (if refetch.Success? then refetch.value else old(notes)) && !loading
      ensures Valid()
    {
      var response := client.Perform(PinToggle(note), outcome);
      if response.Success? {
        FetchNotes(refetch);
      }
    }

    /** The archive button of a note: `unarchive` when the note is archived,
        else `archive`; on success the current filter is re-fetched. */
    method ToggleArchive(note: Note, outcome: Result<(), HttpError>, refetch: Result<seq<Note>, HttpError>)
      requires Valid()
      modifies this`notes, this`loading, client, client.storage
      ensures var s := Step(old(client.storage.token), ArchiveToggle(note), ErrorOf(outcome));
        outcome.Failure? ==>
          client.sent == old(client.sent) + [s.1] && client.storage.token == s.0 &&
          notes == old(notes) && loading == old(loading)
      ensures var s := Step(old(client.storage.token), ArchiveToggle(note), ErrorOf(outcome));
        var f := Step(s.0, GetNotes(FilterParams(filter)), ErrorOf(refetch));
        outcome.Success? ==>
          client.sent == old(client.sent) + [s.1, f.1] && client.storage.token == f.0 &&
          notes == (if refetch.Success? then refetch.value else old(notes)) && !loading
      ensures Valid()
    {
      var response := client.Perform(ArchiveToggle(note), outcome);
      if response.Success? {
        FetchNotes(refetch);
      }
    }

    /** The tags of the draft a form edits. */
    function FormTags(form: Form): seq<string>
      reads this
      requires form == EditForm ==> editingNote.Some?
    {
      if form == CreateForm then newNote.tags else editingNote.value.tags
    }

    /** `addTag` on a form: the form's tags and the tag input become what
        `AddTag` gives; nothing else about either draft changes. */
    method AddTagTo(form: Form)
      requires form == EditForm ==> editingNote.Some?
      requires Valid()
      modifies this`newNote, this`editingNote, this`newTag
      ensures var r := AddTag(old(FormTags(form)), old(newTag));
        newTag == r.1 &&
        if form == CreateForm then
          newNote == old(newNote).(tags := r.0) && editingNote == old(editingNote)
        else
          editingNote == Some(old(editingNote.value).(tags := r.0)) && newNote == old(newNote)
      ensures Valid()
    {
      var r := AddTag(FormTags(form), newTag);
      if form == CreateForm {
        newNote := newNote.(tags := r.0);
      } else {
        editingNote := Some(editingNote.value.(tags := r.0));
      }
      newTag := r.1;
    }

    /** `removeTag` on a form: the form's tags become what `RemoveTag` gives. */
    method RemoveTagFrom(tag: string, form: Form)
      requires form == EditForm ==> editingNote.Some?
      requires Valid()
      modifies this`newNote, this`editingNote
      ensures var r := RemoveTag(old(FormTags(form)), tag);
        if form == CreateForm then
          newNote == old(newNote).(tags := r) && editingNote == old(editingNote)
        else
          editingNote == Some(old(editingNote.value).(tags := r)) && newNote == old(newNote)
      ensures Valid()
    {
      if form == CreateForm {
        RemoveTagKeepsWellFormed(newNote.tags, tag);
        newNote := newNote.(tags := RemoveTag(newNote.tags, tag));
      } else {
        editingNote := Some(editingNote.value.(tags := RemoveTag(editingNote.value.tags, tag)));
      }
    }
  }

  /** The request the pin button sends: `unpin` exactly when the note is
      pinned. */
  function PinToggle(note: Note): (op: Op)
    ensures op == UnpinNote(note.id) <==> note.pinned
    ensures op == PinNote(note.id) <==> !note.pinned
  {
    if note.pinned then UnpinNote(note.id) else PinNote(note.id)
  }

  /** The request the archive button sends: `unarchive` exactly when the note
      is archived. */
  function ArchiveToggle(note: Note): (op: Op)
    ensures op == UnarchiveNote(note.id) <==> IsArchived(note)
    ensures op == ArchiveNote(note.id) <==> !IsArchived(note)
  {
    if IsArchived(note) then UnarchiveNote(note.id) else ArchiveNote(note.id)
  }
}
