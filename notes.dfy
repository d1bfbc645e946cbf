/** The note entity and the pure derivations of the dashboard: the query a
    filter mode sends, the search view, the draft tag list, and the new cache
    contents built after a successful update or delete. */
module Notes {
  import opened Wrappers
  import opened Seqs
  import opened Text

  /** A note as the server returns it. `archivedAt` is a timestamp or null. */
  datatype Note = Note(
    id: string,
    title: string,
    body: string,
    tags: seq<string>,
    pinned: bool,
    archivedAt: Option<string>,
    createdAt: string,
    updatedAt: string)

  /** The create/edit payload `{title, body, tags}`. */
  datatype Draft = Draft(title: string, body: string, tags: seq<string>)

  /** The draft a fresh create form starts from, and is reset to. */
  const EmptyDraft := Draft("", "", [])

  /** The payload an update sends for the note being edited. */
  function Payload(n: Note): (d: Draft)
    ensures d.title == n.title && d.body == n.body && d.tags == n.tags
  {
    Draft(n.title, n.body, n.tags)
  }

  /** `!!note.archivedAt`: a present, non-empty timestamp. */
  predicate IsArchived(n: Note)
  {
    n.archivedAt.Some? && n.archivedAt.value != ""
  }

  // ---------------------------------------------------------------------
  // Filter mode and the query it sends

  /** The query string parameters `{pinned?, archived?}` of a list request. */
  type Query = map<string, bool>

  /** The fixed translation of the filter selector into list parameters:
      "pinned" asks for pinned, unarchived notes; "archived" asks for archived
      notes whatever their pin; any other value asks for unarchived notes. */
  function FilterParams(mode: string): (q: Query)
    ensures "archived" in q
    ensures q["archived"] == (mode == "archived")
    ensures "pinned" in q <==> mode == "pinned"
    ensures "pinned" in q ==> q["pinned"]
    ensures q.Keys <= {"pinned", "archived"}
  {
    if mode == "pinned" then map["pinned" := true, "archived" := false]
    else if mode == "archived" then map["archived" := true]
    else map["archived" := false]
  }

  /** How the server reads a list query: every key present constrains the
      corresponding flag of the note. */
  predicate Selects(q: Query, n: Note)
  {
    ("pinned" in q ==> n.pinned == q["pinned"]) &&
    ("archived" in q ==> IsArchived(n) == q["archived"])
  }

  /** The notes each view is meant to show: pinned and archived views are
      exclusive in the pinned view, and the default view hides archived notes. */
  predicate InView(mode: string, n: Note)
  {
    if mode == "pinned" then n.pinned && !IsArchived(n)
    else if mode == "archived" then IsArchived(n)
    else !IsArchived(n)
  }

  /** A server that honours the query returns exactly the notes of the view. */
  lemma ParamsSelectView(mode: string, n: Note)
    ensures Selects(FilterParams(mode), n) <==> InView(mode, n)
  {
  }

  /** Every note of a list the server returned for a view's query belongs to
      that view (the refreshed cache satisfies the view's rule). */
  lemma RefreshedCacheInView(mode: string, items: seq<Note>)
    requires forall i :: 0 <= i < |items| ==> Selects(FilterParams(mode), items[i])
    ensures forall i :: 0 <= i < |items| ==> InView(mode, items[i])
  {
  }

  // ---------------------------------------------------------------------
  // Search

  /** The search predicate: the lower-cased term is included in the
      lower-cased title, the lower-cased body, or some lower-cased tag. */
  predicate Matches(n: Note, term: string)
  {
    var t := Lower(term);
    Contains(Lower(n.title), t) || Contains(Lower(n.body), t) ||
    exists i :: 0 <= i < |n.tags| && Contains(Lower(n.tags[i]), t)
  }

  /** `filteredNotes`: the notes that match, in cache order, every copy of a
      matching note kept; an empty term keeps the whole cache. */
  function FilteredNotes(notes: seq<Note>, term: string): (r: seq<Note>)
    ensures IsSubsequence(r, notes)
    ensures forall i :: 0 <= i < |r| ==> r[i] in notes && Matches(r[i], term)
    ensures forall i :: 0 <= i < |notes| && Matches(notes[i], term) ==> notes[i] in r
    ensures multiset(r) <= multiset(notes)
    ensures forall n | n in notes :: multiset(r)[n] == if Matches(n, term) then multiset(notes)[n] else 0
    ensures term == "" ==> r == notes
  {
    var p := (n: Note) => Matches(n, term);
    FilterIsSubsequence(notes, p);
    if term == "" then
      assert forall i :: 0 <= i < |notes| ==> p(notes[i]) by {
        forall i | 0 <= i < |notes| ensures p(notes[i]) {
          ContainsEmpty(Lower(notes[i].title));
        }
      }
      FilterAllPass(notes, p);
      Filter(notes, p)
    else
      Filter(notes, p)
  }

  /** What `Matches` means: the lower-cased term is a substring of the
      lower-cased title, of the lower-cased body, or of some lower-cased tag. */
  lemma MatchesIff(n: Note, term: string)
    ensures Matches(n, term) <==>
      Includes(Lower(n.title), Lower(term)) ||
      Includes(Lower(n.body), Lower(term)) ||
      exists k :: 0 <= k < |n.tags| && Includes(Lower(n.tags[k]), Lower(term))
  {
    var t := Lower(term);
    ContainsIff(Lower(n.title), t);
    ContainsIff(Lower(n.body), t);
    forall k | 0 <= k < |n.tags|
      ensures Contains(Lower(n.tags[k]), t) == Includes(Lower(n.tags[k]), t)
    {
      ContainsIff(Lower(n.tags[k]), t);
    }
  }

  /** The search ignores the case of the term: two terms that lower-case to
      the same string select the same notes. */
  lemma SearchIgnoresCase(notes: seq<Note>, a: string, b: string)
    requires Lower(a) == Lower(b)
    ensures FilteredNotes(notes, a) == FilteredNotes(notes, b)
  {
    FilterCongruent(notes, (n: Note) => Matches(n, a), (n: Note) => Matches(n, b));
  }

  // ---------------------------------------------------------------------
  // Draft tags

  /** A tag as `addTag` stores it: non-empty and already trimmed (hence not
      whitespace-only). */
  predicate WellFormedTag(t: string)
  {
    t != "" && Trim(t) == t
  }

  /** The tag-list invariant: no duplicates under exact comparison, and no
      empty or whitespace-only tag. */
  predicate WellFormedTags(tags: seq<string>)
  {
    NoDuplicates(tags) && forall i :: 0 <= i < |tags| ==> WellFormedTag(tags[i])
  }

  /** `addTag`: returns the new tag list and the new content of the tag input.
      The list only ever grows at its end, by at most one tag: the trimmed
      input, added exactly when the input is not blank and not yet a tag. The
      input is cleared exactly when a tag is added. A well-formed list stays
      well-formed. */
  function AddTag(tags: seq<string>, input: string): (r: (seq<string>, string))
    ensures |tags| <= |r.0| <= |tags| + 1 && r.0[..|tags|] == tags
    ensures |r.0| == |tags| + 1 <==> !IsBlank(input) && Trim(input) !in tags
    ensures |r.0| == |tags| + 1 ==> r.0[|tags|] == Trim(input)
    ensures r.1 == if |r.0| == |tags| + 1 then "" else input
    ensures WellFormedTags(tags) ==> WellFormedTags(r.0)
  {
    var t := Trim(input);
    if t != "" && t !in tags then
      assert WellFormedTags(tags) ==> WellFormedTags(tags + [t]) by {
        if WellFormedTags(tags) {
          TrimIdempotent(input);
          AppendKeepsWellFormed(tags, t);
        }
      }
      assert (tags + [t])[..|tags|] == tags;
      (tags + [t], "")
    else
      (tags, input)
  }

  lemma AppendKeepsWellFormed(tags: seq<string>, t: string)
    requires WellFormedTags(tags) && WellFormedTag(t) && t !in tags
    ensures WellFormedTags(tags + [t])
  {
  }

  /** Adding the same text twice adds it once. */
  lemma AddTagTwice(tags: seq<string>, input: string)
    ensures AddTag(AddTag(tags, input).0, input).0 == AddTag(tags, input).0
  {
  }

  /** A well-formed tag is never whitespace-only. */
  lemma WellFormedTagNotBlank(t: string)
    requires WellFormedTag(t)
    ensures !IsBlank(t)
  {
  }

  /** `removeTag`: every exact occurrence of `tag` goes, every copy of every
      other tag stays, in its original order. */
  function RemoveTag(tags: seq<string>, tag: string): (r: seq<string>)
    ensures tag !in r
    ensures forall i :: 0 <= i < |tags| && tags[i] != tag ==> tags[i] in r
    ensures forall i :: 0 <= i < |r| ==> r[i] in tags
    ensures IsSubsequence(r, tags)
    ensures multiset(r) <= multiset(tags)
    ensures forall t | t in tags && t != tag :: multiset(r)[t] == multiset(tags)[t]
  {
    var p := (x: string) => x != tag;
    FilterIsSubsequence(tags, p);
    Filter(tags, p)
  }

  /** `removeTag` keeps the tag-list invariant. */
  lemma RemoveTagKeepsWellFormed(tags: seq<string>, tag: string)
    requires WellFormedTags(tags)
    ensures WellFormedTags(RemoveTag(tags, tag))
  {
    FilterKeepsNoDuplicates(tags, (x: string) => x != tag);
    var r := RemoveTag(tags, tag);
    forall i | 0 <= i < |r| ensures WellFormedTag(r[i]) {
      var j :| 0 <= j < |tags| && tags[j] == r[i];
    }
  }

  // ---------------------------------------------------------------------
  // Cache edits

  /** The cache after a successful update: same length and order, every entry
      with the edited id replaced by the server's note, every other entry kept. */
  function ReplaceById(notes: seq<Note>, id: string, updated: Note): (r: seq<Note>)
    ensures |r| == |notes|
    ensures forall i :: 0 <= i < |notes| && notes[i].id == id ==> r[i] == updated
    ensures forall i :: 0 <= i < |notes| && notes[i].id != id ==> r[i] == notes[i]
  {
    Map(notes, (n: Note) => if n.id == id then updated else n)
  }

  /** Updating an id the cache does not hold leaves the cache as it was. */
  lemma ReplaceAbsentId(notes: seq<Note>, id: string, updated: Note)
    requires forall i :: 0 <= i < |notes| ==> notes[i].id != id
    ensures ReplaceById(notes, id, updated) == notes
  {
  }

  /** When the server's note keeps the edited id, the cache's ids, in order,
      are those it had before. */
  lemma ReplaceKeepsIds(notes: seq<Note>, id: string, updated: Note)
    requires updated.id == id
    ensures forall i :: 0 <= i < |notes| ==> ReplaceById(notes, id, updated)[i].id == notes[i].id
  {
  }

  /** The cache after a successful delete: no entry with that id remains, every
      copy of every other entry stays, in its original order. */
  function RemoveById(notes: seq<Note>, id: string): (r: seq<Note>)
    ensures forall i :: 0 <= i < |r| ==> r[i].id != id && r[i] in notes
    ensures forall i :: 0 <= i < |notes| && notes[i].id != id ==> notes[i] in r
    ensures IsSubsequence(r, notes)
    ensures multiset(r) <= multiset(notes)
    ensures forall n | n in notes && n.id != id :: multiset(r)[n] == multiset(notes)[n]
  {
    var p := (n: Note) => n.id != id;
    FilterIsSubsequence(notes, p);
    Filter(notes, p)
  }

  /** Deleting an id the cache does not hold leaves the cache as it was. */
  lemma RemoveAbsentId(notes: seq<Note>, id: string)
    requires forall i :: 0 <= i < |notes| ==> notes[i].id != id
    ensures RemoveById(notes, id) == notes
  {
    FilterAllPass(notes, (n: Note) => n.id != id);
  }

  /** Deleting a note just created with a fresh id gives back the cache as it
      was before the create. */
  lemma DeleteUndoesCreate(notes: seq<Note>, created: Note)
    requires forall i :: 0 <= i < |notes| ==> notes[i].id != created.id
    ensures RemoveById([created] + notes, created.id) == notes
  {
    var p := (n: Note) => n.id != created.id;
    assert ([created] + notes)[1..] == notes;
    FilterAllPass(notes, p);
  }
}
