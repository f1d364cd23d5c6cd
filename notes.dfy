/** The notes drawer: a list of notes with add, edit, delete and a text search. */
module Notes {
  import opened Wrappers
  import opened Strings
  import opened Lists

  datatype Note = Note(id: int, title: string, body: string, createdAt: string)

  /** The new-note form. */
  datatype NoteDraft = NoteDraft(title: string, body: string)

  // ---------------------------------------------------------------------------
  // Search

  /** `hay` contains `needle` as a contiguous piece. */
  ghost predicate ContainsText(hay: string, needle: string) {
    exists i :: OccursAt(hay, needle, i)
  }

  predicate Matches(n: Note, q: string) {
    Includes(ToLower(n.title), q) || Includes(ToLower(n.body), q)
  }

  /**
   * `filtered`: the whole list for a blank query; otherwise, in list order,
   * exactly the notes whose lower-cased title or body contains the trimmed,
   * lower-cased query.
   */
  function Filtered(notes: seq<Note>, query: string): (r: seq<Note>)
    ensures IsBlank(query) ==> r == notes
    ensures !IsBlank(query) ==>
      var q := ToLower(Trim(query));
      && IsSubsequence(r, notes)
      && (forall n :: multiset(r)[n] ==
            if ContainsText(ToLower(n.title), q) || ContainsText(ToLower(n.body), q) then multiset(notes)[n] else 0)
      && forall n :: n in r <==> n in notes && (ContainsText(ToLower(n.title), q) || ContainsText(ToLower(n.body), q))
  {
    var q := ToLower(Trim(query));
    if q == "" then notes
    else Filter(notes, (n: Note) => Matches(n, q))
  }

  // ---------------------------------------------------------------------------
  // State transitions of the note list

  /**
   * `add`: unless both raw fields are empty, prepends a note with the trimmed
   * body and the trimmed title, "Untitled" when that is empty.
   */
  function WithNote(notes: seq<Note>, d: NoteDraft, id: int, createdAt: string): (r: seq<Note>)
    ensures d.title == "" && d.body == "" ==> r == notes
    ensures d.title != "" || d.body != "" ==>
      && |r| == |notes| + 1 && r[1..] == notes
      && r[0].id == id && r[0].createdAt == createdAt
      && r[0].title == (if IsBlank(d.title) then "Untitled" else Trim(d.title))
      && r[0].body == Trim(d.body)
  {
    if d.title == "" && d.body == "" then notes
    else
      var t := Trim(d.title);
      [Note(id, if t == "" then "Untitled" else t, Trim(d.body), createdAt)] + notes
  }

  /** The guard looks at the raw fields: a whitespace-only draft still adds an "Untitled", empty note. */
  lemma WhitespaceDraftAdded(notes: seq<Note>, d: NoteDraft, id: int, createdAt: string)
    requires d.title != "" && IsBlank(d.title) && IsBlank(d.body)
    ensures var r := WithNote(notes, d, id, createdAt);
      |r| == |notes| + 1 && r[0].title == "Untitled" && r[0].body == ""
  {
  }

  /** `saveEdit`: the matching notes get the new title and body verbatim; nothing else changes. */
  function WithEdit(notes: seq<Note>, id: int, title: string, body: string): (r: seq<Note>)
    ensures |r| == |notes|
    ensures forall i :: 0 <= i < |notes| && notes[i].id != id ==> r[i] == notes[i]
    ensures forall i :: 0 <= i < |notes| && notes[i].id == id ==>
      r[i].id == id && r[i].createdAt == notes[i].createdAt && r[i].title == title && r[i].body == body
  {
    seq(|notes|, i requires 0 <= i < |notes| =>
      if notes[i].id == id then notes[i].(title := title, body := body) else notes[i])
  }

  /** `remove`: drops every note with the id, the rest keep their order. */
  function WithoutNote(notes: seq<Note>, id: int): (r: seq<Note>)
    ensures IsSubsequence(r, notes)
    ensures forall n :: multiset(r)[n] == if n.id != id then multiset(notes)[n] else 0
    ensures forall n :: n in r <==> n in notes && n.id != id
    ensures (forall n :: n in notes ==> n.id != id) ==> r == notes
  {
    var keep := (n: Note) => n.id != id;
    FilterKeepsAll(notes, keep);
    Filter(notes, keep)
  }

  // ---------------------------------------------------------------------------
  // The page's state

  /** The page's `notes` state and the "notes.items" storage slot it is written through to. */
  class NoteStore {
    var notes: seq<Note>
    var saved: seq<Note>

    ghost predicate Valid()
      reads this
    {
      saved == notes
    }

    constructor (stored: Option<seq<Note>>)
      ensures Valid()
      ensures notes == stored.GetOr([])
    {
      notes := stored.GetOr([]);
      saved := notes;
    }

    method Add(draft: NoteDraft, now: int, nowIso: string)
      requires Valid()
      modifies this
      ensures Valid()
      ensures notes == WithNote(old(notes), draft, now, nowIso)
    {
      notes := WithNote(notes, draft, now, nowIso);
      saved := notes;
    }

    method SaveEdit(id: int, newTitle: string, newBody: string)
      requires Valid()
      modifies this
      ensures Valid()
      ensures notes == WithEdit(old(notes), id, newTitle, newBody)
    {
      notes := WithEdit(notes, id, newTitle, newBody);
      saved := notes;
    }

    method Remove(id: int)
      requires Valid()
      modifies this
      ensures Valid()
      ensures notes == WithoutNote(old(notes), id)
    {
      notes := WithoutNote(notes, id);
      saved := notes;
    }
  }
}
