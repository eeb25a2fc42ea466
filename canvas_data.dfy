/** The document state of the editor (src/hooks/useCanvasData.ts): the hook's state cells
    as the fields of a session object, and the note edits as pure rewrites of the document
    that the session's methods apply. */
module CanvasDataHook {
  import opened Wrappers
  import opened CanvasTypes
  import opened Blocks
  import opened YamlCodec

  /** The title a new note gets: Persian when the interface is right-to-left. */
  function NewNoteTitle(lang: Language): string {
    if lang == Fa then "یادداشت جدید" else "New Note"
  }

  /** The note `addNote` appends. */
  function NewNote(id: string, lang: Language): (n: Note)
    ensures n.id == id && n.body == "" && n.color == "yellow"
    ensures n.title == (if lang == Fa then "یادداشت جدید" else "New Note")
  {
    Note(id, NewNoteTitle(lang), "", "yellow")
  }

  /** `{ ...n, [field]: value }` */
  function SetField(n: Note, field: NoteField, value: string): (r: Note)
    ensures field == Id ==> r == n.(id := value)
    ensures field == Title ==> r == n.(title := value)
    ensures field == Body ==> r == n.(body := value)
    ensures field == Color ==> r == n.(color := value)
  {
    match field
    case Id => n.(id := value)
    case Title => n.(title := value)
    case Body => n.(body := value)
    case Color => n.(color := value)
  }

  /** `notes.map(n => n.id === noteId ? { ...n, [field]: value } : n)` */
  function UpdateNotes(ns: seq<Note>, noteId: string, field: NoteField, value: string): (r: seq<Note>)
    ensures |r| == |ns|
    ensures forall i :: 0 <= i < |ns| && ns[i].id != noteId ==> r[i] == ns[i]
    ensures forall i :: 0 <= i < |ns| && ns[i].id == noteId ==> r[i] == SetField(ns[i], field, value)
  {
    seq(|ns|, i requires 0 <= i < |ns| => if ns[i].id == noteId then SetField(ns[i], field, value) else ns[i])
  }

  /** `notes.filter(n => n.id !== noteId)` */
  function RemoveNotes(ns: seq<Note>, noteId: string): (r: seq<Note>)
    ensures |r| <= |ns|
    ensures forall n :: n in r <==> n in ns && n.id != noteId
  {
    if ns == [] then []
    else if ns[0].id == noteId then RemoveNotes(ns[1..], noteId)
    else [ns[0]] + RemoveNotes(ns[1..], noteId)
  }

  /** How many notes carry the id. */
  function CountId(ns: seq<Note>, noteId: string): nat {
    if ns == [] then 0 else (if ns[0].id == noteId then 1 else 0) + CountId(ns[1..], noteId)
  }

  /** The document with block `blockId`'s notes replaced, the block keeping its id and labels. */
  function WithNotes(d: CanvasData, blockId: string, notes: seq<Note>): (r: CanvasData)
    requires blockId in d.blocks
    ensures r.meta == d.meta && r.blocks.Keys == d.blocks.Keys
    ensures forall k :: k in d.blocks && k != blockId ==> r.blocks[k] == d.blocks[k]
    ensures r.blocks[blockId].notes == notes
    ensures r.blocks[blockId].id == d.blocks[blockId].id
    ensures r.blocks[blockId].titleEn == d.blocks[blockId].titleEn
    ensures r.blocks[blockId].titleFa == d.blocks[blockId].titleFa
  {
    d.(blocks := d.blocks[blockId := d.blocks[blockId].(notes := notes)])
  }

  /** `addNote(blockId)` on a document. */
  function AddNoteTo(d: CanvasData, blockId: string, note: Note): CanvasData
    requires blockId in d.blocks
  {
    WithNotes(d, blockId, d.blocks[blockId].notes + [note])
  }

  /** `updateNote(blockId, noteId, field, value)` on a document. */
  function UpdateNoteIn(d: CanvasData, blockId: string, noteId: string, field: NoteField, value: string): CanvasData
    requires blockId in d.blocks
  {
    WithNotes(d, blockId, UpdateNotes(d.blocks[blockId].notes, noteId, field, value))
  }

  /** `deleteNote(blockId, noteId)` on a document. */
  function DeleteNoteFrom(d: CanvasData, blockId: string, noteId: string): CanvasData
    requires blockId in d.blocks
  {
    WithNotes(d, blockId, RemoveNotes(d.blocks[blockId].notes, noteId))
  }

  // ---------------------------------------------------------------------------------
  // Properties of the edits

  /** Adding puts exactly one note, the new one, at the end of the block and touches
      nothing else. */
  lemma AddNoteAppends(d: CanvasData, blockId: string, id: string, lang: Language)
    requires blockId in d.blocks
    ensures var r := AddNoteTo(d, blockId, NewNote(id, lang));
      r.meta == d.meta && r.blocks.Keys == d.blocks.Keys &&
      (forall k :: k in d.blocks && k != blockId ==> r.blocks[k] == d.blocks[k]) &&
      |r.blocks[blockId].notes| == |d.blocks[blockId].notes| + 1 &&
      r.blocks[blockId].notes[..|d.blocks[blockId].notes|] == d.blocks[blockId].notes &&
      r.blocks[blockId].notes[|d.blocks[blockId].notes|] == Note(id, NewNoteTitle(lang), "", "yellow")
  {
  }

  /** An update keeps the number and the order of the notes and changes only `field` of
      the notes with that id. */
  lemma UpdateOnlyTouchesField(ns: seq<Note>, noteId: string, field: NoteField, value: string)
    ensures var r := UpdateNotes(ns, noteId, field, value);
      |r| == |ns| &&
      forall i :: 0 <= i < |ns| ==>
        (field != Id ==> r[i].id == ns[i].id) &&
        (field != Title ==> r[i].title == ns[i].title) &&
        (field != Body ==> r[i].body == ns[i].body) &&
        (field != Color ==> r[i].color == ns[i].color)
  {
  }

  /** Updating an id no note carries leaves the notes equal. */
  lemma UpdateMissingId(ns: seq<Note>, noteId: string, field: NoteField, value: string)
    requires forall i :: 0 <= i < |ns| ==> ns[i].id != noteId
    ensures UpdateNotes(ns, noteId, field, value) == ns
  {
  }

  /** Repeating an update changes nothing more, even when the field is the id. */
  lemma UpdateIdempotent(ns: seq<Note>, noteId: string, field: NoteField, value: string)
    ensures var once := UpdateNotes(ns, noteId, field, value);
      UpdateNotes(once, noteId, field, value) == once
  {
    var once := UpdateNotes(ns, noteId, field, value);
    var twice := UpdateNotes(once, noteId, field, value);
    forall i | 0 <= i < |ns|
      ensures twice[i] == once[i]
    {
      if ns[i].id == noteId {
        assert once[i] == SetField(ns[i], field, value);
      } else if field == Id {
        assert once[i] == ns[i];
      }
    }
  }

  /** Removing drops exactly the notes with that id. */
  lemma {:induction false} RemoveCount(ns: seq<Note>, noteId: string)
    ensures |RemoveNotes(ns, noteId)| == |ns| - CountId(ns, noteId)
  {
    if ns != [] {
      RemoveCount(ns[1..], noteId);
    }
  }

  /** Removal works block segment by block segment, so the kept notes stay in order. */
  lemma {:induction false} RemoveAppend(a: seq<Note>, b: seq<Note>, noteId: string)
    ensures RemoveNotes(a + b, noteId) == RemoveNotes(a, noteId) + RemoveNotes(b, noteId)
  {
    if a == [] {
      assert a + b == b;
    } else {
      assert (a + b)[1..] == a[1..] + b;
      RemoveAppend(a[1..], b, noteId);
    }
  }

  /** Removing an id no note carries leaves the notes equal. */
  lemma {:induction false} RemoveMissingId(ns: seq<Note>, noteId: string)
    requires forall i :: 0 <= i < |ns| ==> ns[i].id != noteId
    ensures RemoveNotes(ns, noteId) == ns
  {
    if ns != [] {
      RemoveMissingId(ns[1..], noteId);
      assert [ns[0]] + ns[1..] == ns;
    }
  }

  /** Deleting a note just added under a fresh id gives the block back. */
  lemma AddThenDelete(d: CanvasData, blockId: string, id: string, lang: Language)
    requires blockId in d.blocks
    requires forall i :: 0 <= i < |d.blocks[blockId].notes| ==> d.blocks[blockId].notes[i].id != id
    ensures DeleteNoteFrom(AddNoteTo(d, blockId, NewNote(id, lang)), blockId, id) == d
  {
    var ns := d.blocks[blockId].notes;
    RemoveAppend(ns, [NewNote(id, lang)], id);
    RemoveMissingId(ns, id);
    assert RemoveNotes([NewNote(id, lang)], id) == [];
    assert ns + [] == ns;
    var r := DeleteNoteFrom(AddNoteTo(d, blockId, NewNote(id, lang)), blockId, id);
    assert r.blocks[blockId] == d.blocks[blockId];
    assert r.blocks == d.blocks;
  }

  /** Every edit keeps a well-formed document well-formed. */
  lemma EditsKeepWellFormed(d: CanvasData, blockId: string, noteId: string, field: NoteField, value: string, id: string, lang: Language)
    requires WellFormed(d) && blockId in d.blocks
    ensures WellFormed(AddNoteTo(d, blockId, NewNote(id, lang)))
    ensures WellFormed(UpdateNoteIn(d, blockId, noteId, field, value))
    ensures WellFormed(DeleteNoteFrom(d, blockId, noteId))
  {
  }

  // ---------------------------------------------------------------------------------
  // The hook's state

  class CanvasSession {
    var data: CanvasData
    var activeTab: EditorTab
    var language: Language
    var isSidebarOpen: bool
    var yamlText: string
    var downloading: bool

    /** The initial state: a copy of the default document, the editor tab, English. */
    constructor()
      ensures data == DEFAULT_DATA && activeTab == Editor && language == En
      ensures isSidebarOpen && yamlText == "" && !downloading
    {
      data := DEFAULT_DATA;
      activeTab := Editor;
      language := En;
      isSidebarOpen := true;
      yamlText := "";
      downloading := false;
    }

    /** `isRTL` */
    predicate IsRTL()
      reads this
    {
      language == Fa
    }

    /** `syncYamlFromData`: the text is regenerated only while the editor tab is active. */
    method SyncYamlFromData(dump: Json -> string)
      modifies this`yamlText
      ensures old(activeTab) == Editor ==> yamlText == SerializeToYaml(dump, data)
      ensures old(activeTab) != Editor ==> yamlText == old(yamlText)
    {
      if activeTab == Editor {
        yamlText := SerializeToYaml(dump, data);
      }
    }

    /** `handleSeed`: the example document replaces the current one only when the user
        confirms. */
    method HandleSeed(confirmed: bool)
      modifies this`data
      ensures confirmed ==> data == SEED_DATA
      ensures !confirmed ==> data == old(data)
    {
      if confirmed {
        data := SEED_DATA;
      }
    }

    /** `handleYamlChange`: the typed text is always kept; the document is replaced only
        by a successful parse. */
    method HandleYamlChange(val: string, load: string -> Option<Json>, newId: (string, nat) -> string)
      modifies this`yamlText, this`data
      ensures yamlText == val
      ensures ParseYaml(load, val, old(data), newId).Some? ==> data == ParseYaml(load, val, old(data), newId).value
      ensures ParseYaml(load, val, old(data), newId).None? ==> data == old(data)
    {
      yamlText := val;
      var parsed := ParseYamlText(load, val, data, newId);
      if parsed.Some? {
        data := parsed.value;
      }
    }

    /** `addNote(blockId)`, with `id` the fresh id. */
    method AddNote(blockId: string, id: string)
      requires blockId in data.blocks
      modifies this`data
      ensures data == AddNoteTo(old(data), blockId, NewNote(id, language))
    {
      var note := Note(id, if IsRTL() then "یادداشت جدید" else "New Note", "", "yellow");
      data := AddNoteTo(data, blockId, note);
    }

    /** `updateNote(blockId, noteId, field, value)` */
    method UpdateNote(blockId: string, noteId: string, field: NoteField, value: string)
      requires blockId in data.blocks
      modifies this`data
      ensures data == UpdateNoteIn(old(data), blockId, noteId, field, value)
    {
      data := UpdateNoteIn(data, blockId, noteId, field, value);
    }

    /** `deleteNote(blockId, noteId)` */
    method DeleteNote(blockId: string, noteId: string)
      requires blockId in data.blocks
      modifies this`data
      ensures data == DeleteNoteFrom(old(data), blockId, noteId)
    {
      data := DeleteNoteFrom(data, blockId, noteId);
    }
  }
}
