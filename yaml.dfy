/** The text form of a document (src/utils/yaml.ts): the serialiser, the merge-parser and
    the validity test. The YAML library itself is not modelled: its printer and parser are
    the parameters `dump` and `load`, working on the `Json` trees below, and `load` answers
    `None` where the library throws. */
module YamlCodec {
  import opened Wrappers
  import opened CanvasTypes
  import opened Blocks

  /** A value as the YAML library hands it to the program. */
  datatype Json =
    | JNull
    | JBool(b: bool)
    | JNum(n: real)
    | JStr(s: string)
    | JArr(items: seq<Json>)
    | JObj(fields: map<string, Json>)

  /** JavaScript truthiness (`NaN` is not a value of this model). */
  predicate Truthy(j: Json) {
    match j
    case JNull => false
    case JBool(b) => b
    case JNum(n) => n != 0.0
    case JStr(s) => s != ""
    case JArr(_) => true
    case JObj(_) => true
  }

  /** `j[key]` on a value that is not `null`: an own field of an object, and `undefined`
      (`None`) for everything else. */
  function Prop(j: Json, key: string): (r: Option<Json>)
    ensures r.Some? <==> j.JObj? && key in j.fields
  {
    if j.JObj? && key in j.fields then Some(j.fields[key]) else None
  }

  /** `v || default` for a note field: a non-empty string is kept, anything falsy gives
      the default. */
  function FieldText(v: Option<Json>, default: string): (r: string)
    ensures (v.Some? && v.value.JStr? && v.value.s != "") ==> r == v.value.s
    ensures !(v.Some? && v.value.JStr? && v.value.s != "") ==> r == default
  {
    match v
    case Some(JStr(s)) => if s != "" then s else default
    case _ => default
  }

  // ---------------------------------------------------------------------------------
  // Serialisation

  /** The tree of a note: title, body and colour; the id is dropped. */
  function NoteTree(n: Note): Json {
    JObj(map["title" := JStr(n.title), "body" := JStr(n.body), "color" := JStr(n.color)])
  }

  function NotesTree(ns: seq<Note>): (r: Json)
    ensures r.JArr? && |r.items| == |ns|
    ensures forall i :: 0 <= i < |ns| ==> r.items[i] == NoteTree(ns[i])
  {
    JArr(seq(|ns|, i requires 0 <= i < |ns| => NoteTree(ns[i])))
  }

  function FontsTree(f: CanvasFonts): Json {
    JObj(map[
      "canvasTitle" := JStr(f.canvasTitle),
      "canvasCaption" := JStr(f.canvasCaption),
      "blockTitle" := JStr(f.blockTitle),
      "noteTitle" := JStr(f.noteTitle),
      "noteBody" := JStr(f.noteBody)])
  }

  function AdvancedTree(a: Advanced): Json {
    JObj(if a.exportScale.Some? then map["exportScale" := JNum(a.exportScale.value)] else map[])
  }

  /** The meta record's own fields, under their own names. */
  const META_KEYS: set<string> :=
    {"title", "caption", "logoUrl", "canvasSize", "backgroundPattern", "noteColumns", "advanced", "fonts"}

  /** The value of one meta field, `None` where the field is not set. */
  function MetaEntry(m: CanvasMeta, key: string): Option<Json> {
    if key == "title" then Some(JStr(m.title))
    else if key == "caption" then Some(JStr(m.caption))
    else if key == "logoUrl" then Some(JStr(m.logoUrl))
    else if key == "canvasSize" && m.canvasSize.Some? then Some(JStr(m.canvasSize.value))
    else if key == "backgroundPattern" && m.backgroundPattern.Some? then Some(JStr(m.backgroundPattern.value))
    else if key == "noteColumns" && m.noteColumns.Some? then Some(JNum(m.noteColumns.value))
    else if key == "advanced" && m.advanced.Some? then Some(AdvancedTree(m.advanced.value))
    else if key == "fonts" && m.fonts.Some? then Some(FontsTree(m.fonts.value))
    else None
  }

  /** The meta record as it is: every field that is set, under its own name. */
  function MetaTree(m: CanvasMeta): Json {
    JObj(map k | k in META_KEYS && MetaEntry(m, k).Some? :: MetaEntry(m, k).value)
  }

  function BlocksTree(blocks: map<string, BlockData>): Json {
    JObj(map k | k in blocks :: NotesTree(blocks[k].notes))
  }

  /** The simplified document handed to the printer. */
  function Tree(d: CanvasData): Json {
    JObj(map["meta" := MetaTree(d.meta), "blocks" := BlocksTree(d.blocks)])
  }

  /** `serializeToYaml` */
  function SerializeToYaml(dump: Json -> string, d: CanvasData): string {
    dump(Tree(d))
  }

  /** The serialised tree keeps the block keys and lists, per block and in order, each
      note's title, body and colour, without its id. */
  lemma SerializedShape(d: CanvasData)
    ensures Tree(d).fields["meta"] == MetaTree(d.meta)
    ensures var b := Tree(d).fields["blocks"];
      b.JObj? && b.fields.Keys == d.blocks.Keys &&
      forall k :: k in d.blocks ==>
        b.fields[k].JArr? && |b.fields[k].items| == |d.blocks[k].notes| &&
        forall i :: 0 <= i < |d.blocks[k].notes| ==>
          var item := b.fields[k].items[i];
          item.JObj? && item.fields.Keys == {"title", "body", "color"} && "id" !in item.fields &&
          item.fields["title"] == JStr(d.blocks[k].notes[i].title) &&
          item.fields["body"] == JStr(d.blocks[k].notes[i].body) &&
          item.fields["color"] == JStr(d.blocks[k].notes[i].color)
  {
  }

  // ---------------------------------------------------------------------------------
  // Parsing

  /** A parsed list item as a note with a fresh id; a `null` item makes the property
      lookup throw, so there is no note. */
  function NoteFrom(item: Json, id: string): (r: Option<Note>)
    ensures r.None? <==> item == JNull
    ensures r.Some? ==> (r.value.id == id
      && r.value.title == FieldText(Prop(item, "title"), "")
      && r.value.body == FieldText(Prop(item, "body"), "")
      && r.value.color == FieldText(Prop(item, "color"), "yellow"))
  {
    if item == JNull then None
    else Some(Note(id, FieldText(Prop(item, "title"), ""), FieldText(Prop(item, "body"), ""),
                   FieldText(Prop(item, "color"), "yellow")))
  }

  /** The new notes of block `key` from its parsed value: an array is mapped item by item
      (the i-th item taking the fresh id `newId(key, i)`), anything else empties the
      block. */
  function BlockNotes(v: Json, key: string, newId: (string, nat) -> string): (r: Option<seq<Note>>)
    ensures !v.JArr? ==> r == Some([])
    ensures v.JArr? ==> (r.None? <==> exists i :: 0 <= i < |v.items| && v.items[i] == JNull)
    ensures v.JArr? && r.Some? ==> (|r.value| == |v.items| &&
      forall i :: 0 <= i < |v.items| ==> Some(r.value[i]) == NoteFrom(v.items[i], newId(key, i)))
  {
    if !v.JArr? then Some([])
    else if exists i :: 0 <= i < |v.items| && v.items[i] == JNull then None
    else Some(seq(|v.items|, i requires 0 <= i < |v.items| => NoteFrom(v.items[i], newId(key, i)).value))
  }

  /** Whether some listed, known block has a `null` item, which aborts the parse. */
  predicate SomeBlockFails(existing: map<string, BlockData>, parsed: map<string, Json>, newId: (string, nat) -> string) {
    exists k :: k in parsed && k in existing && BlockNotes(parsed[k], k, newId).None?
  }

  /** The block map after the merge: a known key listed in the parsed blocks gets its new
      notes (keeping its id and labels), every other block is kept, and unknown parsed keys
      are ignored. */
  function MergedBlocks(existing: map<string, BlockData>, parsed: map<string, Json>, newId: (string, nat) -> string): (r: Option<map<string, BlockData>>)
    ensures r.None? <==> SomeBlockFails(existing, parsed, newId)
    ensures r.Some? ==> r.value.Keys == existing.Keys
  {
    if SomeBlockFails(existing, parsed, newId) then None
    else Some(map k | k in existing ::
      if k in parsed then existing[k].(notes := BlockNotes(parsed[k], k, newId).value) else existing[k])
  }

  /** `{ ...meta, ...parsed.meta }` on one string field. */
  function StrField(f: map<string, Json>, key: string, prev: string): string {
    if key in f && f[key].JStr? then f[key].s else prev
  }

  /** The same on an optional string field, where `null` clears it. */
  function OptStrField(f: map<string, Json>, key: string, prev: Option<string>): Option<string> {
    if key in f && f[key].JStr? then Some(f[key].s)
    else if key in f && f[key] == JNull then None
    else prev
  }

  function OptNumField(f: map<string, Json>, key: string, prev: Option<real>): Option<real> {
    if key in f && f[key].JNum? then Some(f[key].n)
    else if key in f && f[key] == JNull then None
    else prev
  }

  /** A parsed `advanced` object replaces the old one whole. */
  function AdvancedField(f: map<string, Json>, prev: Option<Advanced>): Option<Advanced> {
    if "advanced" in f && f["advanced"].JObj? then
      var g := f["advanced"].fields;
      Some(Advanced(if "exportScale" in g && g["exportScale"].JNum? then Some(g["exportScale"].n) else None))
    else if "advanced" in f && f["advanced"] == JNull then None
    else prev
  }

  /** Whether a parsed value is a full font record: five string roles. */
  predicate IsFontsTree(j: Json) {
    j.JObj? && forall role :: role in ["canvasTitle", "canvasCaption", "blockTitle", "noteTitle", "noteBody"] ==>
      role in j.fields && j.fields[role].JStr?
  }

  /** A parsed `fonts` record replaces the old one whole. */
  function FontsField(f: map<string, Json>, prev: Option<CanvasFonts>): Option<CanvasFonts> {
    if "fonts" in f && IsFontsTree(f["fonts"]) then
      var g := f["fonts"].fields;
      Some(CanvasFonts(g["canvasTitle"].s, g["canvasCaption"].s, g["blockTitle"].s, g["noteTitle"].s, g["noteBody"].s))
    else if "fonts" in f && f["fonts"] == JNull then None
    else prev
  }

  /** `{ ...existingData.meta, ...parsed.meta }`: a field the parsed meta object sets
      overrides the old one, every other field is kept. */
  function MergeMeta(m: CanvasMeta, p: Option<Json>): CanvasMeta {
    match p
    case Some(JObj(f)) =>
      CanvasMeta(
        StrField(f, "title", m.title),
        StrField(f, "caption", m.caption),
        StrField(f, "logoUrl", m.logoUrl),
        OptStrField(f, "canvasSize", m.canvasSize),
        OptStrField(f, "backgroundPattern", m.backgroundPattern),
        OptNumField(f, "noteColumns", m.noteColumns),
        AdvancedField(f, m.advanced),
        FontsField(f, m.fonts))
    case _ => m
  }

  /** The outcome of `parseYaml` for a loaded tree. */
  function ParseTree(t: Json, existing: CanvasData, newId: (string, nat) -> string): (r: Option<CanvasData>)
    ensures r.Some? ==> r.value.blocks.Keys == existing.blocks.Keys
  {
    if !Truthy(t) then None
    else
      var blocks := Prop(t, "blocks");
      if blocks.None? || !Truthy(blocks.value) then None
      else
        var parsed := if blocks.value.JObj? then blocks.value.fields else map[];
        match MergedBlocks(existing.blocks, parsed, newId)
        case None => None
        case Some(nb) => Some(CanvasData(MergeMeta(existing.meta, Prop(t, "meta")), nb))
  }

  /** `parseYaml(text, existing)`: `None` wherever the source returns `null`. */
  function ParseYaml(load: string -> Option<Json>, text: string, existing: CanvasData, newId: (string, nat) -> string): Option<CanvasData> {
    match load(text)
    case None => None
    case Some(t) => ParseTree(t, existing, newId)
  }

  /** `isValidYaml`: the library accepts the text. */
  predicate IsValidYaml(load: string -> Option<Json>, text: string) {
    load(text).Some?
  }

  /** The `forEach` over the parsed block keys, overwriting entries of a copy of the
      existing block map one key at a time. */
  method MergeBlocksLoop(existing: map<string, BlockData>, parsed: map<string, Json>, newId: (string, nat) -> string)
    returns (r: Option<map<string, BlockData>>)
    ensures r == MergedBlocks(existing, parsed, newId)
  {
    var newBlocks := existing;
    var todo := parsed.Keys;
    while todo != {}
      invariant todo <= parsed.Keys
      invariant newBlocks.Keys == existing.Keys
      invariant forall k :: k in existing && k in parsed && k !in todo ==> BlockNotes(parsed[k], k, newId).Some?
      invariant forall k :: k in newBlocks ==> (newBlocks[k] ==
        if k in parsed && k !in todo then existing[k].(notes := BlockNotes(parsed[k], k, newId).value) else existing[k])
      decreases |todo|
    {
      var key :| key in todo;
      if key in newBlocks {
        var notes := BlockNotes(parsed[key], key, newId);
        if notes.None? {
          assert key in parsed && key in existing && BlockNotes(parsed[key], key, newId).None?;
          return None;
        }
        newBlocks := newBlocks[key := newBlocks[key].(notes := notes.value)];
      }
      todo := todo - {key};
    }
    assert !SomeBlockFails(existing, parsed, newId);
    r := Some(newBlocks);
    assert r.value == MergedBlocks(existing, parsed, newId).value;
  }

  /** `parseYaml`, statement by statement, with the block merge's corrected key test
      (`MergeBlocksLoop`); `ParseTreeAsWritten` keeps the source's test. */
  method ParseYamlText(load: string -> Option<Json>, text: string, existing: CanvasData, newId: (string, nat) -> string)
    returns (r: Option<CanvasData>)
    ensures r == ParseYaml(load, text, existing, newId)
  {
    var loaded := load(text);
    if loaded.None? {
      return None;
    }
    var parsed := loaded.value;
    var blocks := Prop(parsed, "blocks");
    if !Truthy(parsed) || blocks.None? || !Truthy(blocks.value) {
      return None;
    }
    var keyed := if blocks.value.JObj? then blocks.value.fields else map[];
    var newBlocks := MergeBlocksLoop(existing.blocks, keyed, newId);
    if newBlocks.None? {
      return None;
    }
    r := Some(CanvasData(MergeMeta(existing.meta, Prop(parsed, "meta")), newBlocks.value));
  }

  // ---------------------------------------------------------------------------------
  // Properties of the parser

  /** No document comes out when the library throws, when the loaded value is falsy, or
      when it has no truthy `blocks`. */
  lemma ParseNullCases(load: string -> Option<Json>, text: string, existing: CanvasData, newId: (string, nat) -> string)
    ensures load(text).None? ==> ParseYaml(load, text, existing, newId).None?
    ensures load(text).Some? && !Truthy(load(text).value) ==> ParseYaml(load, text, existing, newId).None?
    ensures load(text).Some? && (Prop(load(text).value, "blocks").None? || !Truthy(Prop(load(text).value, "blocks").value))
      ==> ParseYaml(load, text, existing, newId).None?
  {
  }

  /** A value the source accepts parses exactly when no listed block has a `null` item. */
  lemma ParseSucceeds(t: Json, existing: CanvasData, newId: (string, nat) -> string)
    requires t.JObj? && "blocks" in t.fields && t.fields["blocks"].JObj?
    ensures ParseTree(t, existing, newId).Some? <==> !SomeBlockFails(existing.blocks, t.fields["blocks"].fields, newId)
  {
  }

  /** A parse never adds or drops a block, and keeps each block's id, so it keeps a
      well-formed document well-formed. */
  lemma ParseKeepsBlocks(t: Json, existing: CanvasData, newId: (string, nat) -> string)
    requires ParseTree(t, existing, newId).Some?
    ensures var d := ParseTree(t, existing, newId).value;
      d.blocks.Keys == existing.blocks.Keys &&
      forall k :: k in d.blocks ==> d.blocks[k].id == existing.blocks[k].id
    ensures WellFormed(existing) ==> WellFormed(ParseTree(t, existing, newId).value)
  {
  }

  /** The per-block rule: a listed known block takes its parsed notes (an array mapped in
      order to fresh-id notes with defaults, anything else giving no notes), an unlisted
      block keeps its notes. */
  lemma ParseBlockRule(t: Json, existing: CanvasData, newId: (string, nat) -> string, k: string)
    requires ParseTree(t, existing, newId).Some? && k in existing.blocks
    ensures var d := ParseTree(t, existing, newId).value;
      var listed := if t.fields["blocks"].JObj? then t.fields["blocks"].fields else map[];
      (k !in listed ==> d.blocks[k] == existing.blocks[k]) &&
      (k in listed && !listed[k].JArr? ==> d.blocks[k].notes == []) &&
      (k in listed && listed[k].JArr? ==>
        |d.blocks[k].notes| == |listed[k].items| &&
        forall i :: 0 <= i < |listed[k].items| ==>
          var item := listed[k].items[i];
          var n := d.blocks[k].notes[i];
          n.id == newId(k, i) &&
          n.title == FieldText(Prop(item, "title"), "") &&
          n.body == FieldText(Prop(item, "body"), "") &&
          n.color == FieldText(Prop(item, "color"), "yellow"))
  {
    var listed := if t.fields["blocks"].JObj? then t.fields["blocks"].fields else map[];
    var d := ParseTree(t, existing, newId).value;
    if k in listed && listed[k].JArr? {
      var notes := BlockNotes(listed[k], k, newId).value;
      assert d.blocks[k].notes == notes;
      forall i | 0 <= i < |listed[k].items|
        ensures notes[i].id == newId(k, i)
      {
        assert Some(notes[i]) == NoteFrom(listed[k].items[i], newId(k, i));
      }
    }
  }

  /** The meta merge: a field the parsed meta sets (with a value of the field's type)
      overrides, a field it does not mention is kept. */
  lemma MetaShallowMerge(m: CanvasMeta, f: map<string, Json>)
    ensures var r := MergeMeta(m, Some(JObj(f)));
      ("title" in f && f["title"].JStr? ==> r.title == f["title"].s) &&
      ("title" !in f ==> r.title == m.title) &&
      ("caption" in f && f["caption"].JStr? ==> r.caption == f["caption"].s) &&
      ("caption" !in f ==> r.caption == m.caption) &&
      ("logoUrl" in f && f["logoUrl"].JStr? ==> r.logoUrl == f["logoUrl"].s) &&
      ("logoUrl" !in f ==> r.logoUrl == m.logoUrl) &&
      ("canvasSize" in f && f["canvasSize"].JStr? ==> r.canvasSize == Some(f["canvasSize"].s)) &&
      ("canvasSize" !in f ==> r.canvasSize == m.canvasSize) &&
      ("backgroundPattern" in f && f["backgroundPattern"].JStr? ==> r.backgroundPattern == Some(f["backgroundPattern"].s)) &&
      ("backgroundPattern" !in f ==> r.backgroundPattern == m.backgroundPattern) &&
      ("noteColumns" in f && f["noteColumns"].JNum? ==> r.noteColumns == Some(f["noteColumns"].n)) &&
      ("noteColumns" !in f ==> r.noteColumns == m.noteColumns) &&
      ("advanced" !in f ==> r.advanced == m.advanced) &&
      ("fonts" !in f ==> r.fonts == m.fonts)
    ensures MergeMeta(m, Some(JObj(map[]))) == m
  {
  }

  /** The meta merge on the two nested records: a parsed `advanced` object replaces the
      old one, with its `exportScale` when that is a number, and a full parsed `fonts`
      record replaces the old one role by role. */
  lemma MetaRecordsReplace(m: CanvasMeta, f: map<string, Json>)
    ensures var r := MergeMeta(m, Some(JObj(f)));
      ("advanced" in f && f["advanced"].JObj? ==>
        (var g := f["advanced"].fields;
         r.advanced.Some? &&
         r.advanced.value.exportScale == (if "exportScale" in g && g["exportScale"].JNum? then Some(g["exportScale"].n) else None)))
    ensures var r := MergeMeta(m, Some(JObj(f)));
      ("fonts" in f && IsFontsTree(f["fonts"]) ==> r.fonts.Some? && FontsFrom(r.fonts.value, f["fonts"].fields))
  {
    AdvancedReplaced(f, m.advanced);
    FontsReplaced(f, m.fonts);
  }

  lemma AdvancedReplaced(f: map<string, Json>, prev: Option<Advanced>)
    ensures "advanced" in f && f["advanced"].JObj? ==>
      (var g := f["advanced"].fields;
       AdvancedField(f, prev) == Some(Advanced(if "exportScale" in g && g["exportScale"].JNum? then Some(g["exportScale"].n) else None)))
  {
  }

  lemma FontsReplaced(f: map<string, Json>, prev: Option<CanvasFonts>)
    ensures "fonts" in f && IsFontsTree(f["fonts"]) ==>
      FontsField(f, prev).Some? && FontsFrom(FontsField(f, prev).value, f["fonts"].fields)
  {
    if "fonts" in f && IsFontsTree(f["fonts"]) {
      var g := f["fonts"].fields;
      assert "canvasTitle" in g && "canvasCaption" in g && "blockTitle" in g && "noteTitle" in g && "noteBody" in g;
    }
  }

  /** A font record holds the five roles of a parsed full font tree. */
  predicate FontsFrom(fonts: CanvasFonts, g: map<string, Json>) {
    "canvasTitle" in g && g["canvasTitle"].JStr? && fonts.canvasTitle == g["canvasTitle"].s &&
    "canvasCaption" in g && g["canvasCaption"].JStr? && fonts.canvasCaption == g["canvasCaption"].s &&
    "blockTitle" in g && g["blockTitle"].JStr? && fonts.blockTitle == g["blockTitle"].s &&
    "noteTitle" in g && g["noteTitle"].JStr? && fonts.noteTitle == g["noteTitle"].s &&
    "noteBody" in g && g["noteBody"].JStr? && fonts.noteBody == g["noteBody"].s
  }

  /** A parsed `null` clears an optional meta field. */
  lemma MetaNullClears(m: CanvasMeta, f: map<string, Json>)
    ensures var r := MergeMeta(m, Some(JObj(f)));
      ("canvasSize" in f && f["canvasSize"] == JNull ==> r.canvasSize.None?) &&
      ("backgroundPattern" in f && f["backgroundPattern"] == JNull ==> r.backgroundPattern.None?) &&
      ("noteColumns" in f && f["noteColumns"] == JNull ==> r.noteColumns.None?) &&
      ("advanced" in f && f["advanced"] == JNull ==> r.advanced.None?) &&
      ("fonts" in f && f["fonts"] == JNull ==> r.fonts.None?)
  {
  }

  /** A parsed value without a meta object leaves the meta as it was. */
  lemma MissingMetaKept(m: CanvasMeta, p: Option<Json>)
    requires p.None? || !p.value.JObj?
    ensures MergeMeta(m, p) == m
  {
  }

  /** Text the library accepts is valid; and a parse result implies validity. */
  lemma ParseImpliesValid(load: string -> Option<Json>, text: string, existing: CanvasData, newId: (string, nat) -> string)
    ensures ParseYaml(load, text, existing, newId).Some? ==> IsValidYaml(load, text)
    ensures !IsValidYaml(load, text) ==> ParseYaml(load, text, existing, newId).None?
  {
  }

  /** Validity does not imply a parse: a valid text whose value has no `blocks` parses to
      nothing. */
  lemma ValidWithoutBlocks(load: string -> Option<Json>, text: string, existing: CanvasData, newId: (string, nat) -> string)
    requires load(text) == Some(JObj(map["meta" := JObj(map["title" := JStr("T")])]))
    ensures IsValidYaml(load, text) && ParseYaml(load, text, existing, newId).None?
  {
    assert Prop(load(text).value, "blocks").None?;
  }

  /** The notes of a block with every id replaced by a fresh one. */
  function Reissued(ns: seq<Note>, key: string, newId: (string, nat) -> string): (r: seq<Note>)
    ensures |r| == |ns|
    ensures forall i :: 0 <= i < |ns| ==> r[i] == ns[i].(id := newId(key, i))
  {
    seq(|ns|, i requires 0 <= i < |ns| => ns[i].(id := newId(key, i)))
  }

  predicate ColorsSet(d: CanvasData) {
    forall k, i :: k in d.blocks && 0 <= i < |d.blocks[k].notes| ==> d.blocks[k].notes[i].color != ""
  }

  /** What the meta tree holds under each name. */
  lemma MetaTreeFields(m: CanvasMeta)
    ensures var f := MetaTree(m).fields;
      StrField(f, "title", "") == m.title && StrField(f, "caption", "") == m.caption &&
      StrField(f, "logoUrl", "") == m.logoUrl &&
      ("canvasSize" in f <==> m.canvasSize.Some?) &&
      (m.canvasSize.Some? ==> f["canvasSize"] == JStr(m.canvasSize.value)) &&
      ("backgroundPattern" in f <==> m.backgroundPattern.Some?) &&
      (m.backgroundPattern.Some? ==> f["backgroundPattern"] == JStr(m.backgroundPattern.value)) &&
      ("noteColumns" in f <==> m.noteColumns.Some?) &&
      (m.noteColumns.Some? ==> f["noteColumns"] == JNum(m.noteColumns.value)) &&
      ("advanced" in f <==> m.advanced.Some?) &&
      (m.advanced.Some? ==> f["advanced"] == AdvancedTree(m.advanced.value)) &&
      ("fonts" in f <==> m.fonts.Some?) &&
      (m.fonts.Some? ==> f["fonts"] == FontsTree(m.fonts.value))
  {
  }

  /** Merging a meta record's own tree into it changes nothing. */
  lemma MergeOwnMeta(m: CanvasMeta)
    ensures MergeMeta(m, Some(MetaTree(m))) == m
  {
    var f := MetaTree(m).fields;
    MetaTreeFields(m);
    OwnOptStr(f, "canvasSize", m.canvasSize);
    OwnOptStr(f, "backgroundPattern", m.backgroundPattern);
    OwnOptNum(f, "noteColumns", m.noteColumns);
    OwnAdvanced(f, m.advanced);
    OwnFonts(f, m.fonts);
    assert MetaTree(m) == JObj(f);
  }

  lemma OwnOptStr(f: map<string, Json>, key: string, v: Option<string>)
    requires (key in f <==> v.Some?) && (v.Some? ==> f[key] == JStr(v.value))
    ensures OptStrField(f, key, v) == v
  {
  }

  lemma OwnOptNum(f: map<string, Json>, key: string, v: Option<real>)
    requires (key in f <==> v.Some?) && (v.Some? ==> f[key] == JNum(v.value))
    ensures OptNumField(f, key, v) == v
  {
  }

  lemma OwnAdvanced(f: map<string, Json>, v: Option<Advanced>)
    requires ("advanced" in f <==> v.Some?) && (v.Some? ==> f["advanced"] == AdvancedTree(v.value))
    ensures AdvancedField(f, v) == v
  {
  }

  lemma OwnFonts(f: map<string, Json>, v: Option<CanvasFonts>)
    requires ("fonts" in f <==> v.Some?) && (v.Some? ==> f["fonts"] == FontsTree(v.value))
    ensures FontsField(f, v) == v
  {
    if v.Some? {
      assert IsFontsTree(f["fonts"]);
    }
  }

  /** The notes parsed back from a serialised block are the block's notes with fresh ids,
      provided every colour is set. */
  lemma NotesRoundTrip(ns: seq<Note>, key: string, newId: (string, nat) -> string)
    requires forall i :: 0 <= i < |ns| ==> ns[i].color != ""
    ensures BlockNotes(NotesTree(ns), key, newId) == Some(Reissued(ns, key, newId))
  {
    var items := NotesTree(ns).items;
    forall i | 0 <= i < |items|
      ensures items[i] != JNull && NoteFrom(items[i], newId(key, i)) == Some(ns[i].(id := newId(key, i)))
    {
      assert items[i] == NoteTree(ns[i]);
      assert Prop(items[i], "title") == Some(JStr(ns[i].title));
      assert Prop(items[i], "body") == Some(JStr(ns[i].body));
      assert Prop(items[i], "color") == Some(JStr(ns[i].color));
    }
    var r := BlockNotes(NotesTree(ns), key, newId);
    assert r.Some?;
    assert r.value == Reissued(ns, key, newId);
  }

  /** Serialising a document and parsing the text back against the same document gives it
      back with fresh note ids: same meta, same blocks, same notes in the same order with the
      same title, body and colour. The library is assumed to read back what it printed. */
  lemma RoundTrip(load: string -> Option<Json>, dump: Json -> string, d: CanvasData, newId: (string, nat) -> string)
    requires load(dump(Tree(d))) == Some(Tree(d))
    requires ColorsSet(d)
    ensures var r := ParseYaml(load, SerializeToYaml(dump, d), d, newId);
      r.Some? && r.value.meta == d.meta && r.value.blocks.Keys == d.blocks.Keys &&
      forall k :: k in d.blocks ==> r.value.blocks[k] == d.blocks[k].(notes := Reissued(d.blocks[k].notes, k, newId))
  {
    var t := Tree(d);
    assert ParseYaml(load, SerializeToYaml(dump, d), d, newId) == ParseTree(t, d, newId);
    assert Prop(t, "blocks") == Some(BlocksTree(d.blocks));
    assert Prop(t, "meta") == Some(MetaTree(d.meta));
    OwnBlocksMerge(d.blocks, newId);
    MergeOwnMeta(d.meta);
    var nb := MergedBlocks(d.blocks, BlocksTree(d.blocks).fields, newId).value;
    assert ParseTree(t, d, newId) == Some(CanvasData(d.meta, nb));
  }

  /** Merging a block map's own serialised blocks into it reissues every block's notes. */
  lemma OwnBlocksMerge(blocks: map<string, BlockData>, newId: (string, nat) -> string)
    requires forall k, i :: k in blocks && 0 <= i < |blocks[k].notes| ==> blocks[k].notes[i].color != ""
    ensures var r := MergedBlocks(blocks, BlocksTree(blocks).fields, newId);
      r.Some? && r.value.Keys == blocks.Keys &&
      forall k :: k in blocks ==> r.value[k] == blocks[k].(notes := Reissued(blocks[k].notes, k, newId))
  {
    var listed := BlocksTree(blocks).fields;
    forall k | k in blocks
      ensures BlockNotes(listed[k], k, newId) == Some(Reissued(blocks[k].notes, k, newId))
    {
      NotesRoundTrip(blocks[k].notes, k, newId);
    }
    assert !SomeBlockFails(blocks, listed, newId);
  }

  /** A parsed note with an empty or missing colour is yellow; title and body default to
      the empty string. */
  lemma FieldDefaults(item: Json, id: string)
    requires item.JObj? && item.fields == map["color" := JStr("")]
    ensures NoteFrom(item, id) == Some(Note(id, "", "", "yellow"))
  {
  }

  // ---------------------------------------------------------------------------------
  // The membership test as written

  /** The names a plain object inherits from `Object.prototype`, for which `newBlocks[key]`
      is truthy although the map has no such block (`__proto__` is left out: assigning it
      changes the prototype and adds no key). */
  const INHERITED_NAMES: set<string> := {
    "constructor", "hasOwnProperty", "isPrototypeOf", "propertyIsEnumerable",
    "toLocaleString", "toString", "valueOf", "__defineGetter__", "__defineSetter__",
    "__lookupGetter__", "__lookupSetter__"
  }

  /** `newBlocks[key]` as written: an own block, or an inherited member. */
  predicate LooksPresent(existing: map<string, BlockData>, k: string) {
    k in existing || k in INHERITED_NAMES
  }

  /** The block map the source builds: a listed inherited name becomes a new entry holding
      only `notes` (the other fields are shown here as empty strings). */
  function MergedBlocksAsWritten(existing: map<string, BlockData>, parsed: map<string, Json>, newId: (string, nat) -> string): (r: Option<map<string, BlockData>>)
    ensures r.Some? ==> r.value.Keys == existing.Keys + (parsed.Keys * INHERITED_NAMES)
  {
    if exists k :: k in parsed && LooksPresent(existing, k) && BlockNotes(parsed[k], k, newId).None? then None
    else Some(map k | k in existing.Keys + (parsed.Keys * INHERITED_NAMES) ::
      if k in parsed then
        (if k in existing then existing[k] else BlockData("", "", "", [])).(notes := BlockNotes(parsed[k], k, newId).value)
      else existing[k])
  }

  /** A text listing `toString` under `blocks` adds a fourteenth block to the default
      document in the source, while the corrected merge keeps the 13 keys. */
  lemma InheritedNameAddsBlock(newId: (string, nat) -> string)
    ensures var parsed := map["toString" := JArr([])];
      var asWritten := MergedBlocksAsWritten(DEFAULT_DATA.blocks, parsed, newId);
      var corrected := MergedBlocks(DEFAULT_DATA.blocks, parsed, newId);
      asWritten.Some? && "toString" in asWritten.value && "toString" !in DEFAULT_DATA.blocks &&
      corrected.Some? && corrected.value.Keys == DEFAULT_DATA.blocks.Keys
  {
    var parsed := map["toString" := JArr([])];
    assert "toString" !in DEFAULT_DATA.blocks;
    assert BlockNotes(parsed["toString"], "toString", newId) == Some([]);
    assert !(exists k :: k in parsed && LooksPresent(DEFAULT_DATA.blocks, k) && BlockNotes(parsed[k], k, newId).None?);
  }

  /** The block keys a loaded value lists under `blocks` (none when `blocks` is not an
      object). */
  function ListedBlocks(t: Json): map<string, Json> {
    var blocks := Prop(t, "blocks");
    if blocks.Some? && blocks.value.JObj? then blocks.value.fields else map[]
  }

  /** `parseYaml` for a loaded value with yaml.ts:55's test as written: a listed inherited
      name is merged as a block of its own. */
  function ParseTreeAsWritten(t: Json, existing: CanvasData, newId: (string, nat) -> string): (r: Option<CanvasData>)
    ensures r.Some? ==> r.value.blocks.Keys == existing.blocks.Keys + (ListedBlocks(t).Keys * INHERITED_NAMES)
  {
    if !Truthy(t) then None
    else
      var blocks := Prop(t, "blocks");
      if blocks.None? || !Truthy(blocks.value) then None
      else
        match MergedBlocksAsWritten(existing.blocks, ListedBlocks(t), newId)
        case None => None
        case Some(nb) => Some(CanvasData(MergeMeta(existing.meta, Prop(t, "meta")), nb))
  }

  /** The parse as written and the corrected parse agree whenever every listed inherited
      name is an own block. */
  lemma ParseAsWrittenAgreesOtherwise(t: Json, existing: CanvasData, newId: (string, nat) -> string)
    requires ListedBlocks(t).Keys * INHERITED_NAMES <= existing.blocks.Keys
    ensures ParseTreeAsWritten(t, existing, newId) == ParseTree(t, existing, newId)
  {
    AsWrittenAgreesOtherwise(existing.blocks, ListedBlocks(t), newId);
  }

  /** `blocks: { toString: [null] }` makes the source's parse fail, since the inherited
      name passes the test and its `null` item throws, while the corrected parse ignores
      the unknown key and succeeds. */
  lemma InheritedNullAbortsParse(newId: (string, nat) -> string)
    ensures var t := JObj(map["blocks" := JObj(map["toString" := JArr([JNull])])]);
      ParseTreeAsWritten(t, DEFAULT_DATA, newId).None? && ParseTree(t, DEFAULT_DATA, newId).Some?
  {
    var listed := map["toString" := JArr([JNull])];
    var t := JObj(map["blocks" := JObj(listed)]);
    assert "toString" !in DEFAULT_DATA.blocks;
    InheritedNullMerge(DEFAULT_DATA.blocks, newId);
    ParseFollowsMerge(t, DEFAULT_DATA, newId);
  }

  /** For a loaded object with a `blocks` object, each parse fails exactly when its merge
      does. */
  lemma ParseFollowsMerge(t: Json, existing: CanvasData, newId: (string, nat) -> string)
    requires t.JObj? && "blocks" in t.fields && t.fields["blocks"].JObj?
    ensures ParseTreeAsWritten(t, existing, newId).None? <==>
      MergedBlocksAsWritten(existing.blocks, t.fields["blocks"].fields, newId).None?
    ensures ParseTree(t, existing, newId).None? <==>
      MergedBlocks(existing.blocks, t.fields["blocks"].fields, newId).None?
  {
    assert ListedBlocks(t) == t.fields["blocks"].fields;
  }

  /** Listing `toString` with a `null` item fails the merge as written and is ignored by
      the corrected merge, whenever `toString` is not an own block. */
  lemma InheritedNullMerge(existing: map<string, BlockData>, newId: (string, nat) -> string)
    requires "toString" !in existing
    ensures var listed := map["toString" := JArr([JNull])];
      MergedBlocksAsWritten(existing, listed, newId).None? &&
      MergedBlocks(existing, listed, newId).Some?
  {
    var listed := map["toString" := JArr([JNull])];
    assert BlockNotes(listed["toString"], "toString", newId).None? by {
      assert listed["toString"].items[0] == JNull;
    }
    assert LooksPresent(existing, "toString");
    assert !SomeBlockFails(existing, listed, newId);
  }

  /** The two merges agree whenever no inherited name is listed. */
  lemma AsWrittenAgreesOtherwise(existing: map<string, BlockData>, parsed: map<string, Json>, newId: (string, nat) -> string)
    requires parsed.Keys * INHERITED_NAMES <= existing.Keys
    ensures MergedBlocksAsWritten(existing, parsed, newId) == MergedBlocks(existing, parsed, newId)
  {
    var a := MergedBlocksAsWritten(existing, parsed, newId);
    var b := MergedBlocks(existing, parsed, newId);
    assert existing.Keys + (parsed.Keys * INHERITED_NAMES) == existing.Keys;
    if a.Some? && b.Some? {
      assert a.value == b.value;
    }
  }
}
