# Actualization canvas editor: a verified model of the document core

This project models the core of the Actualization web editor for 13-block business model
canvases and proves properties of that model. The model covers:

- **The canvas document.** A `CanvasData` holds a metadata record and a map from block key to
  a block of sticky notes.
- **The edits the editor makes to it.** These are adding, updating and deleting notes, loading
  the example document, and typing YAML text.
- **The YAML text view.** `serializeToYaml` projects the document to a tree and prints it.
  `parseYaml` merges a parsed tree back into the current document.
- **The fixed data.** This is the 13-key block enumeration, the default and example documents,
  the note colour tables and the font catalogue.
- **The image export.** The model keeps the file name and the control flow of
  `handleDownload`.
- **The logo input of the sidebar.** This covers the paste classifier, the URL-to-data-URL
  conversion with its guard, upload, URL submit and Remove. It also covers the metadata
  controls: title, caption, logo, canvas size and the note colour buttons.
- **The Google Fonts loader.** A process-wide cache of requested families, plus the stylesheet
  URL built for the families not yet requested.
- **The font picker.** The font records it emits and the grouped options it lists.

Modules follow the source files:

| module | file | source |
|---|---|---|
| `Wrappers`, `Seqs` | `wrappers.dfy`, `seqs.dfy` | `Option`; distinctness of sequences |
| `CanvasTypes` | `types.dfy` | src/types/canvas.ts |
| `JsText` | `jstext.dfy` | the JavaScript string operations used: `trim`, `\s`, `startsWith`, `includes`, `replace`, `join` |
| `Blocks` | `blocks.dfy` | src/constants/blocks.ts |
| `Fonts` | `fonts.dfy` | src/constants/fonts.ts |
| `YamlCodec` | `yaml.dfy` | src/utils/yaml.ts |
| `CanvasDataHook` | `canvas_data.dfy` | src/hooks/useCanvasData.ts (class `CanvasSession`) |
| `ExportPage` | `page.dfy` | src/app/page.tsx (class `Page`) |
| `EditorSidebar` | `editor_sidebar.dfy` | src/components/EditorSidebar.tsx (class `LogoInput`) |
| `GoogleFonts` | `google_fonts.dfy` | src/hooks/useGoogleFonts.ts (class `FontCache`) |
| `FontSelector` | `font_selector.dfy` | src/components/FontSelector.tsx |

The YAML library (`yaml.load` / `yaml.dump`) is a pair of function parameters over a
JSON-like `Json` datatype:

- `load` is partial: `None` means that it throws.
- The library's round trip is a precondition of the round-trip lemma:
  `load(dump(Tree(d))) == Some(Tree(d))`.
- `generateId` is a parameter that supplies ids. `newId(key, i)` is the id of the `i`-th parsed
  note of block `key`; `addNote` is given its id.

A note's colour and the canvas size stay strings, because the source casts parsed values to
them without checking. Where the TypeScript types and the code disagree, the model follows
the code. For example, a typed `canvasSize` of `'A4' | 'A3' | 'A2' | 'A1'` can still hold any
parsed string, or be unset (`Option<string>`).

## Model

| member | source | states |
|---|---|---|
| Blocks.BlockIdsDistinct | src/constants/blocks.ts:3-17 | the block enumeration has exactly 13 keys, pairwise distinct |
| Blocks.DefaultDataWellFormed | src/constants/blocks.ts:27-113 | the default document's block keys are exactly `BLOCK_IDS`, and every block's `id` is its key |
| Blocks.SeedDataWellFormed | src/constants/blocks.ts:122-265 | the example document's block keys are exactly `BLOCK_IDS`, and every block's `id` is its key |
| Blocks.SeedBlocksNonEmpty | src/constants/blocks.ts:127-263 | every block of the example document has at least one note |
| Blocks.SeedNoteIds | src/constants/blocks.ts:127-263 | the example document's note ids, read block by block in `BLOCK_IDS` order, are the 26 literal ids |
| Blocks.SeedNoteIdsDistinct | src/constants/blocks.ts:127-263 | the example document has 26 notes whose ids are pairwise distinct |
| Blocks.DefaultNotes | src/constants/blocks.ts:38-45 | the default document has one note each in `problem`, `valuePropositions` and `customerSegments`, and none elsewhere |
| Blocks.NoteColorTables | src/constants/blocks.ts:268-282 | the Tailwind class table and the swatch table are both keyed by exactly the five note colours |
| Blocks.BuiltInTitles | src/constants/blocks.ts:23 | the default title is "My Awesome Startup" and the example title is "EcoScoot" |
| Fonts.CatalogueLabelsAreValues | src/constants/fonts.ts:9-78 | every catalogue entry's label equals its family name |
| Fonts.GroupsHaveTheirCategory | src/constants/fonts.ts:9-78 | each of the five declared groups holds only entries of its own category |
| Fonts.CatalogueGroupedByCategory | src/constants/fonts.ts:4-78 | the catalogue is ordered sans-serif, serif, display, handwriting, monospace, and no category resumes after another has started |
| Fonts.SortedIsContiguous | src/constants/fonts.ts:4-78 | any list sorted by category rank is contiguous by category |
| Fonts.CatalogueValues | src/constants/fonts.ts:9-78 | the catalogue's family names are the five groups' names, group after group |
| Fonts.CatalogueValuesDistinct | src/constants/fonts.ts:9-78 | the catalogue has 62 entries and no family name occurs twice |
| Fonts.DefaultFontsInCatalogue | src/constants/fonts.ts:81-87 | every role of `DEFAULT_FONTS` names a catalogue family |
| YamlCodec.SerializedShape | src/utils/yaml.ts:23-37 | the printed tree holds the meta record unchanged, and under each block key that block's notes in order as `{title, body, color}` without ids |
| YamlCodec.NoteFrom | src/utils/yaml.ts:59-64 | a parsed list item becomes a note with the fresh id; an item the source cannot read (`null`) makes the parse fail; falsy title and body become `""`, and a falsy colour becomes `"yellow"` |
| YamlCodec.BlockNotes | src/utils/yaml.ts:58-65 | an array becomes that many notes, in order, each with id `newId(key, i)`, and fails exactly when some item is `null`; any other value gives no notes |
| YamlCodec.MergedBlocks | src/utils/yaml.ts:52-68 | the merged block map fails exactly when a listed known block fails, and otherwise has the existing key set |
| YamlCodec.MergeBlocksLoop | src/utils/yaml.ts:52-68 | the `forEach` over the parsed keys, run on a copy of the block map with the corrected own-key test, computes `MergedBlocks` |
| YamlCodec.ParseTree | src/utils/yaml.ts:44-78 | with the corrected key test, a parse result has the existing document's block keys |
| YamlCodec.ParseYamlText | src/utils/yaml.ts:44-78 | the statement-by-statement parse, with the corrected key test, returns exactly the `ParseYaml` result |
| YamlCodec.ParseNullCases | src/utils/yaml.ts:45-50 | no document is produced when `load` throws, when the loaded value is falsy, or when it has no truthy `blocks` |
| YamlCodec.ParseSucceeds | src/utils/yaml.ts:54-77 | for a loaded object with a `blocks` object, the corrected parse succeeds exactly when no listed known block has a `null` item |
| YamlCodec.ParseKeepsBlocks | src/utils/yaml.ts:52-55 | a parse keeps the block key set and every block's id, so a well-formed document stays well-formed |
| YamlCodec.ParseBlockRule | src/utils/yaml.ts:54-66 | per block: an unlisted block keeps its notes; a listed array becomes fresh-id notes, in order; any other listed value empties the block |
| YamlCodec.MetaShallowMerge | src/utils/yaml.ts:72 | each of the six scalar meta fields (`title`, `caption`, `logoUrl`, `canvasSize`, `backgroundPattern`, `noteColumns`) set in the parsed meta with a value of its type takes that value; every unmentioned field, the two records included, is kept; an empty meta object changes nothing |
| YamlCodec.MetaRecordsReplace | src/utils/yaml.ts:72 | a parsed `advanced` object replaces the old record, with its `exportScale` when that is a number and unset otherwise; a full parsed `fonts` record replaces the old one, role by role |
| YamlCodec.MetaNullClears | src/utils/yaml.ts:72 | a parsed `null` clears each optional field: `canvasSize`, `backgroundPattern`, `noteColumns`, `advanced` and `fonts` |
| YamlCodec.MissingMetaKept | src/utils/yaml.ts:72 | without a parsed meta object the metadata is unchanged |
| YamlCodec.ParseImpliesValid | src/utils/yaml.ts:83-90 | a text that parses is valid YAML, and an invalid text does not parse |
| YamlCodec.ValidWithoutBlocks | src/utils/yaml.ts:48-50 | valid YAML without `blocks` does not parse, so validity does not imply a parse |
| YamlCodec.Reissued | src/utils/yaml.ts:59-60 | the notes with their ids replaced by fresh ones keep their length and every other field |
| YamlCodec.MetaTreeFields | src/utils/yaml.ts:25 | the meta tree holds every set metadata field under its own name |
| YamlCodec.MergeOwnMeta | src/utils/yaml.ts:72 | merging a meta record's own tree into it changes nothing |
| YamlCodec.OwnBlocksMerge | src/utils/yaml.ts:52-68 | merging a document's own printed blocks keeps every block key and every block, with each note's title, body and colour kept and a fresh id |
| YamlCodec.NotesRoundTrip | src/utils/yaml.ts:28-32 | parsing a block's printed notes gives the same notes with fresh ids, when every colour is set |
| YamlCodec.RoundTrip | src/utils/yaml.ts:23-78 | printing a document and parsing the text against it gives the same metadata and block keys, and every block with its notes' title, body and colour unchanged and fresh ids |
| YamlCodec.FieldDefaults | src/utils/yaml.ts:61-63 | a parsed note with empty colour and missing title and body becomes an untitled, empty, yellow note |
| YamlCodec.MergedBlocksAsWritten | src/utils/yaml.ts:55 | as written, the merged map's keys are the existing keys plus every listed name a plain object inherits |
| YamlCodec.InheritedNameAddsBlock | src/utils/yaml.ts:55 | listing `toString` under `blocks` adds a fourteenth block to the default document |
| YamlCodec.AsWrittenAgreesOtherwise | src/utils/yaml.ts:52-68 | when no inherited name is listed, the written merge and the corrected merge agree |
| YamlCodec.ParseTreeAsWritten | src/utils/yaml.ts:44-78 | the parse with the key test as written: its block keys are the existing keys plus every listed inherited name |
| YamlCodec.ParseAsWrittenAgreesOtherwise | src/utils/yaml.ts:44-78 | when every listed inherited name is an own block, the parse as written and the corrected parse give the same result |
| YamlCodec.InheritedNullAbortsParse | src/utils/yaml.ts:55-60 | `blocks: { toString: [null] }` makes the parse as written fail against the default document, while the corrected parse succeeds |
| YamlCodec.ParseFollowsMerge | src/utils/yaml.ts:44-78 | for a loaded object with a `blocks` object, the parse as written fails exactly when its merge as written fails, and the corrected parse exactly when the corrected merge fails |
| YamlCodec.InheritedNullMerge | src/utils/yaml.ts:55-60 | when `toString` is not an own block, listing it with a `null` item fails the merge as written, while the corrected merge ignores it and succeeds |
| CanvasDataHook.NewNote | src/hooks/useCanvasData.ts:45-50 | a new note has the given id, an empty body, colour yellow, and title "New Note", or the Persian title when the language is `fa` |
| CanvasDataHook.SetField | src/hooks/useCanvasData.ts:74 | `{ ...n, [field]: value }` replaces exactly the named field, the id included |
| CanvasDataHook.UpdateNotes | src/hooks/useCanvasData.ts:73-75 | the same number of notes; a note with another id is unchanged; a note with the id has only `field` replaced |
| CanvasDataHook.RemoveNotes | src/hooks/useCanvasData.ts:90 | the kept notes are exactly the notes without the id |
| CanvasDataHook.WithNotes | src/hooks/useCanvasData.ts:51-60 | replacing one block's notes keeps the metadata, the key set, every other block, and the block's id and titles |
| CanvasDataHook.AddNoteAppends | src/hooks/useCanvasData.ts:43-63 | `addNote` appends exactly the new note at the end of the block and changes nothing else |
| CanvasDataHook.UpdateOnlyTouchesField | src/hooks/useCanvasData.ts:65-81 | `updateNote` keeps the count and order of the notes, and on matching notes changes only `field` |
| CanvasDataHook.UpdateMissingId | src/hooks/useCanvasData.ts:73-75 | updating an id no note carries leaves the notes equal |
| CanvasDataHook.UpdateIdempotent | src/hooks/useCanvasData.ts:73-75 | repeating an update changes nothing more, even when the field is the id |
| CanvasDataHook.RemoveCount | src/hooks/useCanvasData.ts:90 | `deleteNote` removes as many notes as carry the id |
| CanvasDataHook.RemoveAppend | src/hooks/useCanvasData.ts:90 | filtering distributes over concatenation, so the kept notes stay in their relative order |
| CanvasDataHook.RemoveMissingId | src/hooks/useCanvasData.ts:90 | deleting an id no note carries leaves the notes equal |
| CanvasDataHook.AddThenDelete | src/hooks/useCanvasData.ts:43-94 | deleting a note just added under a fresh id gives back the original document |
| CanvasDataHook.EditsKeepWellFormed | src/hooks/useCanvasData.ts:43-94 | adding, updating and deleting keep a well-formed document well-formed |
| CanvasDataHook.CanvasSession.constructor | src/hooks/useCanvasData.ts:9-14 | the initial state is the default document, the editor tab, English, an open sidebar and no download running |
| CanvasDataHook.CanvasSession.SyncYamlFromData | src/hooks/useCanvasData.ts:19-23 | the text becomes the serialised document only in the editor tab, and is left alone otherwise |
| CanvasDataHook.CanvasSession.HandleSeed | src/hooks/useCanvasData.ts:25-29 | confirmed, the document becomes the example document; declined, it is unchanged |
| CanvasDataHook.CanvasSession.HandleYamlChange | src/hooks/useCanvasData.ts:31-41 | the typed text is always stored; the document becomes the corrected parse result when there is one, and is unchanged otherwise |
| CanvasDataHook.CanvasSession.AddNote | src/hooks/useCanvasData.ts:43-63 | the document becomes `AddNoteTo` of the old one with the new note in the session's language; the block must exist |
| CanvasDataHook.CanvasSession.UpdateNote | src/hooks/useCanvasData.ts:65-81 | the document becomes `UpdateNoteIn` of the old one; the block must exist |
| CanvasDataHook.CanvasSession.DeleteNote | src/hooks/useCanvasData.ts:83-94 | the document becomes `DeleteNoteFrom` of the old one; the block must exist |
| ExportPage.FileNameShape | src/app/page.tsx:92 | the download name starts with `EBMC-13-`, ends with `.png`, has no whitespace between them, and keeps a title without whitespace unchanged |
| ExportPage.FileNameJoinsWords | src/app/page.tsx:92 | two words separated by any whitespace run are joined by one `-` |
| ExportPage.Page.constructor | src/app/page.tsx:37-101 | a new page has attached no container, requested no capture and started no download |
| ExportPage.Page.HandleDownload | src/app/page.tsx:37-101 | without a mounted canvas nothing changes; otherwise the busy flag goes up then down, one capture is requested with the fixed 2x 1400 by 787.5 white options, the container stays attached only when the capture throws, a failure raises one alert, a success downloads the title's file name, and the document is never changed |
| ExportPage.FailedThenSucceeded | src/app/page.tsx:56-100 | a failed capture followed by a successful one leaves one container attached and the busy flag down |
| EditorSidebar.ColorOptionsAreNoteColors | src/components/EditorSidebar.tsx:30 | the colour buttons offer the five note colours in declaration order |
| EditorSidebar.ColorOptionsHaveSwatches | src/components/EditorSidebar.tsx:30 | the colours offered are exactly those with a swatch value |
| EditorSidebar.ColorButtonGivesKnownColor | src/components/EditorSidebar.tsx:371-374 | a colour button gives every note with that id a colour that has a swatch, and changes nothing but the colour |
| EditorSidebar.ControlReplacesOneField | src/components/EditorSidebar.tsx:274-311 | a metadata control's field reads back its value afterwards; every other field, and the blocks, are unchanged |
| EditorSidebar.SameFieldsSameData | src/components/EditorSidebar.tsx:274-311 | two documents that agree on the blocks and on every metadata field are equal |
| EditorSidebar.ControlsCommuteOrOverride | src/components/EditorSidebar.tsx:274-311 | controls on different fields commute; of two on the same field, the later one wins |
| EditorSidebar.ControlKeepsWellFormed | src/components/EditorSidebar.tsx:274-311 | metadata controls keep a well-formed document well-formed |
| EditorSidebar.RemoveHidesLogo | src/components/EditorSidebar.tsx:211 | Remove hides the logo line; any other logo value shows it |
| EditorSidebar.SizeButtonGivesPaperSize | src/components/EditorSidebar.tsx:308-311 | a size button always leaves one of A4, A3, A2 and A1 set |
| EditorSidebar.PasteIgnoredIff | src/components/EditorSidebar.tsx:56-74 | a paste is ignored exactly when the text is blank, or is SVG markup (not a data URL) that the encoder rejects |
| EditorSidebar.PasteStoresTextOrSvgData | src/components/EditorSidebar.tsx:60-73 | a stored value is the trimmed text or an SVG data URL; a `data:image` text is stored as it is, ahead of the SVG check; encoded SVG gets the SVG prefix |
| EditorSidebar.Base64IsWrapped | src/components/EditorSidebar.tsx:69-70 | trimmed text made only of base64 characters is stored behind the SVG data prefix |
| EditorSidebar.Base64IsNotDataUrl | src/components/EditorSidebar.tsx:60 | base64 text cannot start with `data:image` |
| EditorSidebar.Base64IsNotSvg | src/components/EditorSidebar.tsx:62 | base64 text cannot contain `<svg` |
| EditorSidebar.VerbatimIsPlainText | src/components/EditorSidebar.tsx:71-73 | text stored as it is was a `data:image` URL, or is neither SVG markup nor base64 |
| EditorSidebar.SvgDataIsImageData | src/components/EditorSidebar.tsx:66 | SVG data URLs start with `data:image` |
| EditorSidebar.Base64PasteIsStable | src/components/EditorSidebar.tsx:60-70 | pasting again the data URL a base64 paste stored stores it unchanged |
| EditorSidebar.PastedDataUrlsPassThrough | src/components/EditorSidebar.tsx:78-82 | every image data URL a paste stores passes the conversion guard without a fetch |
| EditorSidebar.SubmittedUrl | src/components/EditorSidebar.tsx:115-119 | a submit converts nothing exactly when the box is blank, and otherwise converts the non-empty trimmed text |
| EditorSidebar.LogoInput.constructor | src/components/EditorSidebar.tsx:39-42 | the input starts in URL mode with an empty box, idle and without an error |
| EditorSidebar.LogoInput.OnChange | src/components/EditorSidebar.tsx:297-299 | a logo change writes only the logo field of the document |
| EditorSidebar.LogoInput.SetMode | src/components/EditorSidebar.tsx:135 | a tab button selects its mode |
| EditorSidebar.LogoInput.SetUrlInput | src/components/EditorSidebar.tsx:155 | typing sets the URL box |
| EditorSidebar.LogoInput.HandleFileUpload | src/components/EditorSidebar.tsx:44-54 | a read file's data URL becomes the logo; no file changes nothing |
| EditorSidebar.LogoInput.HandlePaste | src/components/EditorSidebar.tsx:56-74 | the logo becomes what the paste classifier stores, and is unchanged when it ignores the paste |
| EditorSidebar.LogoInput.ConvertUrlToBase64AsWritten | src/components/EditorSidebar.tsx:77-113 | as written: the guard passes empty and `data:` URLs on untouched; a failed fetch stores the URL and the error; a failed read leaves the input busy and the logo unchanged |
| EditorSidebar.LogoInput.ConvertUrlToBase64 | src/components/EditorSidebar.tsx:77-113 | the same guard; past it, one fetch of the URL and the input is idle afterwards; the read data URL is stored, and any failure stores the URL and the error message |
| EditorSidebar.LogoInput.HandleUrlSubmit | src/components/EditorSidebar.tsx:115-119 | a blank box does nothing; otherwise the trimmed URL goes through the conversion as written: a `data:` URL is stored unfetched, a failed fetch stores the URL and the error and ends idle, a read data URL is stored and ends idle, and a failed read leaves the logo unchanged and the input busy |
| EditorSidebar.LogoInput.Remove | src/components/EditorSidebar.tsx:211 | Remove empties the logo field and hides the logo line |
| EditorSidebar.ReadFailureLeavesInputBusy | src/components/EditorSidebar.tsx:101-103 | as written, a URL whose download cannot be read leaves the input busy and the logo unchanged |
| EditorSidebar.ReadFailureFallsBack | src/components/EditorSidebar.tsx:101-112 | corrected, the same failure leaves the input idle and the URL as the logo |
| GoogleFonts.FontsToLoad | src/hooks/useGoogleFonts.ts:11-19 | a font is requested exactly when it is a non-empty role value not yet loaded, and each only once |
| GoogleFonts.CollectFontsToLoad | src/hooks/useGoogleFonts.ts:11-19 | the collecting loop gathers exactly the fonts to request: each non-empty role value not yet loaded, once, in first-seen order |
| GoogleFonts.SecondRunLoadsNothing | src/hooks/useGoogleFonts.ts:16-21 | once a batch is marked loaded, the same fonts request nothing |
| GoogleFonts.FamilyParamDecodes | src/hooks/useGoogleFonts.ts:25-27 | a family parameter is `family=`, the name with spaces turned into `+`, and `:wght@400;700`; it has no space, and the name can be read back when it has no `+` |
| GoogleFonts.UrlShape | src/hooks/useGoogleFonts.ts:30 | the stylesheet URL starts with the Google Fonts base, ends with `&display=swap` and has no space |
| GoogleFonts.UrlJoinsFamilies | src/hooks/useGoogleFonts.ts:25-30 | family parameters are joined by `&`, in batch order |
| GoogleFonts.FontCache.constructor | src/hooks/useGoogleFonts.ts:5 | the cache starts empty, with no link |
| GoogleFonts.FontCache.Effect | src/hooks/useGoogleFonts.ts:8-48 | without fonts, or with nothing new, nothing changes; otherwise one link with the batch's URL is appended and exactly the batch is added to the cache |
| GoogleFonts.RunTwice | src/hooks/useGoogleFonts.ts:16-48 | two runs with the same fonts leave exactly the state one run leaves: at most one link, holding the batch URL, and exactly the batch added to the cache |
| FontSelector.GlobalChange | src/components/FontSelector.tsx:21-29 | the master dropdown emits a record with every role set to the chosen family |
| FontSelector.IndividualChange | src/components/FontSelector.tsx:31-36 | a role's dropdown emits the current fonts with only that role replaced |
| FontSelector.SameRolesSameFonts | src/types/canvas.ts:3-9 | font records that agree on all five roles are equal |
| FontSelector.CurrentFontsFallback | src/components/FontSelector.tsx:19 | the picker shows the document's fonts when set, and otherwise defaults that are all catalogue families |
| FontSelector.IndividualChangesMakeGlobal | src/components/FontSelector.tsx:21-36 | setting each role in turn to one family gives what the master dropdown gives |
| FontSelector.MasterFollowsCanvasTitle | src/components/FontSelector.tsx:86-87 | the master dropdown shows the canvas-title role |
| FontSelector.GlobalChangeRequestsOneFamily | src/components/FontSelector.tsx:21-29 | after a global change the loader requests just that family, unless it is empty or loaded |
| FontSelector.Categories | src/components/FontSelector.tsx:39 | the option groups list no category twice |
| FontSelector.CategoriesMembers | src/components/FontSelector.tsx:39 | the groups are exactly the categories some entry has |
| FontSelector.CategoriesAppendRun | src/components/FontSelector.tsx:39 | categories appear in first-appearance order |
| FontSelector.CategoriesOfTaggedRuns | src/components/FontSelector.tsx:39 | consecutive non-empty runs of distinct categories give exactly those categories, in run order |
| FontSelector.OptionsFor | src/components/FontSelector.tsx:62 | a group's options all belong to its category |
| FontSelector.OptionsMembers | src/components/FontSelector.tsx:62 | a group's options are exactly the entries of its category |
| FontSelector.OptionsAppend | src/components/FontSelector.tsx:62 | the options keep the catalogue order |
| FontSelector.OptionsOfTaggedRuns | src/components/FontSelector.tsx:62 | in consecutive runs of distinct categories, each category's options are exactly its run |
| FontSelector.CatalogueCategories | src/components/FontSelector.tsx:39 | the catalogue's option groups are the five categories in declaration order |
| FontSelector.CatalogueOptions | src/components/FontSelector.tsx:62 | each option group lists exactly its category's catalogue entries, as declared |
| FontSelector.DropdownListsCatalogue | src/components/FontSelector.tsx:60-68 | every dropdown lists the whole catalogue, in order, each entry once |

## Left out

- YamlCodec.RoundTrip: the YAML library's own round trip is a precondition rather than something proved. The library is not modelled.
- YamlCodec.RoundTrip: notes must have non-empty colours. A note with an empty colour comes back yellow.
- js-yaml parsing and printing are not modelled. The `load` and `dump` function parameters stand for them.
- Key order in objects is not modelled: maps are unordered. The `forEach` loop visits the parsed keys in an arbitrary order, and the result does not depend on it.
- YamlCodec.MergeMeta: a parsed meta value of the wrong JSON type keeps the old field. The source would store the foreign value; the typed record cannot hold it.
- YamlCodec.MergeMeta: a `fonts` object without a string for each of the five roles keeps the old record. The source would store the partial object.
- YamlCodec.MetaRecordsReplace: a non-number `exportScale` inside a parsed `advanced` object becomes unset. The source stores the foreign value; the typed record cannot hold it.
- YamlCodec.MetaRecordsReplace: extra keys of a parsed `fonts` or `advanced` object are dropped. The source stores the parsed object whole (yaml.ts:72), so its printer writes them out again (yaml.ts:25) and its font loader requests every truthy value under `fonts` (useGoogleFonts.ts:14-19). The model prints and requests only the five roles and `exportScale`; the typed records have no place for other keys.
- GoogleFonts.FontCache.Effect: the batch lists the five roles in the fixed order canvasTitle, canvasCaption, blockTitle, noteTitle, noteBody. The source follows the key order of the stored `fonts` object, which for a parsed object is the order the YAML text gave.
- YamlCodec.MetaNullClears: a parsed `null` clears the field, and the printer then omits it (`MetaTree`). The source keeps `null` in its metadata and prints it back as `key: null`. The readers modelled here (the size buttons' `=== size`, the loader's `!fonts` and the selector's `fonts || DEFAULT_FONTS`) treat `null` like an unset field.
- YamlCodec.MergeMeta: meta keys other than the eight known fields are dropped. The source keeps them, and the next print writes them out again; the typed record has no place for them.
- YamlCodec.MergeMeta: a string or array `meta` changes nothing. The source spreads its index keys (`"0"`, `"1"`, …) into the metadata.
- YamlCodec.MissingMetaKept: "unchanged" holds for the typed record only. For a string or array `meta`, the source's metadata gains index keys that the record cannot hold.
- YamlCodec.MergeBlocksLoop: uses the corrected own-key test of Finding 1 (yaml.ts:55). The test as written is in `MergedBlocksAsWritten`.
- YamlCodec.ParseTree: merges with the corrected own-key test of Finding 1. `ParseTreeAsWritten` is the parse as written, and `ParseAsWrittenAgreesOtherwise` states when the two agree.
- YamlCodec.ParseYaml: runs `ParseTree`, so it uses the corrected own-key test of Finding 1.
- YamlCodec.ParseYamlText: follows yaml.ts statement by statement except at line 55, where it uses the corrected own-key test of Finding 1.
- YamlCodec.ParseSucceeds: states success for the corrected parse. As written, a listed inherited name with a `null` item also makes the parse fail (`InheritedNullAbortsParse`).
- CanvasDataHook.CanvasSession.HandleYamlChange: commits the corrected parse of Finding 1. As written, an inherited name listed under `blocks` adds a block or aborts the parse.
- YamlCodec.NoteFrom: a truthy title, body or colour that is not a string becomes `""`, or `"yellow"` for the colour. The source would store the foreign value.
- YamlCodec.NoteFrom: `NaN` is not modelled, because numbers are reals.
- A `blocks` value that is not an object is treated as having no keys.
- The `__proto__` key is not modelled. Other inherited names are covered by Finding 1.
- `generateId` and `getRandomRotation` (src/utils/helpers.ts) use `Math.random`, so ids are parameters. `deepClone` is value identity on datatypes.
- React's effect scheduling, batching and asynchronous interleaving are not modelled. In particular, `LogoInput`'s `onChange` closes over a possibly stale `data`; the model applies each change to the current document.
- The DOM and html2canvas work in `handleDownload` is not modelled. Cloning, styling, rasterising, `toDataURL`, `link.click` and `alert` become an abstract outcome and counters. The `console.error` logging is dropped.
- The `actualization-canvas-` prefix expected by e2e/image-export.spec.ts:26 is not produced by src/app/page.tsx:92. The model follows the code.
- ExportPage.FileNameJoinsWords covers two words. Longer titles follow from `FileNameShape` and the collapse lemmas, but no three-word lemma is stated.
- `fetch`, `FileReader` and `btoa(unescape(encodeURIComponent(…)))` in `LogoInput` are not modelled. They become an outcome (`FetchOutcome`) and a function parameter `encode` that may fail.
- The stylesheet link's `rel` and test id attributes are not modelled. Only its `href` is kept.
- The raw state setters `setActiveTab`, `setLanguage` and `setIsSidebarOpen` are not modelled, nor the picker's `isExpanded` toggle. They only assign a cell.
- Presentation components hold no state logic and are not part of this model: `CanvasPreview`, `CanvasBlock`, `StickyNoteCard`, `Header`, `MobileControlBar`, `PatternSelector`, `I18nProviderWrapper`, `layout.tsx` and src/constants/patterns.ts.
- src/scripts/download_patterns.js, the configuration files and jest.setup.ts are not part of this model.
- `CanvasSession.IsRTL` is the predicate `language == Fa`. It carries no contract of its own; `NewNote` states its effect on new note titles.

## Findings

| source | as written | input that shows it | evidently intended | confidence | as-written member | corrected member |
|---|---|---|---|---|---|---|
| src/utils/yaml.ts:55 | `if (newBlocks[key])` is true for names a plain object inherits (`toString`, `constructor`, `valueOf`, …), so such a key is added as a new block | YAML text with `blocks: { toString: [] }` against the default document gives 14 block keys | only existing blocks are replaced, so the key set is unchanged | not executed | YamlCodec.MergedBlocksAsWritten, YamlCodec.InheritedNameAddsBlock, YamlCodec.ParseTreeAsWritten, YamlCodec.InheritedNullAbortsParse | YamlCodec.MergedBlocks, YamlCodec.ParseKeepsBlocks |
| src/components/EditorSidebar.tsx:101-103 | `reader.onerror` throws inside a callback, outside the `try`, so neither the `catch` nor the `isConverting` reset runs | a logo URL whose fetch succeeds but whose body cannot be read, e.g. `https://example.com/logo.png` | a read failure is handled like a fetch failure: the URL is kept, the error shown, and the input becomes idle | not executed | EditorSidebar.LogoInput.ConvertUrlToBase64AsWritten, EditorSidebar.ReadFailureLeavesInputBusy | EditorSidebar.LogoInput.ConvertUrlToBase64, EditorSidebar.ReadFailureFallsBack |
