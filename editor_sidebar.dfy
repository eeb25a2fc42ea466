/** The stateful parts of the editor sidebar (src/components/EditorSidebar.tsx): the
    document-metadata controls, the note colour buttons and the logo input with its paste
    classifier and its URL-to-data-URL conversion. */
module EditorSidebar {
  import opened Wrappers
  import opened CanvasTypes
  import opened JsText
  import opened Blocks
  import opened CanvasDataHook

  /** The colours offered by each note's colour buttons, in button order. */
  const NOTE_COLOR_OPTIONS: seq<string> := ["yellow", "blue", "green", "pink", "red"]

  /** The canvas-size buttons, in button order. */
  const CANVAS_SIZE_OPTIONS: seq<string> := ["A4", "A3", "A2", "A1"]

  /** The prefix put in front of base64-encoded SVG text. */
  const SVG_DATA_PREFIX: string := "data:image/svg+xml;base64,"

  /** The message shown when a logo URL could not be turned into a data URL. */
  const CONVERT_ERROR: string := "Could not load image. Try uploading instead."

  /** The colour buttons offer the five note colours in declaration order. */
  lemma ColorOptionsAreNoteColors()
    ensures |NOTE_COLOR_OPTIONS| == |ALL_NOTE_COLORS|
    ensures forall i :: 0 <= i < |NOTE_COLOR_OPTIONS| ==> NOTE_COLOR_OPTIONS[i] == ALL_NOTE_COLORS[i].Name()
  {
  }

  /** The colour buttons offer exactly the colours that have a swatch value. */
  lemma ColorOptionsHaveSwatches()
    ensures (set c | c in NOTE_COLOR_OPTIONS) == NOTE_COLOR_VALUES.Keys
  {
    assert NOTE_COLOR_VALUES.Keys == {"yellow", "blue", "green", "pink", "red"};
  }

  /** Clicking a note's colour button gives every note with that id a colour that has a
      swatch, and touches nothing else of the note. */
  lemma ColorButtonGivesKnownColor(d: CanvasData, blockId: string, noteId: string, i: int)
    requires blockId in d.blocks && 0 <= i < |NOTE_COLOR_OPTIONS|
    ensures var r := UpdateNoteIn(d, blockId, noteId, Color, NOTE_COLOR_OPTIONS[i]);
      var ns := r.blocks[blockId].notes;
      |ns| == |d.blocks[blockId].notes| &&
      forall j :: 0 <= j < |ns| && d.blocks[blockId].notes[j].id == noteId ==>
        ns[j].color in NOTE_COLOR_VALUES && ns[j] == d.blocks[blockId].notes[j].(color := ns[j].color)
  {
    ColorOptionsHaveSwatches();
    assert NOTE_COLOR_OPTIONS[i] in (set c | c in NOTE_COLOR_OPTIONS);
  }

  // ---------------------------------------------------------------------------------
  // Metadata controls

  /** The metadata fields the sidebar's controls write. */
  datatype MetaField = TitleField | CaptionField | LogoField | SizeField

  /** One use of a metadata control: typing in the title or caption box, a logo change
      (from the logo input, or its Remove button with the empty string), or a click on a
      canvas-size button. */
  datatype MetaControl =
    | TitleInput(text: string)
    | CaptionInput(text: string)
    | LogoChange(url: string)
    | SizeButton(size: string)
  {
    /** The field the control writes. */
    function Target(): MetaField {
      match this
      case TitleInput(_) => TitleField
      case CaptionInput(_) => CaptionField
      case LogoChange(_) => LogoField
      case SizeButton(_) => SizeField
    }

    /** The value the control writes. */
    function Value(): string {
      match this
      case TitleInput(t) => t
      case CaptionInput(t) => t
      case LogoChange(u) => u
      case SizeButton(s) => s
    }
  }

  /** The value a metadata field holds; an unset canvas size reads as `None`. */
  function ReadField(m: CanvasMeta, f: MetaField): Option<string> {
    match f
    case TitleField => Some(m.title)
    case CaptionField => Some(m.caption)
    case LogoField => Some(m.logoUrl)
    case SizeField => m.canvasSize
  }

  /** The new document a control hands to `setData`: the metadata spread with one field
      replaced. */
  function ApplyControl(d: CanvasData, c: MetaControl): CanvasData {
    match c
    case TitleInput(t) => d.(meta := d.meta.(title := t))
    case CaptionInput(t) => d.(meta := d.meta.(caption := t))
    case LogoChange(u) => d.(meta := d.meta.(logoUrl := u))
    case SizeButton(s) => d.(meta := d.meta.(canvasSize := Some(s)))
  }

  /** A control's field reads back its value afterwards, every other field reads as
      before, the metadata fields no control writes are untouched and so are the blocks. */
  lemma ControlReplacesOneField(d: CanvasData, c: MetaControl)
    ensures var r := ApplyControl(d, c);
      ReadField(r.meta, c.Target()) == Some(c.Value()) &&
      (forall f :: f != c.Target() ==> ReadField(r.meta, f) == ReadField(d.meta, f)) &&
      r.meta.backgroundPattern == d.meta.backgroundPattern && r.meta.noteColumns == d.meta.noteColumns &&
      r.meta.advanced == d.meta.advanced && r.meta.fonts == d.meta.fonts &&
      r.blocks == d.blocks
  {
  }

  /** The document is determined by its blocks, the fields the controls write and the
      fields they leave alone. */
  lemma SameFieldsSameData(a: CanvasData, b: CanvasData)
    requires a.blocks == b.blocks
    requires forall f :: ReadField(a.meta, f) == ReadField(b.meta, f)
    requires a.meta.backgroundPattern == b.meta.backgroundPattern && a.meta.noteColumns == b.meta.noteColumns
    requires a.meta.advanced == b.meta.advanced && a.meta.fonts == b.meta.fonts
    ensures a == b
  {
    assert ReadField(a.meta, TitleField) == ReadField(b.meta, TitleField);
    assert ReadField(a.meta, CaptionField) == ReadField(b.meta, CaptionField);
    assert ReadField(a.meta, LogoField) == ReadField(b.meta, LogoField);
    assert ReadField(a.meta, SizeField) == ReadField(b.meta, SizeField);
  }

  /** Controls on different fields commute, and of two controls on the same field the
      later one wins. */
  lemma ControlsCommuteOrOverride(d: CanvasData, a: MetaControl, b: MetaControl)
    ensures a.Target() != b.Target() ==>
      ApplyControl(ApplyControl(d, a), b) == ApplyControl(ApplyControl(d, b), a)
    ensures a.Target() == b.Target() ==>
      ApplyControl(ApplyControl(d, a), b) == ApplyControl(d, b)
  {
    var ab := ApplyControl(ApplyControl(d, a), b);
    ControlReplacesOneField(d, a);
    ControlReplacesOneField(ApplyControl(d, a), b);
    ControlReplacesOneField(d, b);
    if a.Target() != b.Target() {
      var ba := ApplyControl(ApplyControl(d, b), a);
      ControlReplacesOneField(ApplyControl(d, b), a);
      forall f ensures ReadField(ab.meta, f) == ReadField(ba.meta, f) {
      }
      SameFieldsSameData(ab, ba);
    } else {
      forall f ensures ReadField(ab.meta, f) == ReadField(ApplyControl(d, b).meta, f) {
      }
      SameFieldsSameData(ab, ApplyControl(d, b));
    }
  }

  /** The metadata controls never disturb the block structure. */
  lemma ControlKeepsWellFormed(d: CanvasData, c: MetaControl)
    requires WellFormed(d)
    ensures WellFormed(ApplyControl(d, c))
  {
    ControlReplacesOneField(d, c);
  }

  /** The logo input is given `logoUrl || ''`, and it shows its "Logo set" line and the
      Remove button exactly when that value is non-empty. */
  predicate LogoShown(d: CanvasData) {
    d.meta.logoUrl != ""
  }

  /** Remove hides the logo line; any other logo value shows it. */
  lemma RemoveHidesLogo(d: CanvasData, url: string)
    ensures !LogoShown(ApplyControl(d, LogoChange("")))
    ensures LogoShown(ApplyControl(d, LogoChange(url))) <==> url != ""
  {
    ControlReplacesOneField(d, LogoChange(""));
    ControlReplacesOneField(d, LogoChange(url));
  }

  /** A canvas-size button always leaves one of the four paper sizes set. */
  lemma SizeButtonGivesPaperSize(d: CanvasData, i: int)
    requires 0 <= i < |CANVAS_SIZE_OPTIONS|
    ensures var s := ApplyControl(d, SizeButton(CANVAS_SIZE_OPTIONS[i])).meta.canvasSize;
      s.Some? && s.value in CANVAS_SIZE_OPTIONS && s.value in {"A4", "A3", "A2", "A1"}
  {
    ControlReplacesOneField(d, SizeButton(CANVAS_SIZE_OPTIONS[i]));
  }

  // ---------------------------------------------------------------------------------
  // Pasted logo text

  /** One character of the class `[A-Za-z0-9+/=]`. */
  predicate IsBase64Char(c: char) {
    ('A' <= c <= 'Z') || ('a' <= c <= 'z') || ('0' <= c <= '9') || c == '+' || c == '/' || c == '='
  }

  /** `/^[A-Za-z0-9+/=]+$/.test(s)` */
  predicate IsBase64Text(s: string) {
    s != [] && forall i :: 0 <= i < |s| ==> IsBase64Char(s[i])
  }

  /** What a paste does to the logo: nothing, or store a value. */
  datatype PasteAction = Ignore | Store(url: string)

  /** `handlePaste`: classify the trimmed text. `encode` is the base64 of the text's UTF-8
      bytes, `None` where the browser's encoding throws. */
  function Pasted(raw: string, encode: string -> Option<string>): PasteAction {
    var content := Trim(raw);
    if content == [] then Ignore
    else if StartsWith(content, "data:image") then Store(content)
    else if Contains(content, "<svg") then
      match encode(content)
      case None => Ignore
      case Some(e) => Store(SVG_DATA_PREFIX + e)
    else if IsBase64Text(content) then Store(SVG_DATA_PREFIX + content)
    else Store(content)
  }

  /** A paste is ignored exactly when the text is blank or is SVG the encoder rejects. */
  lemma PasteIgnoredIff(raw: string, encode: string -> Option<string>)
    ensures Pasted(raw, encode) == Ignore <==>
      AllSpace(raw) ||
      (!StartsWith(Trim(raw), "data:image") && Contains(Trim(raw), "<svg") && encode(Trim(raw)).None?)
  {
    TrimBlank(raw);
  }

  /** A paste that stores something stores a non-empty value: either the trimmed text
      itself, or a base64 SVG data URL. A pasted image data URL is kept as it is even when
      it contains SVG markup. */
  lemma PasteStoresTextOrSvgData(raw: string, encode: string -> Option<string>)
    ensures Pasted(raw, encode).Store? ==>
      Pasted(raw, encode).url != [] &&
      (Pasted(raw, encode).url == Trim(raw) || StartsWith(Pasted(raw, encode).url, SVG_DATA_PREFIX))
    ensures StartsWith(Trim(raw), "data:image") ==> Pasted(raw, encode) == Store(Trim(raw))
    ensures Contains(Trim(raw), "<svg") && !StartsWith(Trim(raw), "data:image") && encode(Trim(raw)).Some? ==>
      Pasted(raw, encode) == Store(SVG_DATA_PREFIX + encode(Trim(raw)).value)
  {
    var content := Trim(raw);
    if content != [] && !StartsWith(content, "data:image") {
      if Contains(content, "<svg") {
        if encode(content).Some? {
          PrefixStart(SVG_DATA_PREFIX, encode(content).value);
        }
      } else if IsBase64Text(content) {
        PrefixStart(SVG_DATA_PREFIX, content);
      }
    }
  }

  /** A string starts with any non-empty prefix put in front of it. */
  lemma PrefixStart(p: string, s: string)
    requires p != []
    ensures StartsWith(p + s, p) && p + s != []
  {
    assert (p + s)[..|p|] == p;
  }

  /** Base64 text has no `:`, so it is not an image data URL. */
  lemma Base64IsNotDataUrl(s: string)
    requires IsBase64Text(s)
    ensures !StartsWith(s, "data:image")
  {
    if |s| >= 10 {
      assert s[..10][4] == s[4];
      assert IsBase64Char(s[4]);
    }
  }

  /** Base64 text has no `<`, so it is not SVG markup. */
  lemma Base64IsNotSvg(s: string)
    requires IsBase64Text(s)
    ensures !Contains(s, "<svg")
  {
    forall i | 0 <= i < |s| ensures s[i] != "<svg"[0] {
      assert IsBase64Char(s[i]);
    }
    MissingFirstChar(s, "<svg");
  }

  /** Base64 text is neither an image data URL nor SVG markup, so it is wrapped as SVG. */
  lemma Base64IsWrapped(raw: string, encode: string -> Option<string>)
    requires IsBase64Text(Trim(raw))
    ensures Pasted(raw, encode) == Store(SVG_DATA_PREFIX + Trim(raw))
  {
    Base64IsNotDataUrl(Trim(raw));
    Base64IsNotSvg(Trim(raw));
  }

  /** Text stored verbatim as a URL is neither an image data URL, nor SVG markup, nor
      base64 text. */
  lemma VerbatimIsPlainText(raw: string, encode: string -> Option<string>)
    requires Pasted(raw, encode) == Store(Trim(raw))
    ensures StartsWith(Trim(raw), "data:image") ||
      (!Contains(Trim(raw), "<svg") && !IsBase64Text(Trim(raw)))
  {
    SvgDataIsImageData(encode(Trim(raw)).GetOr(""));
  }

  /** Base64 SVG data is an image data URL. */
  lemma SvgDataIsImageData(encoded: string)
    ensures StartsWith(SVG_DATA_PREFIX + encoded, "data:image")
  {
    assert (SVG_DATA_PREFIX + encoded)[..10] == SVG_DATA_PREFIX[..10];
  }

  /** Pasting again the data URL that a base64 paste stored stores it unchanged. */
  lemma Base64PasteIsStable(raw: string, encode: string -> Option<string>, encode2: string -> Option<string>)
    requires IsBase64Text(Trim(raw))
    ensures Pasted(SVG_DATA_PREFIX + Trim(raw), encode2) == Pasted(raw, encode)
  {
    Base64IsWrapped(raw, encode);
    StoredSvgDataIsStable(Trim(raw), encode2);
  }

  /** The SVG data URL of base64 text is stored as it is when pasted. */
  lemma StoredSvgDataIsStable(t: string, encode: string -> Option<string>)
    requires IsBase64Text(t)
    ensures Pasted(SVG_DATA_PREFIX + t, encode) == Store(SVG_DATA_PREFIX + t)
  {
    SvgDataEdgeless(t);
    SvgDataIsImageData(t);
    PastedImageData(SVG_DATA_PREFIX + t, encode);
  }

  /** The SVG data URL of base64 text has no surrounding whitespace. */
  lemma SvgDataEdgeless(t: string)
    requires IsBase64Text(t)
    ensures Trim(SVG_DATA_PREFIX + t) == SVG_DATA_PREFIX + t
  {
    var u := SVG_DATA_PREFIX + t;
    assert u[0] == 'd';
    assert u[|u| - 1] == t[|t| - 1];
    assert IsBase64Char(t[|t| - 1]);
    TrimEdgeless(u);
  }

  /** Text that trims to an image data URL is stored as that URL. */
  lemma PastedImageData(raw: string, encode: string -> Option<string>)
    requires StartsWith(Trim(raw), "data:image")
    ensures Pasted(raw, encode) == Store(Trim(raw))
  {
  }

  // ---------------------------------------------------------------------------------
  // The logo input

  /** The three tabs of the logo input. */
  datatype LogoMode = UrlMode | UploadMode | PasteMode

  /** How fetching a logo URL and reading the response as a data URL ends: the fetch (or
      the response status, or the body) fails, the reader fails, or it yields a data URL. */
  datatype FetchOutcome = FetchFailed | ReadFailed | ReadDone(dataUrl: string)

  /** `convertUrlToBase64`'s guard: an empty URL or a `data:` URL is passed on without
      fetching. */
  predicate PassesThrough(url: string) {
    url == [] || StartsWith(url, "data:")
  }

  /** Everything a paste stores as an image data URL passes the guard. */
  lemma PastedDataUrlsPassThrough(raw: string, encode: string -> Option<string>)
    requires Pasted(raw, encode).Store?
    requires StartsWith(Pasted(raw, encode).url, "data:image")
    ensures PassesThrough(Pasted(raw, encode).url)
  {
    ImageDataUrlPassesThrough(Pasted(raw, encode).url);
  }

  /** An image data URL passes the guard. */
  lemma ImageDataUrlPassesThrough(u: string)
    requires StartsWith(u, "data:image")
    ensures PassesThrough(u)
  {
    assert u[..5] == u[..10][..5];
  }

  /** The URL a submit converts: the trimmed input, when it is not blank. */
  function SubmittedUrl(urlInput: string): (r: Option<string>)
    ensures r.None? <==> AllSpace(urlInput)
    ensures r.Some? ==> r.value != [] && r.value == Trim(urlInput)
  {
    TrimBlank(urlInput);
    if Trim(urlInput) != [] then Some(Trim(urlInput)) else None
  }

  /** The logo input's state and the document session it writes through `onChange`. */
  class LogoInput {
    const session: CanvasSession
    var mode: LogoMode
    var urlInput: string
    var isConverting: bool
    var convertError: string
    /** Every URL fetched, in order. */
    var fetches: seq<string>

    constructor(s: CanvasSession)
      ensures session == s && mode == UrlMode && urlInput == "" && !isConverting
      ensures convertError == "" && fetches == []
    {
      session := s;
      mode := UrlMode;
      urlInput := "";
      isConverting := false;
      convertError := "";
      fetches := [];
    }

    /** The sidebar's `onChange` for the logo: store the new logo value in the document. */
    method OnChange(url: string)
      modifies session`data
      ensures session.data == ApplyControl(old(session.data), LogoChange(url))
    {
      session.data := ApplyControl(session.data, LogoChange(url));
    }

    method SetMode(m: LogoMode)
      modifies this`mode
      ensures mode == m
    {
      mode := m;
    }

    method SetUrlInput(text: string)
      modifies this`urlInput
      ensures urlInput == text
    {
      urlInput := text;
    }

    /** `handleFileUpload`, given the data URL the reader produced for the first chosen
        file (`None` when no file was chosen or nothing was read). */
    method HandleFileUpload(read: Option<string>)
      modifies session`data
      ensures read.None? ==> session.data == old(session.data)
      ensures read.Some? ==> session.data == ApplyControl(old(session.data), LogoChange(read.value))
    {
      if read.Some? {
        OnChange(read.value);
      }
    }

    /** `handlePaste` */
    method HandlePaste(raw: string, encode: string -> Option<string>)
      modifies session`data
      ensures Pasted(raw, encode) == Ignore ==> session.data == old(session.data)
      ensures Pasted(raw, encode).Store? ==>
        session.data == ApplyControl(old(session.data), LogoChange(Pasted(raw, encode).url))
    {
      var action := Pasted(raw, encode);
      if action.Store? {
        OnChange(action.url);
      }
    }

    /** `convertUrlToBase64` as written: a failing reader raises its error inside the
        reader's callback, outside the `try`, so neither the fallback nor the reset of the
        busy flag runs. */
    method ConvertUrlToBase64AsWritten(url: string, outcome: FetchOutcome)
      modifies this`isConverting, this`convertError, this`fetches, session`data
      ensures PassesThrough(url) ==>
        session.data == ApplyControl(old(session.data), LogoChange(url)) &&
        isConverting == old(isConverting) && convertError == old(convertError) && fetches == old(fetches)
      ensures !PassesThrough(url) ==> fetches == old(fetches) + [url]
      ensures !PassesThrough(url) && outcome == FetchFailed ==>
        session.data == ApplyControl(old(session.data), LogoChange(url)) &&
        !isConverting && convertError == CONVERT_ERROR
      ensures !PassesThrough(url) && outcome == ReadFailed ==>
        session.data == old(session.data) && isConverting && convertError == ""
      ensures !PassesThrough(url) && outcome.ReadDone? ==>
        session.data == ApplyControl(old(session.data), LogoChange(outcome.dataUrl)) &&
        !isConverting && convertError == ""
    {
      if PassesThrough(url) {
        OnChange(url);
        return;
      }
      isConverting := true;
      convertError := "";
      fetches := fetches + [url];
      match outcome
      case FetchFailed =>
        convertError := CONVERT_ERROR;
        OnChange(url);
        isConverting := false;
      case ReadFailed =>
      case ReadDone(dataUrl) =>
        OnChange(dataUrl);
        isConverting := false;
    }

    /** `convertUrlToBase64` with a failing reader handled like a failing fetch: past the
        guard the busy flag always ends down, and the logo ends as the data URL or, on any
        failure, the URL itself next to the error message. */
    method ConvertUrlToBase64(url: string, outcome: FetchOutcome)
      modifies this`isConverting, this`convertError, this`fetches, session`data
      ensures PassesThrough(url) ==>
        session.data == ApplyControl(old(session.data), LogoChange(url)) &&
        isConverting == old(isConverting) && convertError == old(convertError) && fetches == old(fetches)
      ensures !PassesThrough(url) ==> fetches == old(fetches) + [url] && !isConverting
      ensures !PassesThrough(url) && !outcome.ReadDone? ==>
        session.data == ApplyControl(old(session.data), LogoChange(url)) && convertError == CONVERT_ERROR
      ensures !PassesThrough(url) && outcome.ReadDone? ==>
        session.data == ApplyControl(old(session.data), LogoChange(outcome.dataUrl)) && convertError == ""
    {
      if PassesThrough(url) {
        OnChange(url);
        return;
      }
      isConverting := true;
      convertError := "";
      fetches := fetches + [url];
      match outcome
      case ReadDone(dataUrl) =>
        OnChange(dataUrl);
        isConverting := false;
      case _ =>
        convertError := CONVERT_ERROR;
        OnChange(url);
        isConverting := false;
    }

    /** `handleUrlSubmit`: a blank URL box does nothing; otherwise the trimmed URL goes
        through `convertUrlToBase64` as written, so a reader failure leaves the input busy
        and the logo as it was. */
    method HandleUrlSubmit(outcome: FetchOutcome)
      modifies this`isConverting, this`convertError, this`fetches, session`data
      ensures var submitted := SubmittedUrl(urlInput);
        submitted.None? ==>
          session.data == old(session.data) && isConverting == old(isConverting) &&
          convertError == old(convertError) && fetches == old(fetches)
      ensures var submitted := SubmittedUrl(urlInput);
        submitted.Some? && PassesThrough(submitted.value) ==>
          session.data == ApplyControl(old(session.data), LogoChange(submitted.value)) &&
          isConverting == old(isConverting) && convertError == old(convertError) && fetches == old(fetches)
      ensures var submitted := SubmittedUrl(urlInput);
        submitted.Some? && !PassesThrough(submitted.value) ==>
          fetches == old(fetches) + [submitted.value] &&
          (outcome == FetchFailed ==>
            session.data == ApplyControl(old(session.data), LogoChange(submitted.value)) &&
            !isConverting && convertError == CONVERT_ERROR) &&
          (outcome == ReadFailed ==> session.data == old(session.data) && isConverting && convertError == "") &&
          (outcome.ReadDone? ==>
            session.data == ApplyControl(old(session.data), LogoChange(outcome.dataUrl)) &&
            !isConverting && convertError == "")
    {
      var submitted := SubmittedUrl(urlInput);
      if submitted.None? {
        return;
      }
      var url := submitted.value;
      ConvertUrlToBase64AsWritten(url, outcome);
    }

    /** The Remove button. */
    method Remove()
      modifies session`data
      ensures session.data == ApplyControl(old(session.data), LogoChange(""))
      ensures !LogoShown(session.data)
    {
      OnChange("");
      RemoveHidesLogo(old(session.data), "");
    }
  }

  /** With the conversion as written, a logo URL whose download cannot be read leaves the
      input busy for good and the logo unset. */
  method ReadFailureLeavesInputBusy(li: LogoInput) returns (busy: bool, logoChanged: bool)
    modifies li, li.session
    ensures busy && !logoChanged
  {
    var before := li.session.data;
    var url := "https://example.com/logo.png";
    assert url[..5][0] != "data:"[0];
    li.ConvertUrlToBase64AsWritten(url, ReadFailed);
    busy := li.isConverting;
    logoChanged := li.session.data != before;
  }

  /** With the corrected conversion, the same read failure leaves the input idle and the URL
      stored as the logo. */
  method ReadFailureFallsBack(li: LogoInput) returns (busy: bool, logo: string)
    modifies li, li.session
    ensures !busy && logo == "https://example.com/logo.png"
  {
    var url := "https://example.com/logo.png";
    assert url[..5][0] != "data:"[0];
    li.ConvertUrlToBase64(url, ReadFailed);
    busy := li.isConverting;
    logo := li.session.data.meta.logoUrl;
  }
}
