/** The canvas document model of src/types/canvas.ts. */
module CanvasTypes {
  import opened Wrappers

  /** The five note colours. A note's own `color` field is a string, because the text
      parser stores whatever colour text it reads without checking it. */
  datatype NoteColor = Yellow | Blue | Green | Pink | Red {
    function Name(): string {
      match this
      case Yellow => "yellow"
      case Blue => "blue"
      case Green => "green"
      case Pink => "pink"
      case Red => "red"
    }
  }

  const ALL_NOTE_COLORS: seq<NoteColor> := [Yellow, Blue, Green, Pink, Red]

  /** The five font roles of a canvas. */
  datatype CanvasFonts = CanvasFonts(
    canvasTitle: string,
    canvasCaption: string,
    blockTitle: string,
    noteTitle: string,
    noteBody: string)
  {
    /** `Object.values(fonts)`: the role values in declaration order. */
    function Values(): seq<string> {
      [canvasTitle, canvasCaption, blockTitle, noteTitle, noteBody]
    }

    function Get(role: FontRole): string {
      match role
      case CanvasTitle => canvasTitle
      case CanvasCaption => canvasCaption
      case BlockTitle => blockTitle
      case NoteTitle => noteTitle
      case NoteBody => noteBody
    }

    /** `{ ...fonts, [role]: value }` */
    function With(role: FontRole, value: string): CanvasFonts {
      match role
      case CanvasTitle => this.(canvasTitle := value)
      case CanvasCaption => this.(canvasCaption := value)
      case BlockTitle => this.(blockTitle := value)
      case NoteTitle => this.(noteTitle := value)
      case NoteBody => this.(noteBody := value)
    }
  }

  /** `keyof CanvasFonts` */
  datatype FontRole = CanvasTitle | CanvasCaption | BlockTitle | NoteTitle | NoteBody

  datatype Note = Note(id: string, title: string, body: string, color: string)

  /** `keyof Note`: the fields `updateNote` may overwrite, `id` included. */
  datatype NoteField = Id | Title | Body | Color

  /** A block: its key, its two display labels and its ordered notes. */
  datatype BlockData = BlockData(id: string, titleEn: string, titleFa: string, notes: seq<Note>)

  datatype Advanced = Advanced(exportScale: Option<real>)

  /** Document metadata. The optional fields of the source are `Option`s; `canvasSize` is
      absent in the built-in documents, so it is optional here as well. */
  datatype CanvasMeta = CanvasMeta(
    title: string,
    caption: string,
    logoUrl: string,
    canvasSize: Option<string>,
    backgroundPattern: Option<string>,
    noteColumns: Option<real>,
    advanced: Option<Advanced>,
    fonts: Option<CanvasFonts>)

  datatype CanvasData = CanvasData(meta: CanvasMeta, blocks: map<string, BlockData>)

  datatype Language = En | Fa

  datatype EditorTab = Editor | Yaml
}
