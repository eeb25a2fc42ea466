/** The font catalogue of src/constants/fonts.ts. */
module Fonts {
  import opened CanvasTypes
  import opened Seqs

  /** The five declared catalogue categories, in declaration order. */
  datatype FontCategory = SansSerif | Serif | Display | Handwriting | Monospace {
    function Name(): string {
      match this
      case SansSerif => "sans-serif"
      case Serif => "serif"
      case Display => "display"
      case Handwriting => "handwriting"
      case Monospace => "monospace"
    }

    /** Position in `FONT_CATEGORIES`. */
    function Rank(): nat {
      match this
      case SansSerif => 0
      case Serif => 1
      case Display => 2
      case Handwriting => 3
      case Monospace => 4
    }
  }

  const FONT_CATEGORIES: seq<FontCategory> := [SansSerif, Serif, Display, Handwriting, Monospace]

  /** A catalogue entry (`labelText` is the source's `label`, a reserved word here): the label shown, the family name requested, and its group. */
  datatype GoogleFont = GoogleFont(labelText: string, value: string, category: FontCategory)

  const SANS_SERIF_FONTS: seq<GoogleFont> := [
    GoogleFont("Inter", "Inter", SansSerif),
    GoogleFont("Roboto", "Roboto", SansSerif),
    GoogleFont("Open Sans", "Open Sans", SansSerif),
    GoogleFont("Lato", "Lato", SansSerif),
    GoogleFont("Montserrat", "Montserrat", SansSerif),
    GoogleFont("Oswald", "Oswald", SansSerif),
    GoogleFont("Raleway", "Raleway", SansSerif),
    GoogleFont("Nunito", "Nunito", SansSerif),
    GoogleFont("Poppins", "Poppins", SansSerif),
    GoogleFont("Quicksand", "Quicksand", SansSerif)
  ]

  const SERIF_FONTS: seq<GoogleFont> := [
    GoogleFont("Roboto Slab", "Roboto Slab", Serif),
    GoogleFont("Merriweather", "Merriweather", Serif),
    GoogleFont("Playfair Display", "Playfair Display", Serif),
    GoogleFont("Lora", "Lora", Serif),
    GoogleFont("PT Serif", "PT Serif", Serif),
    GoogleFont("Bitter", "Bitter", Serif),
    GoogleFont("Arvo", "Arvo", Serif),
    GoogleFont("Zilla Slab", "Zilla Slab", Serif)
  ]

  const DISPLAY_FONTS: seq<GoogleFont> := [
    GoogleFont("Bebas Neue", "Bebas Neue", Display),
    GoogleFont("Abril Fatface", "Abril Fatface", Display),
    GoogleFont("Lobster", "Lobster", Display),
    GoogleFont("Comfortaa", "Comfortaa", Display),
    GoogleFont("Righteous", "Righteous", Display),
    GoogleFont("Fredoka One", "Fredoka One", Display),
    GoogleFont("Patua One", "Patua One", Display),
    GoogleFont("Alfa Slab One", "Alfa Slab One", Display),
    GoogleFont("Audiowide", "Audiowide", Display),
    GoogleFont("Bangers", "Bangers", Display),
    GoogleFont("Unica One", "Unica One", Display),
    GoogleFont("Special Elite", "Special Elite", Display),
    GoogleFont("Monoton", "Monoton", Display),
    GoogleFont("Creepster", "Creepster", Display),
    GoogleFont("Rye", "Rye", Display)
  ]

  const HANDWRITING_FONTS: seq<GoogleFont> := [
    GoogleFont("Gloria Hallelujah", "Gloria Hallelujah", Handwriting),
    GoogleFont("Pacifico", "Pacifico", Handwriting),
    GoogleFont("Dancing Script", "Dancing Script", Handwriting),
    GoogleFont("Indie Flower", "Indie Flower", Handwriting),
    GoogleFont("Shadows Into Light", "Shadows Into Light", Handwriting),
    GoogleFont("Amatic SC", "Amatic SC", Handwriting),
    GoogleFont("Caveat", "Caveat", Handwriting),
    GoogleFont("Satisfy", "Satisfy", Handwriting),
    GoogleFont("Courgette", "Courgette", Handwriting),
    GoogleFont("Permanent Marker", "Permanent Marker", Handwriting),
    GoogleFont("Covered By Your Grace", "Covered By Your Grace", Handwriting),
    GoogleFont("Kalam", "Kalam", Handwriting),
    GoogleFont("Handlee", "Handlee", Handwriting),
    GoogleFont("Patrick Hand", "Patrick Hand", Handwriting),
    GoogleFont("Architects Daughter", "Architects Daughter", Handwriting),
    GoogleFont("Coming Soon", "Coming Soon", Handwriting),
    GoogleFont("Reenie Beanie", "Reenie Beanie", Handwriting),
    GoogleFont("Nothing You Could Do", "Nothing You Could Do", Handwriting),
    GoogleFont("Rock Salt", "Rock Salt", Handwriting)
  ]

  const MONOSPACE_FONTS: seq<GoogleFont> := [
    GoogleFont("Roboto Mono", "Roboto Mono", Monospace),
    GoogleFont("Space Mono", "Space Mono", Monospace),
    GoogleFont("VT323", "VT323", Monospace),
    GoogleFont("Cutive Mono", "Cutive Mono", Monospace),
    GoogleFont("Fira Code", "Fira Code", Monospace),
    GoogleFont("Inconsolata", "Inconsolata", Monospace),
    GoogleFont("Source Code Pro", "Source Code Pro", Monospace),
    GoogleFont("IBM Plex Mono", "IBM Plex Mono", Monospace),
    GoogleFont("Nanum Gothic Coding", "Nanum Gothic Coding", Monospace),
    GoogleFont("Anonymous Pro", "Anonymous Pro", Monospace)
  ]

  /** The catalogue, group after group in declaration order. */
  const GOOGLE_FONTS: seq<GoogleFont> :=
    SANS_SERIF_FONTS + (SERIF_FONTS + (DISPLAY_FONTS + (HANDWRITING_FONTS + MONOSPACE_FONTS)))

  const DEFAULT_FONTS: CanvasFonts := CanvasFonts("Inter", "Inter", "Inter", "Gloria Hallelujah", "Inter")

  /** The family names of a list of entries, in order. */
  function FontValues(fs: seq<GoogleFont>): (r: seq<string>)
    ensures |r| == |fs| && forall i :: 0 <= i < |fs| ==> r[i] == fs[i].value
  {
    seq(|fs|, i requires 0 <= i < |fs| => fs[i].value)
  }

  lemma FontValuesAppend(a: seq<GoogleFont>, b: seq<GoogleFont>)
    ensures FontValues(a + b) == FontValues(a) + FontValues(b)
  {
  }

  predicate LabelIsValue(fs: seq<GoogleFont>) {
    forall i :: 0 <= i < |fs| ==> fs[i].labelText == fs[i].value
  }

  /** Every catalogue entry shows its own family name as its label. */
  lemma CatalogueLabelsAreValues()
    ensures LabelIsValue(GOOGLE_FONTS)
  {
    assert LabelIsValue(SANS_SERIF_FONTS);
    assert LabelIsValue(SERIF_FONTS);
    assert LabelIsValue(DISPLAY_FONTS);
    assert LabelIsValue(HANDWRITING_FONTS);
    assert LabelIsValue(MONOSPACE_FONTS);
  }

  /** All entries of `fs` belong to category `c`. */
  predicate AllIn(fs: seq<GoogleFont>, c: FontCategory) {
    forall i :: 0 <= i < |fs| ==> fs[i].category == c
  }

  lemma GroupsHaveTheirCategory()
    ensures AllIn(SANS_SERIF_FONTS, SansSerif) && AllIn(SERIF_FONTS, Serif)
    ensures AllIn(DISPLAY_FONTS, Display) && AllIn(HANDWRITING_FONTS, Handwriting)
    ensures AllIn(MONOSPACE_FONTS, Monospace)
  {
  }

  /** Entries appear in non-decreasing order of their category's declared position. */
  predicate SortedByCategory(fs: seq<GoogleFont>) {
    forall i, j :: 0 <= i < j < |fs| ==> fs[i].category.Rank() <= fs[j].category.Rank()
  }

  /** No category resumes after another one has started. */
  predicate Contiguous(fs: seq<GoogleFont>) {
    forall i, j, k :: 0 <= i < j < k < |fs| && fs[i].category == fs[k].category ==>
      fs[j].category == fs[i].category
  }

  lemma SortedIsContiguous(fs: seq<GoogleFont>)
    requires SortedByCategory(fs)
    ensures Contiguous(fs)
  {
    forall i, j, k | 0 <= i < j < k < |fs| && fs[i].category == fs[k].category
      ensures fs[j].category == fs[i].category
    {
      assert fs[i].category.Rank() <= fs[j].category.Rank() <= fs[k].category.Rank();
    }
  }

  lemma SortedPrepend(a: seq<GoogleFont>, c: FontCategory, b: seq<GoogleFont>)
    requires AllIn(a, c) && SortedByCategory(b)
    requires forall i :: 0 <= i < |b| ==> c.Rank() <= b[i].category.Rank()
    ensures SortedByCategory(a + b)
    ensures forall i :: 0 <= i < |a + b| ==> c.Rank() <= (a + b)[i].category.Rank()
  {
    forall i, j | 0 <= i < j < |a + b|
      ensures (a + b)[i].category.Rank() <= (a + b)[j].category.Rank()
    {
      if j < |a| {
        assert (a + b)[i] == a[i] && (a + b)[j] == a[j];
      } else if i < |a| {
        assert (a + b)[i] == a[i] && (a + b)[j] == b[j - |a|];
      } else {
        assert (a + b)[i] == b[i - |a|] && (a + b)[j] == b[j - |a|];
      }
    }
  }

  /** The catalogue lists its categories in the declared order sans-serif, serif, display,
      handwriting, monospace, each as one contiguous run. */
  lemma CatalogueGroupedByCategory()
    ensures SortedByCategory(GOOGLE_FONTS) && Contiguous(GOOGLE_FONTS)
  {
    GroupsHaveTheirCategory();
    SortedPrepend(HANDWRITING_FONTS, Handwriting, MONOSPACE_FONTS);
    SortedPrepend(DISPLAY_FONTS, Display, HANDWRITING_FONTS + MONOSPACE_FONTS);
    SortedPrepend(SERIF_FONTS, Serif, DISPLAY_FONTS + (HANDWRITING_FONTS + MONOSPACE_FONTS));
    SortedPrepend(SANS_SERIF_FONTS, SansSerif, SERIF_FONTS + (DISPLAY_FONTS + (HANDWRITING_FONTS + MONOSPACE_FONTS)));
    SortedIsContiguous(GOOGLE_FONTS);
  }

  /** The family names of the five groups, group by group. */
  lemma CatalogueValues()
    ensures FontValues(GOOGLE_FONTS) ==
      FontValues(SANS_SERIF_FONTS) + (FontValues(SERIF_FONTS) + (FontValues(DISPLAY_FONTS) +
        (FontValues(HANDWRITING_FONTS) + FontValues(MONOSPACE_FONTS))))
  {
    FontValuesAppend(HANDWRITING_FONTS, MONOSPACE_FONTS);
    FontValuesAppend(DISPLAY_FONTS, HANDWRITING_FONTS + MONOSPACE_FONTS);
    FontValuesAppend(SERIF_FONTS, DISPLAY_FONTS + (HANDWRITING_FONTS + MONOSPACE_FONTS));
    FontValuesAppend(SANS_SERIF_FONTS, SERIF_FONTS + (DISPLAY_FONTS + (HANDWRITING_FONTS + MONOSPACE_FONTS)));
  }

  /** Within each group no family name occurs twice. */
  lemma SansSerifValuesDistinct()
    ensures Distinct(FontValues(SANS_SERIF_FONTS))
  {
  }

  lemma SerifValuesDistinct()
    ensures Distinct(FontValues(SERIF_FONTS))
  {
  }

  lemma DisplayValuesDistinct()
    ensures Distinct(FontValues(DISPLAY_FONTS))
  {
  }

  lemma HandwritingValuesDistinct()
    ensures Distinct(FontValues(HANDWRITING_FONTS))
  {
    var v := FontValues(HANDWRITING_FONTS);
    HandwritingHeadDistinct();
    HandwritingTailDistinct();
    HandwritingHeadDisjointFromTail();
    DistinctAppend(v[..10], v[10..]);
    assert v == v[..10] + v[10..];
  }

  lemma HandwritingHeadDistinct()
    ensures Distinct(FontValues(HANDWRITING_FONTS)[..10])
  {
  }

  lemma HandwritingTailDistinct()
    ensures Distinct(FontValues(HANDWRITING_FONTS)[10..])
  {
  }

  lemma HandwritingHeadDisjointFromTail()
    ensures Disjoint(FontValues(HANDWRITING_FONTS)[..10], FontValues(HANDWRITING_FONTS)[10..])
  {
  }

  lemma MonospaceValuesDistinct()
    ensures Distinct(FontValues(MONOSPACE_FONTS))
  {
  }

  lemma SansSerifDisjointFromSerif()
    ensures Disjoint(FontValues(SANS_SERIF_FONTS), FontValues(SERIF_FONTS))
  {
  }

  lemma SansSerifDisjointFromDisplay()
    ensures Disjoint(FontValues(SANS_SERIF_FONTS), FontValues(DISPLAY_FONTS))
  {
  }

  lemma SansSerifDisjointFromHandwriting()
    ensures Disjoint(FontValues(SANS_SERIF_FONTS), FontValues(HANDWRITING_FONTS))
  {
  }

  lemma SansSerifDisjointFromMonospace()
    ensures Disjoint(FontValues(SANS_SERIF_FONTS), FontValues(MONOSPACE_FONTS))
  {
  }

  lemma SerifDisjointFromDisplay()
    ensures Disjoint(FontValues(SERIF_FONTS), FontValues(DISPLAY_FONTS))
  {
  }

  lemma SerifDisjointFromHandwriting()
    ensures Disjoint(FontValues(SERIF_FONTS), FontValues(HANDWRITING_FONTS))
  {
  }

  lemma SerifDisjointFromMonospace()
    ensures Disjoint(FontValues(SERIF_FONTS), FontValues(MONOSPACE_FONTS))
  {
  }

  lemma DisplayDisjointFromHandwriting()
    ensures Disjoint(FontValues(DISPLAY_FONTS), FontValues(HANDWRITING_FONTS))
  {
  }

  lemma DisplayDisjointFromMonospace()
    ensures Disjoint(FontValues(DISPLAY_FONTS), FontValues(MONOSPACE_FONTS))
  {
  }

  lemma HandwritingDisjointFromMonospace()
    ensures Disjoint(FontValues(HANDWRITING_FONTS), FontValues(MONOSPACE_FONTS))
  {
  }

  lemma HandwritingOnwardDistinct()
    ensures Distinct(FontValues(HANDWRITING_FONTS) + (FontValues(MONOSPACE_FONTS)))
  {
    HandwritingDisjointFromMonospace();
    HandwritingValuesDistinct();
    MonospaceValuesDistinct();
    DistinctAppend(FontValues(HANDWRITING_FONTS), FontValues(MONOSPACE_FONTS));
  }

  lemma DisplayOnwardDistinct()
    ensures Distinct(FontValues(DISPLAY_FONTS) + (FontValues(HANDWRITING_FONTS) + (FontValues(MONOSPACE_FONTS))))
  {
    HandwritingOnwardDistinct();
    DisplayDisjointFromMonospace();
    DisplayDisjointFromHandwriting();
    DisjointAppend(FontValues(DISPLAY_FONTS), FontValues(HANDWRITING_FONTS), FontValues(MONOSPACE_FONTS));
    DisplayValuesDistinct();
    DistinctAppend(FontValues(DISPLAY_FONTS), FontValues(HANDWRITING_FONTS) + (FontValues(MONOSPACE_FONTS)));
  }

  lemma SerifOnwardDistinct()
    ensures Distinct(FontValues(SERIF_FONTS) + (FontValues(DISPLAY_FONTS) + (FontValues(HANDWRITING_FONTS) + (FontValues(MONOSPACE_FONTS)))))
  {
    DisplayOnwardDistinct();
    SerifDisjointFromMonospace();
    SerifDisjointFromHandwriting();
    SerifDisjointFromDisplay();
    DisjointAppend(FontValues(SERIF_FONTS), FontValues(HANDWRITING_FONTS), FontValues(MONOSPACE_FONTS));
    DisjointAppend(FontValues(SERIF_FONTS), FontValues(DISPLAY_FONTS), FontValues(HANDWRITING_FONTS) + (FontValues(MONOSPACE_FONTS)));
    SerifValuesDistinct();
    DistinctAppend(FontValues(SERIF_FONTS), FontValues(DISPLAY_FONTS) + (FontValues(HANDWRITING_FONTS) + (FontValues(MONOSPACE_FONTS))));
  }

  lemma GroupedValuesDistinct()
    ensures Distinct(FontValues(SANS_SERIF_FONTS) + (FontValues(SERIF_FONTS) + (FontValues(DISPLAY_FONTS) + (FontValues(HANDWRITING_FONTS) + (FontValues(MONOSPACE_FONTS))))))
  {
    SerifOnwardDistinct();
    SansSerifDisjointFromMonospace();
    SansSerifDisjointFromHandwriting();
    SansSerifDisjointFromDisplay();
    SansSerifDisjointFromSerif();
    DisjointAppend(FontValues(SANS_SERIF_FONTS), FontValues(HANDWRITING_FONTS), FontValues(MONOSPACE_FONTS));
    DisjointAppend(FontValues(SANS_SERIF_FONTS), FontValues(DISPLAY_FONTS), FontValues(HANDWRITING_FONTS) + (FontValues(MONOSPACE_FONTS)));
    DisjointAppend(FontValues(SANS_SERIF_FONTS), FontValues(SERIF_FONTS), FontValues(DISPLAY_FONTS) + (FontValues(HANDWRITING_FONTS) + (FontValues(MONOSPACE_FONTS))));
    SansSerifValuesDistinct();
    DistinctAppend(FontValues(SANS_SERIF_FONTS), FontValues(SERIF_FONTS) + (FontValues(DISPLAY_FONTS) + (FontValues(HANDWRITING_FONTS) + (FontValues(MONOSPACE_FONTS)))));
  }

  /** No family name occurs twice in the catalogue. */
  lemma CatalogueValuesDistinct()
    ensures |GOOGLE_FONTS| == 62 && Distinct(FontValues(GOOGLE_FONTS))
  {
    CatalogueValues();
    GroupedValuesDistinct();
  }

  /** Every default role value is a catalogue family. */
  lemma DefaultFontsInCatalogue()
    ensures forall v :: v in DEFAULT_FONTS.Values() ==> v in FontValues(GOOGLE_FONTS)
  {
    var values := FontValues(GOOGLE_FONTS);
    assert values[0] == "Inter";
    assert GOOGLE_FONTS[33] == HANDWRITING_FONTS[0];
    assert values[33] == "Gloria Hallelujah";
  }
}
