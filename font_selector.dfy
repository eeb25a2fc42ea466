/** The font picker (src/components/FontSelector.tsx): the fonts it shows, the records its
    master and per-role dropdowns emit, and the grouping of the catalogue into option
    groups. */
module FontSelector {
  import opened Wrappers
  import opened CanvasTypes
  import opened Seqs
  import opened Fonts
  import opened GoogleFonts

  /** `fonts || DEFAULT_FONTS`: the document's fonts, or the defaults when it has none. */
  function CurrentFonts(fonts: Option<CanvasFonts>): CanvasFonts {
    fonts.GetOr(DEFAULT_FONTS)
  }

  /** The value the master dropdown shows. */
  function MasterValue(fonts: Option<CanvasFonts>): string {
    CurrentFonts(fonts).canvasTitle
  }

  /** `handleGlobalChange`: the record the master dropdown emits. */
  function GlobalChange(family: string): (r: CanvasFonts)
    ensures forall role :: r.Get(role) == family
  {
    CanvasFonts(family, family, family, family, family)
  }

  /** `handleIndividualChange`: the record a role's dropdown emits. */
  function IndividualChange(fonts: Option<CanvasFonts>, role: FontRole, family: string): (r: CanvasFonts)
    ensures r.Get(role) == family
    ensures forall other :: other != role ==> r.Get(other) == CurrentFonts(fonts).Get(other)
  {
    CurrentFonts(fonts).With(role, family)
  }

  /** Two font records that agree on every role are equal. */
  lemma SameRolesSameFonts(a: CanvasFonts, b: CanvasFonts)
    requires forall role :: a.Get(role) == b.Get(role)
    ensures a == b
  {
    assert a.Get(CanvasTitle) == b.Get(CanvasTitle) && a.Get(CanvasCaption) == b.Get(CanvasCaption);
    assert a.Get(BlockTitle) == b.Get(BlockTitle) && a.Get(NoteTitle) == b.Get(NoteTitle);
    assert a.Get(NoteBody) == b.Get(NoteBody);
  }

  /** Without fonts in the document the picker shows the defaults, all of them catalogue
      families; with fonts it shows them. */
  lemma CurrentFontsFallback(fonts: Option<CanvasFonts>)
    ensures fonts.Some? ==> CurrentFonts(fonts) == fonts.value
    ensures fonts.None? ==> forall v :: v in CurrentFonts(fonts).Values() ==> v in FontValues(GOOGLE_FONTS)
  {
    DefaultFontsInCatalogue();
  }

  /** Changing each role in turn to the same family gives what the master dropdown gives,
      whatever the starting fonts. */
  lemma IndividualChangesMakeGlobal(fonts: Option<CanvasFonts>, family: string)
    ensures var f1 := IndividualChange(fonts, CanvasTitle, family);
      var f2 := IndividualChange(Some(f1), CanvasCaption, family);
      var f3 := IndividualChange(Some(f2), BlockTitle, family);
      var f4 := IndividualChange(Some(f3), NoteTitle, family);
      IndividualChange(Some(f4), NoteBody, family) == GlobalChange(family)
  {
    var f1 := IndividualChange(fonts, CanvasTitle, family);
    var f2 := IndividualChange(Some(f1), CanvasCaption, family);
    var f3 := IndividualChange(Some(f2), BlockTitle, family);
    var f4 := IndividualChange(Some(f3), NoteTitle, family);
    var f5 := IndividualChange(Some(f4), NoteBody, family);
    forall role ensures f5.Get(role) == GlobalChange(family).Get(role) {
    }
    SameRolesSameFonts(f5, GlobalChange(family));
  }

  /** The master dropdown follows the canvas-title role: it shows the family just chosen
      globally or for that role, and is unaffected by the other roles. */
  lemma MasterFollowsCanvasTitle(fonts: Option<CanvasFonts>, role: FontRole, family: string)
    ensures MasterValue(Some(GlobalChange(family))) == family
    ensures MasterValue(Some(IndividualChange(fonts, role, family))) ==
      (if role == CanvasTitle then family else MasterValue(fonts))
  {
    assert GlobalChange(family).Get(CanvasTitle) == family;
    var r := IndividualChange(fonts, role, family);
    assert r.canvasTitle == r.Get(CanvasTitle);
  }

  /** A global choice makes the loader request that one family, unless it is empty or
      already loaded. */
  lemma GlobalChangeRequestsOneFamily(family: string, loaded: set<string>)
    ensures FontsToLoad(GlobalChange(family).Values(), loaded) ==
      (if family == "" || family in loaded then [] else [family])
  {
    var values := GlobalChange(family).Values();
    var r := FontsToLoad(values, loaded);
    forall x | x in r ensures x == family {
      assert x in values;
    }
    DistinctCard(r);
    if family == "" || family in loaded {
      assert (set x | x in r) == {};
    } else {
      assert values[0] == family;
      assert (set x | x in r) == {family};
      assert r[0] in r;
      assert r == [family];
    }
  }

  // ---------------------------------------------------------------------------------
  // Option groups

  /** `Array.from(new Set(fs.map(f => f.category)))`: each category once, in the order of
      its first entry. */
  function Categories(fs: seq<GoogleFont>): (r: seq<FontCategory>)
    ensures Distinct(r)
    decreases |fs|
  {
    if fs == [] then []
    else
      var prev := Categories(fs[..|fs| - 1]);
      var c := fs[|fs| - 1].category;
      if c in prev then prev else prev + [c]
  }

  /** The listed categories are exactly those of some entry. */
  lemma {:induction false} CategoriesMembers(fs: seq<GoogleFont>)
    ensures forall c :: c in Categories(fs) <==> exists i :: 0 <= i < |fs| && fs[i].category == c
    decreases |fs|
  {
    if fs != [] {
      var init := fs[..|fs| - 1];
      CategoriesMembers(init);
      assert forall i :: 0 <= i < |init| ==> init[i] == fs[i];
    }
  }

  /** Appending a run of one category adds that category at the end, unless it was
      already listed. */
  lemma {:induction false} CategoriesAppendRun(fs: seq<GoogleFont>, run: seq<GoogleFont>, c: FontCategory)
    requires run != [] && AllIn(run, c)
    ensures Categories(fs + run) == Categories(fs) + (if c in Categories(fs) then [] else [c])
    decreases |run|
  {
    var all := fs + run;
    assert all[..|all| - 1] == fs + run[..|run| - 1];
    assert all[|all| - 1] == run[|run| - 1];
    if |run| > 1 {
      CategoriesAppendRun(fs, run[..|run| - 1], c);
    }
  }

  /** `fs.filter(f => f.category === c)`: the options of one group, in list order. */
  function OptionsFor(fs: seq<GoogleFont>, c: FontCategory): (r: seq<GoogleFont>)
    ensures |r| <= |fs| && AllIn(r, c)
    decreases |fs|
  {
    if fs == [] then []
    else
      var prev := OptionsFor(fs[..|fs| - 1], c);
      var f := fs[|fs| - 1];
      if f.category == c then prev + [f] else prev
  }

  /** The options are exactly the entries of the category. */
  lemma {:induction false} OptionsMembers(fs: seq<GoogleFont>, c: FontCategory)
    ensures forall f :: f in OptionsFor(fs, c) <==> f in fs && f.category == c
    decreases |fs|
  {
    if fs != [] {
      OptionsMembers(fs[..|fs| - 1], c);
      assert fs == fs[..|fs| - 1] + [fs[|fs| - 1]];
    }
  }

  /** Filtering distributes over concatenation, so the options keep the list order. */
  lemma {:induction false} OptionsAppend(a: seq<GoogleFont>, b: seq<GoogleFont>, c: FontCategory)
    ensures OptionsFor(a + b, c) == OptionsFor(a, c) + OptionsFor(b, c)
    decreases |b|
  {
    if b == [] {
      assert a + b == a;
    } else {
      var all := a + b;
      assert all[..|all| - 1] == a + b[..|b| - 1];
      assert all[|all| - 1] == b[|b| - 1];
      OptionsAppend(a, b[..|b| - 1], c);
    }
  }

  /** A run of one category is all of that category's options and none of another's. */
  lemma {:induction false} OptionsOfRun(run: seq<GoogleFont>, c: FontCategory, other: FontCategory)
    requires AllIn(run, c) && other != c
    ensures OptionsFor(run, c) == run
    ensures OptionsFor(run, other) == []
    decreases |run|
  {
    if run != [] {
      OptionsOfRun(run[..|run| - 1], c, other);
      assert run == run[..|run| - 1] + [run[|run| - 1]];
    }
  }

  /** Five non-empty runs, one per category in declaration order. */
  predicate GroupedRuns(a: seq<GoogleFont>, b: seq<GoogleFont>, c: seq<GoogleFont>, d: seq<GoogleFont>, e: seq<GoogleFont>) {
    a != [] && b != [] && c != [] && d != [] && e != [] &&
    AllIn(a, SansSerif) && AllIn(b, Serif) && AllIn(c, Display) && AllIn(d, Handwriting) && AllIn(e, Monospace)
  }

  /** The runs one after another. */
  function Flatten(runs: seq<seq<GoogleFont>>): seq<GoogleFont> {
    if runs == [] then [] else runs[0] + Flatten(runs[1..])
  }

  /** Flattening peels off the last run as well as the first. */
  lemma {:induction false} FlattenLast(runs: seq<seq<GoogleFont>>)
    requires runs != []
    ensures Flatten(runs) == Flatten(runs[..|runs| - 1]) + runs[|runs| - 1]
    decreases |runs|
  {
    var n := |runs|;
    if n == 1 {
      assert runs[1..] == [] && runs[..0] == [];
      assert runs[0] + [] == [] + runs[0];
    } else {
      var tail := runs[1..];
      FlattenLast(tail);
      assert tail[..|tail| - 1] == runs[..n - 1][1..];
      assert tail[|tail| - 1] == runs[n - 1];
      assert runs[..n - 1][0] == runs[0];
      assert runs[0] + (Flatten(tail[..|tail| - 1]) + runs[n - 1])
        == (runs[0] + Flatten(tail[..|tail| - 1])) + runs[n - 1];
    }
  }

  /** Non-empty runs, the `i`-th of category `cs[i]` and the categories distinct, yield
      exactly those categories in run order. */
  lemma {:induction false} CategoriesOfTaggedRuns(runs: seq<seq<GoogleFont>>, cs: seq<FontCategory>)
    requires |runs| == |cs| && Distinct(cs)
    requires forall i :: 0 <= i < |runs| ==> runs[i] != [] && AllIn(runs[i], cs[i])
    ensures Categories(Flatten(runs)) == cs
    decreases |runs|
  {
    if runs != [] {
      var n := |runs|;
      FlattenLast(runs);
      CategoriesOfTaggedRuns(runs[..n - 1], cs[..n - 1]);
      assert cs[n - 1] !in cs[..n - 1];
      CategoriesAppendRun(Flatten(runs[..n - 1]), runs[n - 1], cs[n - 1]);
      assert cs[..n - 1] + [cs[n - 1]] == cs;
    }
  }

  /** Five grouped runs yield the five categories in declaration order. */
  lemma CategoriesOfRuns(a: seq<GoogleFont>, b: seq<GoogleFont>, c: seq<GoogleFont>, d: seq<GoogleFont>, e: seq<GoogleFont>)
    requires GroupedRuns(a, b, c, d, e)
    ensures Categories(a + (b + (c + (d + e)))) == FONT_CATEGORIES
  {
    FlattenFive(a, b, c, d, e);
    CategoriesOfTaggedRuns([a, b, c, d, e], FONT_CATEGORIES);
  }

  /** Five runs flattened are the five runs concatenated. */
  lemma FlattenFive(a: seq<GoogleFont>, b: seq<GoogleFont>, c: seq<GoogleFont>, d: seq<GoogleFont>, e: seq<GoogleFont>)
    ensures Flatten([a, b, c, d, e]) == a + (b + (c + (d + e)))
  {
    assert Flatten([e]) == e by {
      assert [e][1..] == [] && e + [] == e;
    }
    assert Flatten([d, e]) == d + e by {
      assert [d, e][1..] == [e];
    }
    assert Flatten([c, d, e]) == c + (d + e) by {
      assert [c, d, e][1..] == [d, e];
    }
    assert Flatten([b, c, d, e]) == b + (c + (d + e)) by {
      assert [b, c, d, e][1..] == [c, d, e];
    }
    assert [a, b, c, d, e][1..] == [b, c, d, e];
  }

  /** In five grouped runs, each category's options are its run. */
  lemma OptionsOfRuns(a: seq<GoogleFont>, b: seq<GoogleFont>, c: seq<GoogleFont>, d: seq<GoogleFont>, e: seq<GoogleFont>, cat: FontCategory)
    requires GroupedRuns(a, b, c, d, e)
    ensures OptionsFor(a + (b + (c + (d + e))), cat) == [a, b, c, d, e][cat.Rank()]
  {
    FlattenFive(a, b, c, d, e);
    assert FONT_CATEGORIES[cat.Rank()] == cat;
    OptionsOfTaggedRuns([a, b, c, d, e], FONT_CATEGORIES, cat.Rank());
  }

  /** Runs tagged with distinct categories: the options of the `k`-th category are the
      `k`-th run. */
  lemma {:induction false} OptionsOfTaggedRuns(runs: seq<seq<GoogleFont>>, cs: seq<FontCategory>, k: nat)
    requires |runs| == |cs| && Distinct(cs) && k < |cs|
    requires forall i :: 0 <= i < |runs| ==> AllIn(runs[i], cs[i])
    ensures OptionsFor(Flatten(runs), cs[k]) == runs[k]
    decreases |runs|
  {
    OptionsAppend(runs[0], Flatten(runs[1..]), cs[k]);
    OptionsOfRunFor(runs[0], cs[0], cs[k]);
    if k == 0 {
      OptionsOfOtherRuns(runs[1..], cs[1..], cs[0]);
      assert runs[0] + [] == runs[0];
    } else {
      OptionsOfTaggedRuns(runs[1..], cs[1..], k - 1);
      assert cs[0] != cs[k];
    }
  }

  /** Runs of categories other than `c` contribute no options of `c`. */
  lemma {:induction false} OptionsOfOtherRuns(runs: seq<seq<GoogleFont>>, cs: seq<FontCategory>, c: FontCategory)
    requires |runs| == |cs| && c !in cs
    requires forall i :: 0 <= i < |runs| ==> AllIn(runs[i], cs[i])
    ensures OptionsFor(Flatten(runs), c) == []
    decreases |runs|
  {
    if runs != [] {
      OptionsAppend(runs[0], Flatten(runs[1..]), c);
      OptionsOfRunFor(runs[0], cs[0], c);
      OptionsOfOtherRuns(runs[1..], cs[1..], c);
    }
  }

  /** A run of one category is that category's options and contributes nothing to any
      other's. */
  lemma OptionsOfRunFor(run: seq<GoogleFont>, runCat: FontCategory, cat: FontCategory)
    requires AllIn(run, runCat)
    ensures OptionsFor(run, cat) == if cat == runCat then run else []
  {
    OptionsOfRun(run, runCat, if cat == runCat then (if runCat == SansSerif then Serif else SansSerif) else cat);
  }

  /** The options of a dropdown: each group's options, group after group. */
  function DropdownOptions(cats: seq<FontCategory>, fs: seq<GoogleFont>): seq<GoogleFont> {
    if cats == [] then [] else OptionsFor(fs, cats[0]) + DropdownOptions(cats[1..], fs)
  }

  /** A dropdown over five grouped runs lists them all, in order. */
  lemma DropdownOfRuns(a: seq<GoogleFont>, b: seq<GoogleFont>, c: seq<GoogleFont>, d: seq<GoogleFont>, e: seq<GoogleFont>)
    requires GroupedRuns(a, b, c, d, e)
    ensures var all := a + (b + (c + (d + e)));
      DropdownOptions(Categories(all), all) == all
  {
    var all := a + (b + (c + (d + e)));
    CategoriesOfRuns(a, b, c, d, e);
    OptionsOfRuns(a, b, c, d, e, SansSerif);
    OptionsOfRuns(a, b, c, d, e, Serif);
    OptionsOfRuns(a, b, c, d, e, Display);
    OptionsOfRuns(a, b, c, d, e, Handwriting);
    OptionsOfRuns(a, b, c, d, e, Monospace);
    var cats := FONT_CATEGORIES;
    assert DropdownOptions([Monospace], all) == e by {
      assert [Monospace][1..] == [];
    }
    assert DropdownOptions([Handwriting, Monospace], all) == d + e by {
      assert [Handwriting, Monospace][1..] == [Monospace];
    }
    assert DropdownOptions([Display, Handwriting, Monospace], all) == c + (d + e) by {
      assert [Display, Handwriting, Monospace][1..] == [Handwriting, Monospace];
    }
    assert DropdownOptions([Serif, Display, Handwriting, Monospace], all) == b + (c + (d + e)) by {
      assert [Serif, Display, Handwriting, Monospace][1..] == [Display, Handwriting, Monospace];
    }
    assert cats[1..] == [Serif, Display, Handwriting, Monospace];
  }

  /** The catalogue entries of one category, as declared. */
  function Group(c: FontCategory): seq<GoogleFont> {
    match c
    case SansSerif => SANS_SERIF_FONTS
    case Serif => SERIF_FONTS
    case Display => DISPLAY_FONTS
    case Handwriting => HANDWRITING_FONTS
    case Monospace => MONOSPACE_FONTS
  }

  lemma CatalogueIsGrouped()
    ensures GroupedRuns(SANS_SERIF_FONTS, SERIF_FONTS, DISPLAY_FONTS, HANDWRITING_FONTS, MONOSPACE_FONTS)
  {
    GroupsHaveTheirCategory();
  }

  /** The option groups of the catalogue are its five categories in declaration order. */
  lemma CatalogueCategories()
    ensures Categories(GOOGLE_FONTS) == FONT_CATEGORIES
  {
    CatalogueIsGrouped();
    CategoriesOfRuns(SANS_SERIF_FONTS, SERIF_FONTS, DISPLAY_FONTS, HANDWRITING_FONTS, MONOSPACE_FONTS);
  }

  /** Each option group lists exactly the catalogue entries of its category, in
      catalogue order. */
  lemma CatalogueOptions(c: FontCategory)
    ensures OptionsFor(GOOGLE_FONTS, c) == Group(c)
  {
    CatalogueIsGrouped();
    OptionsOfRuns(SANS_SERIF_FONTS, SERIF_FONTS, DISPLAY_FONTS, HANDWRITING_FONTS, MONOSPACE_FONTS, c);
  }

  /** Every dropdown lists the whole catalogue, in catalogue order, each entry once. */
  lemma DropdownListsCatalogue()
    ensures DropdownOptions(Categories(GOOGLE_FONTS), GOOGLE_FONTS) == GOOGLE_FONTS
  {
    CatalogueIsGrouped();
    DropdownOfRuns(SANS_SERIF_FONTS, SERIF_FONTS, DISPLAY_FONTS, HANDWRITING_FONTS, MONOSPACE_FONTS);
  }
}
