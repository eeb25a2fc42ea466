/** The font loader (src/hooks/useGoogleFonts.ts): a process-wide cache of the font
    families already requested, and the effect that requests the missing ones with one
    stylesheet link. */
module GoogleFonts {
  import opened Wrappers
  import opened CanvasTypes
  import opened JsText
  import opened Seqs

  const STYLESHEET_BASE: string := "https://fonts.googleapis.com/css2?"
  const FAMILY_WEIGHTS: string := ":wght@400;700"
  const DISPLAY_SWAP: string := "&display=swap"

  /** The fonts one run requests: the non-empty role values not yet loaded, each once, in
      the order they are first met (the insertion order of a JavaScript `Set`). */
  function FontsToLoad(values: seq<string>, loaded: set<string>): (r: seq<string>)
    ensures forall x :: x in r <==> x in values && x != "" && x !in loaded
    ensures Distinct(r)
    decreases |values|
  {
    if values == [] then []
    else
      var prev := FontsToLoad(values[..|values| - 1], loaded);
      var v := values[|values| - 1];
      assert values == values[..|values| - 1] + [v];
      if v != "" && v !in loaded && v !in prev then prev + [v] else prev
  }

  /** Requesting again what one run requested finds nothing left to request. */
  lemma SecondRunLoadsNothing(values: seq<string>, loaded: set<string>)
    ensures var batch := FontsToLoad(values, loaded);
      FontsToLoad(values, loaded + set f | f in batch) == []
  {
    var batch := FontsToLoad(values, loaded);
    var again := FontsToLoad(values, loaded + set f | f in batch);
    if again != [] {
      assert again[0] in again;
    }
  }

  /** One `family=` parameter: the name with every space turned into `+`, and the two
      weights. */
  function FamilyParam(font: string): string {
    "family=" + ReplaceChar(font, ' ', '+') + FAMILY_WEIGHTS
  }

  /** The family parameters of a batch, in batch order. */
  function FamilyParams(batch: seq<string>): (r: seq<string>)
    ensures |r| == |batch| && forall i :: 0 <= i < |batch| ==> r[i] == FamilyParam(batch[i])
  {
    seq(|batch|, i requires 0 <= i < |batch| => FamilyParam(batch[i]))
  }

  /** The stylesheet URL for a batch of fonts. */
  function FontsUrl(batch: seq<string>): string {
    STYLESHEET_BASE + Join(FamilyParams(batch), "&") + DISPLAY_SWAP
  }

  /** A family parameter has no space, and the name can be read back from it by turning
      `+` into spaces again, provided the name had no `+` of its own. */
  lemma FamilyParamDecodes(font: string)
    ensures var p := FamilyParam(font);
      ' ' !in p && |p| == |font| + 20 && p[..7] == "family=" && p[|p| - 13..] == FAMILY_WEIGHTS &&
      ('+' !in font ==> ReplaceChar(p[7..|p| - 13], '+', ' ') == font)
  {
    var p := FamilyParam(font);
    var mid := ReplaceChar(font, ' ', '+');
    assert p[7..|p| - 13] == mid;
    assert p[|p| - 13..] == FAMILY_WEIGHTS;
    assert p[..7] == "family=";
    forall k | 0 <= k < |p| ensures p[k] != ' ' {
      if 7 <= k < |p| - 13 {
        assert p[k] == mid[k - 7];
      }
    }
    if '+' !in font {
      var back := ReplaceChar(mid, '+', ' ');
      forall i | 0 <= i < |font| ensures back[i] == font[i] {
        assert font[i] in font;
      }
    }
  }

  /** Joining parts that lack a character, with a separator that lacks it, gives text
      that lacks it. */
  lemma {:induction false} JoinLacks(parts: seq<string>, sep: string, c: char)
    requires forall i :: 0 <= i < |parts| ==> c !in parts[i]
    requires c !in sep
    ensures c !in Join(parts, sep)
    decreases |parts|
  {
    if |parts| > 1 {
      JoinLacks(parts[1..], sep, c);
    }
  }

  /** Text framed by a prefix and a suffix gives back both, and what follows the prefix. */
  lemma Framed(a: string, m: string, z: string)
    ensures (a + m + z)[..|a|] == a
    ensures (a + m + z)[|a|..] == m + z
    ensures (a + m + z)[|a + m|..] == z
  {
    assert a + m + z == a + (m + z);
  }

  /** The stylesheet URL has the fixed base and tail and contains no space. */
  lemma UrlShape(batch: seq<string>)
    ensures var u := FontsUrl(batch);
      u[..|STYLESHEET_BASE|] == STYLESHEET_BASE && u[|u| - |DISPLAY_SWAP|..] == DISPLAY_SWAP && ' ' !in u
  {
    var params := FamilyParams(batch);
    var joined := Join(params, "&");
    assert ' ' !in joined by {
      forall i | 0 <= i < |params| ensures ' ' !in params[i] {
        FamilyParamDecodes(batch[i]);
      }
      JoinLacks(params, "&", ' ');
    }
    Framed(STYLESHEET_BASE, joined, DISPLAY_SWAP);
    assert ' ' !in STYLESHEET_BASE + joined + DISPLAY_SWAP by {
      assert ' ' !in STYLESHEET_BASE && ' ' !in DISPLAY_SWAP;
    }
  }

  /** Requests are joined with `&`: one font gives one family parameter, and each further
      font adds `&` and its own parameter. */
  lemma UrlJoinsFamilies(batch: seq<string>)
    requires batch != []
    ensures |batch| == 1 ==> FontsUrl(batch) == STYLESHEET_BASE + FamilyParam(batch[0]) + DISPLAY_SWAP
    ensures |batch| > 1 ==>
      FontsUrl(batch) == STYLESHEET_BASE + FamilyParam(batch[0]) + "&" + FontsUrl(batch[1..])[|STYLESHEET_BASE|..]
  {
    var params := FamilyParams(batch);
    if |batch| > 1 {
      var rest := FamilyParams(batch[1..]);
      assert params[1..] == rest;
      var joined := Join(rest, "&");
      assert Join(params, "&") == params[0] + "&" + joined;
      Framed(STYLESHEET_BASE, joined, DISPLAY_SWAP);
      assert FontsUrl(batch[1..])[|STYLESHEET_BASE|..] == joined + DISPLAY_SWAP;
      assert STYLESHEET_BASE + (params[0] + "&" + joined) + DISPLAY_SWAP
        == STYLESHEET_BASE + params[0] + "&" + (joined + DISPLAY_SWAP);
    }
  }

  /** The `forEach` that collects, into a fresh set, the role values worth requesting. */
  method CollectFontsToLoad(values: seq<string>, loaded: set<string>) returns (toLoad: seq<string>)
    ensures toLoad == FontsToLoad(values, loaded)
  {
    toLoad := [];
    var i := 0;
    while i < |values|
      invariant 0 <= i <= |values|
      invariant toLoad == FontsToLoad(values[..i], loaded)
    {
      assert values[..i + 1][..i] == values[..i];
      var name := values[i];
      if name != "" && name !in loaded && name !in toLoad {
        toLoad := toLoad + [name];
      }
      i := i + 1;
    }
    assert values[..i] == values;
  }

  /** The cache of requested families and the stylesheet links added to the document. */
  class FontCache {
    var loadedFonts: set<string>
    /** The address of every stylesheet link appended to the document head, in order. */
    var links: seq<string>

    constructor()
      ensures loadedFonts == {} && links == []
    {
      loadedFonts := {};
      links := [];
    }

    /** One run of the effect for the document's fonts. Without fonts, or with nothing
        new to request, it does nothing; otherwise it appends one link for the new
        fonts and adds exactly them to the cache. */
    method Effect(fonts: Option<CanvasFonts>)
      modifies this
      ensures fonts.None? ==> loadedFonts == old(loadedFonts) && links == old(links)
      ensures fonts.Some? ==>
        var batch := FontsToLoad(fonts.value.Values(), old(loadedFonts));
        loadedFonts == old(loadedFonts) + (set f | f in batch) &&
        links == old(links) + (if batch == [] then [] else [FontsUrl(batch)])
    {
      if fonts.None? {
        return;
      }
      var toLoad := CollectFontsToLoad(fonts.value.Values(), loadedFonts);
      if toLoad == [] {
        return;
      }
      links := links + [FontsUrl(toLoad)];
      ghost var before := loadedFonts;
      var j := 0;
      while j < |toLoad|
        invariant 0 <= j <= |toLoad|
        invariant links == old(links) + [FontsUrl(toLoad)]
        invariant loadedFonts == before + set f | f in toLoad[..j]
      {
        assert toLoad[..j + 1] == toLoad[..j] + [toLoad[j]];
        loadedFonts := loadedFonts + {toLoad[j]};
        j := j + 1;
      }
      assert toLoad[..j] == toLoad;
    }
  }

  /** Two runs with the same fonts leave exactly what one run leaves: the second finds
      nothing new to request, so at most one link is appended and the cache only grows. */
  method RunTwice(c: FontCache, fonts: Option<CanvasFonts>)
    modifies c
    ensures fonts.None? ==> c.loadedFonts == old(c.loadedFonts) && c.links == old(c.links)
    ensures fonts.Some? ==>
      var batch := FontsToLoad(fonts.value.Values(), old(c.loadedFonts));
      c.loadedFonts == old(c.loadedFonts) + (set f | f in batch) &&
      c.links == old(c.links) + (if batch == [] then [] else [FontsUrl(batch)])
    ensures |c.links| <= |old(c.links)| + 1
    ensures old(c.loadedFonts) <= c.loadedFonts
  {
    c.Effect(fonts);
    if fonts.Some? {
      SecondRunLoadsNothing(fonts.value.Values(), old(c.loadedFonts));
    }
    c.Effect(fonts);
  }
}
