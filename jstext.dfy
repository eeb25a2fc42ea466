/** The JavaScript string operations the core relies on, over `seq<char>`. A Dafny
    `char` is a Unicode scalar value, so a character outside the Basic Multilingual Plane
    is one `char` here where JavaScript counts two code units, and lone surrogates cannot
    occur. */
module JsText {

  /** The class `\s` of JavaScript regular expressions, which is also the set of
      characters `String.prototype.trim` removes: tab, line feed, vertical tab, form
      feed, carriage return, space, U+00A0, U+1680, U+2000..U+200A, U+2028, U+2029,
      U+202F, U+205F, U+3000 and U+FEFF. */
  predicate IsSpace(c: char) {
    var n := c as int;
    (9 <= n <= 13) || n == 0x20 || n == 0xA0 || n == 0x1680 || (0x2000 <= n <= 0x200A)
    || n == 0x2028 || n == 0x2029 || n == 0x202F || n == 0x205F || n == 0x3000 || n == 0xFEFF
  }

  predicate NoSpace(s: string) {
    forall i :: 0 <= i < |s| ==> !IsSpace(s[i])
  }

  predicate AllSpace(s: string) {
    forall i :: 0 <= i < |s| ==> IsSpace(s[i])
  }

  /** `s.trimStart()`: the suffix of `s` left after dropping its leading whitespace. */
  function TrimStart(s: string): (r: string)
    ensures |r| <= |s| && r == s[|s| - |r|..]
    ensures r == [] || !IsSpace(r[0])
    ensures AllSpace(s[..|s| - |r|])
  {
    if s != [] && IsSpace(s[0]) then TrimStart(s[1..]) else s
  }

  /** `s.trimEnd()`: the prefix of `s` left after dropping its trailing whitespace. */
  function TrimEnd(s: string): (r: string)
    ensures |r| <= |s| && r == s[..|r|]
    ensures r == [] || !IsSpace(r[|r| - 1])
    ensures AllSpace(s[|r|..])
  {
    if s != [] && IsSpace(s[|s| - 1]) then TrimEnd(s[..|s| - 1]) else s
  }

  /** `s.trim()` */
  function Trim(s: string): string {
    TrimEnd(TrimStart(s))
  }

  /** `s.startsWith(p)` */
  predicate StartsWith(s: string, p: string) {
    |p| <= |s| && s[..|p|] == p
  }

  /** `s.includes(p)` */
  predicate Contains(s: string, p: string)
    decreases |s|
  {
    StartsWith(s, p) || (s != [] && Contains(s[1..], p))
  }

  /** `s.replace(/x/g, y)` for a single character `x`. */
  function ReplaceChar(s: string, x: char, y: char): (r: string)
    ensures |r| == |s|
    ensures forall i :: 0 <= i < |s| ==> r[i] == if s[i] == x then y else s[i]
  {
    seq(|s|, i requires 0 <= i < |s| => if s[i] == x then y else s[i])
  }

  /** `s.replace(/\s+/g, r)`: every maximal run of whitespace becomes the single character `r`. */
  function CollapseSpaces(s: string, r: char): string
    decreases |s|
  {
    if s == [] then []
    else if IsSpace(s[0]) then [r] + CollapseSpaces(TrimStart(s), r)
    else [s[0]] + CollapseSpaces(s[1..], r)
  }

  /** `parts.join(sep)` */
  function Join(parts: seq<string>, sep: string): string {
    if |parts| == 0 then ""
    else if |parts| == 1 then parts[0]
    else parts[0] + sep + Join(parts[1..], sep)
  }

  /** When the replacement is not whitespace, no whitespace survives the collapse. */
  lemma {:induction false} CollapseHasNoSpace(s: string, r: char)
    requires !IsSpace(r)
    ensures NoSpace(CollapseSpaces(s, r))
    decreases |s|
  {
    if s == [] {
    } else if IsSpace(s[0]) {
      CollapseHasNoSpace(TrimStart(s), r);
    } else {
      CollapseHasNoSpace(s[1..], r);
    }
  }

  /** Text without whitespace is left as it is. */
  lemma {:induction false} CollapseKeepsSpaceFree(s: string, r: char)
    requires NoSpace(s)
    ensures CollapseSpaces(s, r) == s
    decreases |s|
  {
    if s != [] {
      assert !IsSpace(s[0]);
      CollapseKeepsSpaceFree(s[1..], r);
    }
  }

  /** Collapsing a space-free prefix distributes over concatenation. */
  lemma {:induction false} CollapseSpaceFreePrefix(w: string, t: string, r: char)
    requires NoSpace(w)
    ensures CollapseSpaces(w + t, r) == w + CollapseSpaces(t, r)
    decreases |w|
  {
    if w == [] {
      assert w + t == t;
    } else {
      var s := w + t;
      assert s[0] == w[0] && !IsSpace(w[0]);
      assert s[1..] == w[1..] + t;
      CollapseWordStart(s, r);
      CollapseSpaceFreePrefix(w[1..], t, r);
      assert [w[0]] + (w[1..] + CollapseSpaces(t, r)) == w + CollapseSpaces(t, r) by {
        assert [w[0]] + w[1..] == w;
      }
    }
  }

  /** A leading non-whitespace character is kept, and the rest collapsed. */
  lemma CollapseWordStart(s: string, r: char)
    requires s != [] && !IsSpace(s[0])
    ensures CollapseSpaces(s, r) == [s[0]] + CollapseSpaces(s[1..], r)
  {
  }

  /** A whitespace run of any length between two space-free words becomes one `r`. */
  lemma CollapseRun(w1: string, run: string, w2: string, r: char)
    requires NoSpace(w1) && NoSpace(w2)
    requires run != [] && AllSpace(run)
    ensures CollapseSpaces(w1 + run + w2, r) == w1 + [r] + w2
  {
    assert w1 + run + w2 == w1 + (run + w2);
    CollapseSpaceFreePrefix(w1, run + w2, r);
    CollapseLeadingRun(run, w2, r);
    assert w1 + ([r] + w2) == w1 + [r] + w2;
  }

  /** A leading whitespace run before a space-free word becomes one `r`. */
  lemma CollapseLeadingRun(run: string, w: string, r: char)
    requires NoSpace(w)
    requires run != [] && AllSpace(run)
    ensures CollapseSpaces(run + w, r) == [r] + w
  {
    var t := run + w;
    assert t[0] == run[0];
    TrimStartDropsRun(run, w);
    CollapseKeepsSpaceFree(w, r);
  }

  lemma {:induction false} TrimStartDropsRun(run: string, w: string)
    requires AllSpace(run)
    requires w == [] || !IsSpace(w[0])
    ensures TrimStart(run + w) == w
    decreases |run|
  {
    if run != [] {
      assert (run + w)[1..] == run[1..] + w;
      TrimStartDropsRun(run[1..], w);
    }
  }

  /** Trimming is idempotent. */
  lemma TrimIdempotent(s: string)
    ensures Trim(Trim(s)) == Trim(s)
  {
    var t := TrimStart(s);
    var u := TrimEnd(t);
    if u != [] {
      assert u[0] == t[0];
    }
    TrimStartKeeps(u);
    TrimEndKeeps(u);
  }

  /** Text that does not start with whitespace is its own `trimStart`. */
  lemma TrimStartKeeps(s: string)
    requires s == [] || !IsSpace(s[0])
    ensures TrimStart(s) == s
  {
  }

  /** Text that does not end with whitespace is its own `trimEnd`. */
  lemma TrimEndKeeps(s: string)
    requires s == [] || !IsSpace(s[|s| - 1])
    ensures TrimEnd(s) == s
  {
  }

  /** Whitespace-only text trims to the empty string. */
  lemma {:induction false} TrimAllSpace(s: string)
    requires AllSpace(s)
    ensures Trim(s) == []
    decreases |s|
  {
    if s != [] {
      TrimAllSpace(s[1..]);
    }
  }

  /** Text trims to the empty string exactly when it is all whitespace. */
  lemma TrimBlank(s: string)
    ensures Trim(s) == [] <==> AllSpace(s)
  {
    if AllSpace(s) {
      TrimAllSpace(s);
    }
    if Trim(s) == [] {
      var t := TrimStart(s);
      assert t == [] by {
        assert AllSpace(t[0..]) && t[0..] == t;
      }
      assert s[..|s|] == s;
    }
  }

  /** Text that neither starts nor ends with whitespace is left alone by trimming. */
  lemma TrimEdgeless(s: string)
    requires s != [] && !IsSpace(s[0]) && !IsSpace(s[|s| - 1])
    ensures Trim(s) == s
  {
  }

  /** Text without the first character of a non-empty `p` does not contain `p`. */
  lemma {:induction false} MissingFirstChar(s: string, p: string)
    requires p != [] && forall i :: 0 <= i < |s| ==> s[i] != p[0]
    ensures !Contains(s, p)
    decreases |s|
  {
    if s != [] {
      if |p| <= |s| {
        assert s[..|p|][0] == s[0];
      }
      MissingFirstChar(s[1..], p);
    }
  }
}
