/**
 * The prize image chosen on the exit page (src/pages/ExitPage.tsx,
 * `getPrizeImage`): trim, lowercase, each whitespace run to `_`, then
 * `/<slug>.png`.
 */
module ExitPage {
  import opened Wrappers
  import opened Js

  /** `replace(/\s+/g, '_')`, scanning left to right: the first whitespace
      character of a run becomes `_`, the rest of the run is dropped.
      `inRun` says whether the previous character was whitespace. */
  function Runs(s: string, inRun: bool): (r: string)
    ensures |r| <= |s|
  {
    if s == [] then []
    else if IsSpace(s[0]) then (if inRun then [] else "_") + Runs(s[1..], true)
    else [s[0]] + Runs(s[1..], false)
  }

  /** Each maximal whitespace run becomes one `_`. */
  function ReplaceRuns(s: string): string {
    Runs(s, false)
  }

  /** No whitespace survives the replacement. */
  lemma {:induction false} RunsNoSpace(s: string, inRun: bool)
    ensures NoSpace(Runs(s, inRun))
  {
    if s != [] {
      RunsNoSpace(s[1..], IsSpace(s[0]));
      if IsSpace(s[0]) {
        NoSpaceConcat(if inRun then [] else "_", Runs(s[1..], true));
      } else {
        NoSpaceConcat([s[0]], Runs(s[1..], false));
      }
    }
  }

  /** Every character of the result is `_` or a character of the input. */
  lemma {:induction false} RunsChars(s: string, inRun: bool)
    ensures forall c :: c in Runs(s, inRun) ==> c == '_' || c in s
  {
    if s != [] {
      RunsChars(s[1..], IsSpace(s[0]));
    }
  }

  /** Inside a run, further whitespace adds nothing. */
  lemma {:induction false} RunsSkipSpaces(w: string, u: string)
    requires AllSpace(w)
    ensures Runs(w + u, true) == Runs(u, true)
  {
    if w != [] {
      assert (w + u)[0] == w[0];
      assert (w + u)[1..] == w[1..] + u;
      RunsSkipSpaces(w[1..], u);
    } else {
      assert w + u == u;
    }
  }

  /** A non-empty whitespace run followed by a non-space (or the end) becomes
      a single `_`. */
  lemma ReplaceRunsRun(w: string, u: string)
    requires w != [] && AllSpace(w)
    requires u == [] || !IsSpace(u[0])
    ensures ReplaceRuns(w + u) == "_" + ReplaceRuns(u)
  {
    assert (w + u)[0] == w[0];
    assert (w + u)[1..] == w[1..] + u;
    RunsSkipSpaces(w[1..], u);
  }

  /** The replacement works run by run: a string may be cut after any
      non-space character. */
  lemma {:induction false} RunsSplit(p: string, u: string, inRun: bool)
    requires p != [] && !IsSpace(p[|p| - 1])
    ensures Runs(p + u, inRun) == Runs(p, inRun) + Runs(u, false)
  {
    assert (p + u)[0] == p[0];
    assert (p + u)[1..] == p[1..] + u;
    if |p| > 1 {
      RunsSplit(p[1..], u, IsSpace(p[0]));
    }
  }

  lemma ReplaceRunsSplit(p: string, u: string)
    requires p != [] && !IsSpace(p[|p| - 1])
    ensures ReplaceRuns(p + u) == ReplaceRuns(p) + ReplaceRuns(u)
  {
    RunsSplit(p, u, false);
  }

  /** The image slug of a prize name. */
  function Slug(name: string): string {
    ReplaceRuns(ToLower(Trim(name)))
  }

  /** `getPrizeImage`: none for a missing or empty name, else `/<slug>.png`. */
  function GetPrizeImage(name: Option<string>): (image: Option<string>)
    ensures image.None? <==> !Truthy(name)
    ensures image.Some? ==> image.value == "/" + Slug(name.value) + ".png"
  {
    if !Truthy(name) then None else Some("/" + Slug(name.value) + ".png")
  }

  /** The slug holds no whitespace and no upper-case letter. */
  lemma SlugIsClean(name: string)
    ensures NoSpace(Slug(name))
    ensures forall c :: c in Slug(name) ==> !IsUpper(c)
  {
    var lowered := ToLower(Trim(name));
    RunsNoSpace(lowered, false);
    RunsChars(lowered, false);
    forall c | c in Slug(name) ensures !IsUpper(c) {
      if c != '_' {
        var i :| 0 <= i < |lowered| && lowered[i] == c;
      }
    }
  }

  /** Whitespace around the name never reaches the slug: trimming comes first. */
  lemma SlugIgnoresPadding(a: string, t: string, b: string)
    requires AllSpace(a) && AllSpace(b)
    ensures Slug(a + t + b) == Slug(t)
  {
    TrimIgnoresPadding(a, t, b);
  }

  /** A name made only of whitespace is still truthy and gives `/.png`. */
  lemma BlankNameImage(w: string)
    requires w != [] && AllSpace(w)
    ensures GetPrizeImage(Some(w)) == Some("/.png")
  {
    assert Trim(w) == [];
    assert ToLower([]) == [];
    assert Slug(w) == [];
    assert "/" + [] + ".png" == "/.png";
  }

  /** A string without whitespace is left as it is. */
  lemma {:induction false} RunsKeepsPlain(t: string, inRun: bool)
    requires NoSpace(t)
    ensures Runs(t, inRun) == t
  {
    if t != [] {
      assert !IsSpace(t[0]);
      RunsKeepsPlain(t[1..], false);
    }
  }

  /** Lowering works piece by piece and leaves non-letters alone. */
  lemma {:induction false} ToLowerAppend(a: string, b: string)
    ensures ToLower(a + b) == ToLower(a) + ToLower(b)
  {
    if a == [] {
      assert a + b == b;
    } else {
      assert (a + b)[1..] == a[1..] + b;
      ToLowerAppend(a[1..], b);
    }
  }

  /** Helper for `SlugTwoWords`: lowering adds no whitespace. */
  lemma ToLowerNoSpace(s: string)
    requires NoSpace(s)
    ensures NoSpace(ToLower(s))
  {
  }

  /** Helper for `LowerAroundSpaces`: lowering leaves whitespace as it is. */
  lemma ToLowerSpaces(w: string)
    requires AllSpace(w)
    ensures ToLower(w) == w
  {
  }

  /** A string that neither starts nor ends with whitespace is its own trim. */
  lemma TrimUnpadded(s: string)
    requires s != [] && !IsSpace(s[0]) && !IsSpace(s[|s| - 1])
    ensures Trim(s) == s
  {
    assert TrimStart(s) == s;
    assert TrimEnd(s) == s;
  }

  /** Two words separated by whitespace give the lowered words joined by a
      single `_`. */
  lemma LowerAroundSpaces(a: string, w: string, b: string)
    requires AllSpace(w)
    ensures ToLower(a + w + b) == ToLower(a) + (w + ToLower(b))
  {
    ToLowerAppend(a + w, b);
    ToLowerAppend(a, w);
    ToLowerSpaces(w);
    Regroup(ToLower(a), w, ToLower(b));
  }

  /** Helper for `LowerAroundSpaces` and `SlugTwoWords`: regrouping a
      concatenation, kept apart because it is costly next to `ToLower` facts. */
  lemma Regroup(x: string, y: string, z: string)
    ensures x + y + z == x + (y + z)
  {
  }

  lemma SlugTwoWords(a: string, w: string, b: string)
    requires a != [] && b != [] && NoSpace(a) && NoSpace(b)
    requires w != [] && AllSpace(w)
    ensures Slug(a + w + b) == ToLower(a) + "_" + ToLower(b)
  {
    var s := a + w + b;
    var la, lb := ToLower(a), ToLower(b);
    assert s[0] == a[0];
    assert s[|s| - 1] == b[|b| - 1];
    TrimUnpadded(s);
    LowerAroundSpaces(a, w, b);
    ToLowerNoSpace(a);
    ToLowerNoSpace(b);
    assert !IsSpace(la[|la| - 1]);
    assert !IsSpace(lb[0]);
    calc {
      Slug(s);
      ReplaceRuns(la + (w + lb));
      { ReplaceRunsSplit(la, w + lb); }
      ReplaceRuns(la) + ReplaceRuns(w + lb);
      { ReplaceRunsRun(w, lb); }
      ReplaceRuns(la) + ("_" + ReplaceRuns(lb));
      { RunsKeepsPlain(la, false); RunsKeepsPlain(lb, false); }
      la + ("_" + lb);
      { Regroup(la, "_", lb); }
      la + "_" + lb;
    }
  }

  /** Helper for `UltraBocinaSlug`: the words of the example, checked
      character by character. */
  lemma UltraBocinaWords()
    ensures "Ultra" + " " + "Bocina" == "Ultra Bocina"
    ensures NoSpace("Ultra") && NoSpace("Bocina") && AllSpace(" ")
    ensures "ultra" + "_" + "bocina" == "ultra_bocina"
  {
  }

  /** Helper for `UltraBocinaSlug`: the example's words, lowered. */
  lemma UltraBocinaLowered()
    ensures ToLower("Ultra") == "ultra"
    ensures ToLower("Bocina") == "bocina"
  {
    assert ToLower("Ultra") == "ultra";
  }

  /** The worked example of the source's own comment: "Ultra Bocina" has
      the slug `ultra_bocina`, so its image is `/ultra_bocina.png`. */
  lemma UltraBocinaSlug()
    ensures Slug("Ultra Bocina") == "ultra_bocina"
  {
    UltraBocinaWords();
    UltraBocinaLowered();
    SlugTwoWords("Ultra", " ", "Bocina");
  }
}
