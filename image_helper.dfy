/**
 * `getImageFilename` turns a product name into the file name of its
 * picture, and `getProductImageUrl` puts that name under the products
 * image directory with a `.png` extension (`.jpg` for rasam powder).
 *
 * The filename is computed as the storefront computes it, one `replace`
 * after another, and is proved equal to `Slug`, a one-pass description:
 * map every separator (whitespace, `/`, `&`, the en dash, `-`) to a
 * hyphen, lower-case the rest, then squeeze runs of hyphens.
 */
module ImageHelper {
  import opened Ascii

  /** The en dash U+2013, which the product names use between words. */
  const EnDash: char := '\U{2013}'

  const ImageDirectory: string := "/images/products/"

  /** Shown for a product without a picture. */
  const FallbackImage: string := "/placeholder.svg"

  /** The file name whose picture is a JPEG rather than a PNG. */
  const JpegFilename: string := "rasam-powder"

  // ---------------------------------------------------------------------
  // The replacement chain, step by step

  /** `replace(/–/g, '-')` */
  function ReplaceEnDash(s: string): string {
    seq(|s|, i requires 0 <= i < |s| => if s[i] == EnDash then '-' else s[i])
  }

  /**
   * `replace(/\s+/g, '-')`: every maximal run of whitespace becomes one
   * hyphen. `inRun` says whether the text before `s` ended in whitespace.
   */
  function CollapseWhitespace(s: string, inRun: bool): string {
    WhitespaceRunsFrom(s, 0, inRun)
  }

  /** The scan of `CollapseWhitespace` from position `i` on. */
  function WhitespaceRunsFrom(s: string, i: nat, inRun: bool): string
    requires i <= |s|
    decreases |s| - i
  {
    if i == |s| then []
    else if IsWhitespace(s[i]) then
      (if inRun then WhitespaceRunsFrom(s, i + 1, true) else "-" + WhitespaceRunsFrom(s, i + 1, true))
    else [s[i]] + WhitespaceRunsFrom(s, i + 1, false)
  }

  /** The scan from `i` only looks at `s[i..]`. */
  lemma {:induction false} WhitespaceRunsShift(s: string, i: nat, inRun: bool)
    requires i <= |s|
    ensures WhitespaceRunsFrom(s, i, inRun) == CollapseWhitespace(s[i..], inRun)
    decreases |s| - i
  {
    if i < |s| {
      WhitespaceRunsShift(s, i + 1, true);
      WhitespaceRunsShift(s, i + 1, false);
      WhitespaceRunsShift(s[i..], 1, true);
      WhitespaceRunsShift(s[i..], 1, false);
      assert s[i..][1..] == s[i + 1..];
    }
  }

  /** `CollapseWhitespace` one character at a time. */
  lemma CollapseWhitespaceCons(s: string, inRun: bool)
    requires s != []
    ensures CollapseWhitespace(s, inRun) ==
      if IsWhitespace(s[0]) then
        (if inRun then CollapseWhitespace(s[1..], true) else "-" + CollapseWhitespace(s[1..], true))
      else [s[0]] + CollapseWhitespace(s[1..], false)
  {
    WhitespaceRunsShift(s, 1, true);
    WhitespaceRunsShift(s, 1, false);
  }

  function SlashAmpChar(c: char): char { if c == '/' || c == '&' then '-' else c }

  /** `replace(/[\/&]/g, '-')` */
  function ReplaceSlashAmp(s: string): string {
    seq(|s|, i requires 0 <= i < |s| => SlashAmpChar(s[i]))
  }

  /**
   * `replace(/-+/g, '-')`: every maximal run of hyphens becomes one.
   * `inRun` says whether the text before `s` ended in a hyphen.
   */
  function CollapseHyphens(s: string, inRun: bool): string {
    HyphenRunsFrom(s, 0, inRun)
  }

  /** The scan of `CollapseHyphens` from position `i` on. */
  function HyphenRunsFrom(s: string, i: nat, inRun: bool): string
    requires i <= |s|
    decreases |s| - i
  {
    if i == |s| then []
    else if s[i] == '-' then
      (if inRun then HyphenRunsFrom(s, i + 1, true) else "-" + HyphenRunsFrom(s, i + 1, true))
    else [s[i]] + HyphenRunsFrom(s, i + 1, false)
  }

  /** The scan from `i` only looks at `s[i..]`. */
  lemma {:induction false} HyphenRunsShift(s: string, i: nat, inRun: bool)
    requires i <= |s|
    ensures HyphenRunsFrom(s, i, inRun) == CollapseHyphens(s[i..], inRun)
    decreases |s| - i
  {
    if i < |s| {
      HyphenRunsShift(s, i + 1, true);
      HyphenRunsShift(s, i + 1, false);
      HyphenRunsShift(s[i..], 1, true);
      HyphenRunsShift(s[i..], 1, false);
      assert s[i..][1..] == s[i + 1..];
    }
  }

  /** `CollapseHyphens` one character at a time. */
  lemma CollapseHyphensCons(s: string, inRun: bool)
    requires s != []
    ensures CollapseHyphens(s, inRun) ==
      if s[0] == '-' then
        (if inRun then CollapseHyphens(s[1..], true) else "-" + CollapseHyphens(s[1..], true))
      else [s[0]] + CollapseHyphens(s[1..], false)
  {
    HyphenRunsShift(s, 1, true);
    HyphenRunsShift(s, 1, false);
  }

  // ---------------------------------------------------------------------
  // The one-pass reference description

  /** The characters that end up as a hyphen. */
  predicate IsSeparator(c: char) {
    IsWhitespace(c) || c == '/' || c == '&' || c == EnDash || c == '-'
  }

  function HyphenChar(c: char): char { if IsSeparator(c) then '-' else LowerChar(c) }

  function HyphenMap(s: string): string {
    seq(|s|, i requires 0 <= i < |s| => HyphenChar(s[i]))
  }

  /** Separators become hyphens, letters are lower-cased, runs of hyphens are squeezed. */
  function Slug(s: string): string { CollapseHyphens(HyphenMap(s), false) }

  /** A character allowed in a file name: no capital, no whitespace, no `/`, `&` or en dash. */
  predicate IsFileChar(c: char) {
    !IsUpper(c) && !IsWhitespace(c) && c != '/' && c != '&' && c != EnDash
  }

  predicate NoDoubleHyphen(s: string) {
    forall i :: 0 <= i < |s| - 1 ==> !(s[i] == '-' && s[i + 1] == '-')
  }

  /** What `getImageFilename` promises: a web-safe file name. */
  predicate WebSafe(s: string) {
    (forall i :: 0 <= i < |s| ==> IsFileChar(s[i])) && NoDoubleHyphen(s)
  }

  // ---------------------------------------------------------------------
  // The operations

  /** `getImageFilename` */
  function GetImageFilename(productName: string): (r: string)
    ensures r == Slug(productName)
    ensures WebSafe(r)
    ensures |r| <= |productName|
  {
    var lowered := ReplaceEnDash(ToLower(productName));
    var squeezed := CollapseHyphens(ReplaceSlashAmp(CollapseWhitespace(lowered, false)), false);
    ChainIsSlug(productName);
    SlugWebSafe(productName);
    TrimUntouched(squeezed);
    Trim(squeezed)
  }

  /** `getProductImageUrl`: the image directory, the file name, then the extension. */
  function GetProductImageUrl(productName: string): (r: string)
    ensures |r| == |ImageDirectory| + |GetImageFilename(productName)| + 4
    ensures r[..|ImageDirectory|] == ImageDirectory
    ensures r[|ImageDirectory|..|r| - 4] == GetImageFilename(productName)
    ensures r[|r| - 4..] == ".jpg" <==> GetImageFilename(productName) == JpegFilename
    ensures r[|r| - 4..] == ".png" <==> GetImageFilename(productName) != JpegFilename
  {
    var filename := GetImageFilename(productName);
    if filename == JpegFilename then ImageDirectory + filename + ".jpg"
    else ImageDirectory + filename + ".png"
  }

  // ---------------------------------------------------------------------
  // The chain computes the slug

  function SeparatorToHyphen(c: char): char {
    if IsWhitespace(c) || c == '/' || c == '&' || c == '-' then '-' else c
  }

  function SeparatorsToHyphens(s: string): string {
    seq(|s|, i requires 0 <= i < |s| => SeparatorToHyphen(s[i]))
  }

  /**
   * Squeezing hyphens after the whitespace and `/`, `&` replacements gives
   * what squeezing gives after mapping every separator at once, as long
   * as a whitespace run in progress is also a hyphen run in progress.
   */
  lemma {:induction false} ChainCollapses(a: string, w: bool, d: bool)
    requires w ==> d
    ensures CollapseHyphens(ReplaceSlashAmp(CollapseWhitespace(a, w)), d) == CollapseHyphens(SeparatorsToHyphens(a), d)
    decreases |a|
  {
    if a != [] {
      var t := a[1..];
      var h := SeparatorToHyphen(a[0]);
      var m := SeparatorsToHyphens(t);
      assert SeparatorsToHyphens(a) == [h] + m;
      assert ([h] + m)[1..] == m;
      CollapseHyphensCons([h] + m, d);
      if IsWhitespace(a[0]) {
        ChainCollapses(t, true, true);
        ChainWhitespaceStep(a, w, d);
      } else {
        if h == '-' {
          ChainCollapses(t, false, true);
        } else {
          ChainCollapses(t, false, false);
        }
        ChainOtherStep(a, w, d);
      }
    }
  }

  /** After a whitespace character the chain continues inside a run. */
  lemma ChainWhitespaceStep(a: string, w: bool, d: bool)
    requires a != [] && IsWhitespace(a[0]) && (w ==> d)
    ensures CollapseHyphens(ReplaceSlashAmp(CollapseWhitespace(a, w)), d) ==
      if d then CollapseHyphens(ReplaceSlashAmp(CollapseWhitespace(a[1..], true)), true)
      else "-" + CollapseHyphens(ReplaceSlashAmp(CollapseWhitespace(a[1..], true)), true)
  {
    var x := ReplaceSlashAmp(CollapseWhitespace(a[1..], true));
    CollapseWhitespaceCons(a, w);
    if !w {
      assert ReplaceSlashAmp("-" + CollapseWhitespace(a[1..], true)) == "-" + x;
      assert ("-" + x)[1..] == x;
      CollapseHyphensCons("-" + x, d);
    }
  }

  /** Any other character passes through the whitespace step unchanged. */
  lemma ChainOtherStep(a: string, w: bool, d: bool)
    requires a != [] && !IsWhitespace(a[0])
    ensures CollapseHyphens(ReplaceSlashAmp(CollapseWhitespace(a, w)), d) ==
      var h := SlashAmpChar(a[0]);
      var rest := ReplaceSlashAmp(CollapseWhitespace(a[1..], false));
      if h == '-' then (if d then CollapseHyphens(rest, true) else "-" + CollapseHyphens(rest, true))
      else [h] + CollapseHyphens(rest, false)
  {
    var c := a[0];
    var x := ReplaceSlashAmp(CollapseWhitespace(a[1..], false));
    CollapseWhitespaceCons(a, w);
    assert ReplaceSlashAmp([c] + CollapseWhitespace(a[1..], false)) == [SlashAmpChar(c)] + x;
    assert ([SlashAmpChar(c)] + x)[1..] == x;
    CollapseHyphensCons([SlashAmpChar(c)] + x, d);
  }

  /** The storefront's chain, before `trim`, is the slug. */
  lemma ChainIsSlug(s: string)
    ensures CollapseHyphens(ReplaceSlashAmp(CollapseWhitespace(ReplaceEnDash(ToLower(s)), false)), false) == Slug(s)
  {
    var a := ReplaceEnDash(ToLower(s));
    assert SeparatorsToHyphens(a) == HyphenMap(s);
    ChainCollapses(a, false, false);
  }

  /** Squeezing keeps only characters of its input and leaves no double hyphen. */
  lemma {:induction false} CollapseHyphensClean(x: string, d: bool)
    requires forall i :: 0 <= i < |x| ==> IsFileChar(x[i])
    ensures WebSafe(CollapseHyphens(x, d))
    ensures |CollapseHyphens(x, d)| <= |x|
    ensures d && CollapseHyphens(x, d) != [] ==> CollapseHyphens(x, d)[0] != '-'
    ensures CollapseHyphens(x, d) != [] && x[0] != '-' ==> CollapseHyphens(x, d)[0] == x[0]
    decreases |x|
  {
    if x != [] {
      CollapseHyphensCons(x, d);
      CollapseHyphensClean(x[1..], x[0] == '-');
    }
  }

  lemma SlugWebSafe(s: string)
    ensures WebSafe(Slug(s))
    ensures |Slug(s)| <= |s|
  {
    CollapseHyphensClean(HyphenMap(s), false);
  }

  // ---------------------------------------------------------------------
  // Properties

  /** A web-safe name is its own file name: `getImageFilename` is idempotent. */
  lemma FilenameOfWebSafe(s: string)
    requires WebSafe(s)
    ensures GetImageFilename(s) == s
  {
    assert HyphenMap(s) == s;
    CollapseWebSafe(s, false);
  }

  lemma {:induction false} CollapseWebSafe(x: string, d: bool)
    requires WebSafe(x)
    requires d && x != [] ==> x[0] != '-'
    ensures CollapseHyphens(x, d) == x
    decreases |x|
  {
    if x != [] {
      CollapseHyphensCons(x, d);
      CollapseWebSafe(x[1..], x[0] == '-');
      assert [x[0]] + x[1..] == x;
    }
  }

  lemma FilenameIdempotent(s: string)
    ensures GetImageFilename(GetImageFilename(s)) == GetImageFilename(s)
  {
    FilenameOfWebSafe(GetImageFilename(s));
  }

  /**
   * `trim` comes after the whitespace has already been replaced, so a name
   * with leading whitespace keeps a leading hyphen.
   */
  lemma LeadingWhitespaceBecomesHyphen(s: string)
    requires s != [] && IsWhitespace(s[0])
    ensures GetImageFilename(s) != [] && GetImageFilename(s)[0] == '-'
  {
    var m := HyphenMap(s);
    assert m[0] == '-';
    CollapseHyphensCons(m, false);
  }

  /** The URL gives back its file name: directory and extension are fixed-width. */
  lemma UrlDeterminesFilename(a: string, b: string)
    requires GetProductImageUrl(a) == GetProductImageUrl(b)
    ensures GetImageFilename(a) == GetImageFilename(b)
  {
    var u := GetProductImageUrl(a);
    assert GetImageFilename(a) == u[|ImageDirectory|..|u| - 4];
  }
}
