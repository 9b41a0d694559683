/**
 * The path filter: whether one directory entry is an indexable image, and
 * if so the canonical path under which it is indexed.
 */
module PathFilter {

  import opened Wrappers
  import opened FileTree

  /** The supported extensions, in lower case. */
  const ImageExtensions: seq<string> := ["png", "jpg", "jpeg"]

  /** Lower-casing of one character, restricted to ASCII letters. */
  function LowerChar(c: char): char
  {
    if 'A' <= c <= 'Z' then (c as int - 'A' as int + 'a' as int) as char else c
  }

  function ToLower(s: string): (r: string)
    ensures |r| == |s|
  {
    seq(|s|, i requires 0 <= i < |s| => LowerChar(s[i]))
  }

  /** The lower-cased extension is one of the supported ones, which holds
      exactly for `png`, `jpg` and `jpeg` in any mixture of cases. */
  function IsImageExtension(ext: string): (b: bool)
    ensures b <==>
      SpellsIgnoringCase(ext, "png") || SpellsIgnoringCase(ext, "jpg") || SpellsIgnoringCase(ext, "jpeg")
  {
    ToLowerMatchesIgnoringCase(ext, "png");
    ToLowerMatchesIgnoringCase(ext, "jpg");
    ToLowerMatchesIgnoringCase(ext, "jpeg");
    ToLower(ext) in ImageExtensions
  }

  /**
   * The filter applied to each non-directory entry: `None` for anything
   * that is not a regular file, for a missing or non-UTF-8 extension, for
   * an extension outside the supported set, and when canonicalisation
   * fails; otherwise the canonical path.
   */
  function CanonicalPathIfImage(n: Node): (r: Option<string>)
    ensures r.Some? <==> IsEligibleImage(n)
    ensures r.Some? ==> r == n.canonical
  {
    if !n.File? then None
    else match n.ext
      case Text(e) => if IsImageExtension(e) then n.canonical else None
      case _ => None
  }

  /** `u` is the upper-case ASCII form of the lower-case ASCII letter `l`. */
  predicate IsUpperOf(u: char, l: char)
  {
    'a' <= l <= 'z' && u as int == l as int - 32
  }

  /** `s` spells the lower-case word `w` with any mixture of letter cases. */
  predicate SpellsIgnoringCase(s: string, w: string)
  {
    |s| == |w| && forall i :: 0 <= i < |s| ==> s[i] == w[i] || IsUpperOf(s[i], w[i])
  }

  predicate IsLowerWord(w: string)
  {
    forall i :: 0 <= i < |w| ==> 'a' <= w[i] <= 'z'
  }

  /** Lower-casing turns `s` into a lower-case word exactly when `s` spells
      that word in some mixture of cases. */
  lemma ToLowerMatchesIgnoringCase(s: string, w: string)
    requires IsLowerWord(w)
    ensures ToLower(s) == w <==> SpellsIgnoringCase(s, w)
  {
  }

  /** The entries the filter keeps, stated without lower-casing. */
  predicate IsEligibleImage(n: Node)
  {
    && n.File?
    && n.ext.Text?
    && (SpellsIgnoringCase(n.ext.s, "png") || SpellsIgnoringCase(n.ext.s, "jpg")
        || SpellsIgnoringCase(n.ext.s, "jpeg"))
    && n.canonical.Some?
  }

  /** Upper- and mixed-case extensions are accepted; other extensions,
      missing or non-UTF-8 extensions, non-files and failed
      canonicalisation are not. */
  lemma FilterExamples(p: string)
    ensures CanonicalPathIfImage(File(Text("PNG"), Some(p))) == Some(p)
    ensures CanonicalPathIfImage(File(Text("Jpeg"), Some(p))) == Some(p)
    ensures CanonicalPathIfImage(File(Text("jpg"), Some(p))) == Some(p)
    ensures CanonicalPathIfImage(File(Text("gif"), Some(p))) == None
    ensures CanonicalPathIfImage(File(Text("bak"), Some(p))) == None
    ensures CanonicalPathIfImage(File(Text(""), Some(p))) == None
    ensures CanonicalPathIfImage(File(NoExtension, Some(p))) == None
    ensures CanonicalPathIfImage(File(NonUtf8, Some(p))) == None
    ensures CanonicalPathIfImage(File(Text("png"), None)) == None
    ensures CanonicalPathIfImage(Special) == None
    ensures CanonicalPathIfImage(Dir(Listed([]))) == None
  {
    assert ToLower("PNG") == "png";
    assert ToLower("Jpeg") == "jpeg";
    assert ToLower("jpg") == "jpg";
    assert ToLower("gif")[0] == 'g';
    assert ToLower("bak")[0] == 'b';
  }
}
