/** The checks run when "Analyse Video" is pressed, before anything is
    uploaded: a non-empty query, a size limit and a file-extension check. */
module Validation {
  import opened Basics

  /** The 200 MB limit, in bytes. */
  const MaxFileBytes: nat := 200 * 1024 * 1024

  const SupportedFormats: seq<string> := ["mp4", "mov", "avi"]

  /** Why a request is turned away, in the order the checks run. */
  datatype Rejection = EmptyQuery | TooLarge | UnsupportedFormat

  /** `name.split('.')[-1]`: the text after the last '.', or the whole
      name when it holds no '.'. */
  function Extension(name: string): (ext: string)
    ensures |ext| <= |name| && ext == name[|name| - |ext|..]
    ensures '.' !in ext
    ensures |ext| < |name| ==> name[|name| - |ext| - 1] == '.'
  {
    if name == [] then []
    else if name[|name| - 1] == '.' then []
    else Extension(name[..|name| - 1]) + [name[|name| - 1]]
  }

  /** The three properties of `Extension` determine it: a suffix without
      '.', which is either the whole name or preceded by a '.'. */
  lemma ExtensionUnique(name: string, e: string)
    requires |e| <= |name| && e == name[|name| - |e|..]
    requires '.' !in e
    requires |e| < |name| ==> name[|name| - |e| - 1] == '.'
    ensures Extension(name) == e
  {
  }

  /** A name made of a stem, a '.' and a dot-free ending has that ending
      as its extension. */
  lemma ExtensionOfDotted(stem: string, ending: string)
    requires '.' !in ending
    ensures Extension(stem + "." + ending) == ending
  {
    var name := stem + "." + ending;
    assert ending == name[|name| - |ending|..];
    assert name[|name| - |ending| - 1] == '.';
    ExtensionUnique(name, ending);
  }

  /** A name without any '.' is its own extension. */
  lemma ExtensionOfDotless(name: string)
    requires '.' !in name
    ensures Extension(name) == name
  {
    ExtensionUnique(name, name);
  }

  /** Python's `str.lower()` on one character, for the ASCII letters. */
  function LowerChar(c: char): (d: char)
  {
    if 'A' <= c <= 'Z' then (c as int - 'A' as int + 'a' as int) as char else c
  }

  function Lower(s: string): (r: string)
    ensures |r| == |s|
    ensures forall i :: 0 <= i < |s| ==> r[i] == LowerChar(s[i])
  {
    if s == [] then [] else [LowerChar(s[0])] + Lower(s[1..])
  }

  /** Lower-casing leaves no upper-case ASCII letter, so doing it twice
      changes nothing. */
  lemma LowerIdempotent(s: string)
    ensures Lower(Lower(s)) == Lower(s)
  {
    assert forall i :: 0 <= i < |s| ==> Lower(Lower(s))[i] == Lower(s)[i];
  }

  /** Taking the extension and lower-casing commute, because '.' is the only
      character that lower-cases to '.'. */
  lemma ExtensionOfLower(name: string)
    ensures Extension(Lower(name)) == Lower(Extension(name))
  {
    var ext := Extension(name);
    LowerKeepsSuffix(name, |ext|);
    LowerKeepsDots(name);
    LowerKeepsDots(ext);
    ExtensionUnique(Lower(name), Lower(ext));
  }

  lemma LowerKeepsSuffix(s: string, n: nat)
    requires n <= |s|
    ensures Lower(s[|s| - n..]) == Lower(s)[|s| - n..]
  {
    var suffix := s[|s| - n..];
    var lowered, tail := Lower(suffix), Lower(s)[|s| - n..];
    assert |lowered| == n == |tail|;
    forall i | 0 <= i < n ensures lowered[i] == tail[i] {
      calc {
        lowered[i];
        LowerChar(suffix[i]);
        LowerChar(s[|s| - n + i]);
        Lower(s)[|s| - n + i];
        tail[i];
      }
    }
  }

  /** A character is '.' exactly when its lower-case form is. */
  lemma LowerKeepsDots(s: string)
    ensures forall i :: 0 <= i < |s| ==> (Lower(s)[i] == '.' <==> s[i] == '.')
  {
  }

  /** The format check of the analysis: the lower-cased extension is one of
      the supported formats. */
  predicate FormatSupported(name: string)
  {
    Lower(Extension(name)) in SupportedFormats
  }

  /** The format check does not depend on letter case. */
  lemma FormatCheckIgnoresCase(name: string)
    ensures FormatSupported(Lower(name)) == FormatSupported(name)
  {
    ExtensionOfLower(name);
    LowerIdempotent(Extension(name));
  }

  /** For a dotted name, only the part after the last '.' decides. */
  lemma FormatOfDottedName(stem: string, ending: string)
    requires '.' !in ending
    ensures FormatSupported(stem + "." + ending) <==> Lower(ending) in SupportedFormats
  {
    ExtensionOfDotted(stem, ending);
  }

  /** A name without a '.' is judged as a whole: a file called "MP4"
      passes the check. */
  lemma FormatOfDotlessName(name: string)
    requires '.' !in name
    ensures FormatSupported(name) <==> Lower(name) in SupportedFormats
  {
    ExtensionOfDotless(name);
  }

  /** Concrete cases: upper-case endings pass, ".mkv" does not, only the
      last ending counts, a trailing '.' leaves an empty extension and a
      name without '.' is judged whole. */
  lemma UpperCaseEndingPasses()
    ensures FormatSupported("clip.MP4")
  {
    FormatOfDottedName("clip", "MP4");
    assert "clip" + "." + "MP4" == "clip.MP4";
    assert Lower("MP4") == "mp4";
  }

  /** Only the last ending counts: putting any stem and a '.' before a
      dot-free ending leaves the verdict of the ending alone. */
  lemma LastEndingDecides(stem: string, ending: string)
    requires '.' !in ending
    ensures FormatSupported(stem + "." + ending) == FormatSupported(ending)
  {
    ExtensionOfDotted(stem, ending);
    ExtensionOfDotless(ending);
  }

  lemma OtherEndingFails()
    ensures !FormatSupported("clip.mkv")
  {
    FormatOfDottedName("clip", "mkv");
    assert "clip" + "." + "mkv" == "clip.mkv";
    assert Lower("mkv") == "mkv";
  }

  lemma TrailingDotFails()
    ensures !FormatSupported("clip.mp4.")
  {
    FormatOfDottedName("clip.mp4", "");
    assert "clip.mp4" + "." + "" == "clip.mp4.";
  }

  lemma DotlessNamePasses()
    ensures FormatSupported("Mov")
  {
    FormatOfDotlessName("Mov");
    assert Lower("Mov") == "mov";
  }

  /** The outcome of the three checks, in the order the analysis runs
      them; `None` lets the request through. */
  function Validate(query: string, size: nat, name: string): (r: Option<Rejection>)
    ensures r == None <==> query != "" && size <= MaxFileBytes && FormatSupported(name)
    ensures r == Some(EmptyQuery) <==> query == ""
    ensures r == Some(TooLarge) <==> query != "" && size > MaxFileBytes
    ensures r == Some(UnsupportedFormat) <==> query != "" && size <= MaxFileBytes && !FormatSupported(name)
  {
    if query == "" then Some(EmptyQuery)
    else if size > MaxFileBytes then Some(TooLarge)
    else if !FormatSupported(name) then Some(UnsupportedFormat)
    else None
  }

  /** The size limit is inclusive: exactly 200 MB passes, one byte more
      does not. */
  lemma SizeLimitBoundary(query: string, name: string)
    requires query != "" && FormatSupported(name)
    ensures Validate(query, MaxFileBytes, name) == None
    ensures Validate(query, MaxFileBytes + 1, name) == Some(TooLarge)
    ensures MaxFileBytes == 209715200
  {
  }
}
