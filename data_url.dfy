/** The image format carried by a data URL (section 3 of RFC 2397), read the
    way `takePhoto` reads it: with the regular expression
    `^data:image\/(\w+);`, keeping the captured group. */
module DataUrls {
  import opened Wrappers

  /** `\w` in a JavaScript regular expression without the `u` flag. */
  predicate IsWordChar(c: char) {
    ('A' <= c <= 'Z') || ('a' <= c <= 'z') || ('0' <= c <= '9') || c == '_'
  }

  predicate AllWordChars(s: string) {
    forall i | 0 <= i < |s| :: IsWordChar(s[i])
  }

  /** The literal part of the pattern before the group. */
  const ImagePrefix: string := "data:image/"

  /** The pattern matches `src` with `f` as its captured group: `src` starts
      with `data:image/`, then the non-empty run of word characters `f`,
      then `;`. Whatever follows the `;` is irrelevant. */
  predicate MatchesFormat(src: string, f: string) {
    var n := |ImagePrefix| + |f|;
    && |f| > 0
    && AllWordChars(f)
    && n < |src|
    && src[..|ImagePrefix|] == ImagePrefix
    && src[|ImagePrefix|..n] == f
    && src[n] == ';'
  }

  /** The greedy `\w+` (or `\w*`) at the front of `s`: the longest prefix made
      of word characters. */
  function WordRun(s: string): (w: string)
    ensures w <= s
    ensures AllWordChars(w)
    ensures |w| < |s| ==> !IsWordChar(s[|w|])
  {
    if |s| > 0 && IsWordChar(s[0]) then [s[0]] + WordRun(s[1..]) else []
  }

  /** `src.match(/^data:image\/(\w+);/)`, with `None` for the `null` the
      source then indexes (and throws on). */
  function ParseFormat(src: string): (r: Option<string>)
    ensures r.Some? ==> MatchesFormat(src, r.value)
  {
    if |src| < |ImagePrefix| || src[..|ImagePrefix|] != ImagePrefix then None
    else
      var rest := src[|ImagePrefix|..];
      var w := WordRun(rest);
      if 0 < |w| < |rest| && rest[|w|] == ';' then Some(w) else None
  }

  /** A run of word characters ends at the first character that is not one. */
  lemma {:induction false} WordRunStopsAt(f: string, rest: string)
    requires AllWordChars(f)
    requires |rest| > 0 && !IsWordChar(rest[0])
    ensures WordRun(f + rest) == f
  {
    if f != [] {
      assert (f + rest)[1..] == f[1..] + rest;
      WordRunStopsAt(f[1..], rest);
    }
  }

  /** The captured group is determined by `src`: since `;` is not a word
      character, two different runs cannot both be followed by it. */
  lemma CaptureIsUnique(src: string, f: string, g: string)
    requires MatchesFormat(src, f) && MatchesFormat(src, g)
    ensures f == g
  {
  }

  /** The parser finds a format exactly when the pattern matches, and then
      the format is the captured group. */
  lemma ParseFormatMatches(src: string, f: string)
    ensures ParseFormat(src) == Some(f) <==> MatchesFormat(src, f)
  {
  }

  /** When the parser finds no format, the pattern matches with no group at
      all: this is the case in which `takePhoto` throws. */
  lemma NoFormatMeansNoMatch(src: string)
    requires ParseFormat(src).None?
    ensures forall f :: !MatchesFormat(src, f)
  {
  }

  /** Every data URL of an image type with a word-character subtype yields
      that subtype, whatever follows the `;`. */
  lemma ParseFormatOfDataUrl(f: string, rest: string)
    requires |f| > 0 && AllWordChars(f)
    ensures ParseFormat(ImagePrefix + f + ";" + rest) == Some(f)
  {
    var src := ImagePrefix + f + ";" + rest;
    assert src[..|ImagePrefix|] == ImagePrefix;
    assert src[|ImagePrefix|..|ImagePrefix| + |f|] == f;
    ParseFormatMatches(src, f);
  }
}
