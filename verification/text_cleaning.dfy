/**
  The character classes that the cleaning pattern of `preprocess_text` is built from.

  Python's `\w` and `\s` (and the whitespace set of `str.strip`, which is the same
  predicate as `\s`) are large Unicode tables; they are kept abstract here, as two
  predicates carried by a `CharClasses` value. Only the Hangul syllable block, which the
  pattern names explicitly, and the four kept punctuation marks are concrete.
*/
module Chars {

  datatype CharClasses = CharClasses(isWord: char -> bool, isSpace: char -> bool)
  {
    /** What Python documents about `\s`: it contains the six ASCII whitespace characters. */
    predicate Valid()
    {
      && isSpace(' ') && isSpace('\t') && isSpace('\n') && isSpace('\r')
      && isSpace('\U{000B}') && isSpace('\U{000C}')
    }
  }

  /** The range `가-힣` of the pattern: U+AC00 to U+D7A3. */
  predicate IsHangulSyllable(c: char)
  {
    '\U{AC00}' <= c <= '\U{D7A3}'
  }

  predicate IsKeptPunctuation(c: char)
  {
    c == '.' || c == ',' || c == '!' || c == '?'
  }

  /** Membership in the class `[\w\s가-힣.,!?]`; everything else is deleted. */
  predicate Allowed(cc: CharClasses, c: char)
  {
    cc.isWord(c) || cc.isSpace(c) || IsHangulSyllable(c) || IsKeptPunctuation(c)
  }
}

/**
  `HospitalDataProcessor.preprocess_text`: a missing cell becomes the empty string;
  otherwise the text is stripped, every character outside the allow-list is deleted, and
  every run of whitespace becomes one plain space.
*/
module TextCleaning {
  import opened Chars
  import opened Table

  predicate AllAllowed(cc: CharClasses, s: string)
  {
    forall i :: 0 <= i < |s| ==> Allowed(cc, s[i])
  }

  /** A character that may appear in cleaned text: a plain space, or an allowed non-space. */
  predicate CleanChar(cc: CharClasses, c: char)
  {
    c == ' ' || (Allowed(cc, c) && !cc.isSpace(c))
  }

  predicate NoDoubleSpace(s: string)
  {
    forall i :: 0 < i < |s| ==> !(s[i - 1] == ' ' && s[i] == ' ')
  }

  /** The strings that cleaning returns unchanged. */
  predicate Canonical(cc: CharClasses, s: string)
  {
    && (forall i :: 0 <= i < |s| ==> CleanChar(cc, s[i]))
    && NoDoubleSpace(s)
    && (|s| > 0 ==> s[0] != ' ' && s[|s| - 1] != ' ')
  }

  /** The subsequence of non-whitespace characters of `s`. */
  function NonSpaceChars(cc: CharClasses, s: string): (r: string)
    ensures |r| <= |s|
    ensures forall i :: 0 <= i < |r| ==> !cc.isSpace(r[i])
  {
    if s == [] then []
    else (if cc.isSpace(s[0]) then [] else [s[0]]) + NonSpaceChars(cc, s[1..])
  }

  predicate AllSpace(cc: CharClasses, s: string)
  {
    forall i :: 0 <= i < |s| ==> cc.isSpace(s[i])
  }

  /** Drops the leading whitespace of `s`. */
  function TrimLeft(cc: CharClasses, s: string): (r: string)
    ensures |r| <= |s| && r == s[|s| - |r|..]
    ensures r == [] || !cc.isSpace(r[0])
    ensures AllSpace(cc, s[..|s| - |r|])
  {
    if |s| > 0 && cc.isSpace(s[0]) then
      var r := TrimLeft(cc, s[1..]);
      assert s[..|s| - |r|] == [s[0]] + s[1..][..|s| - 1 - |r|];
      r
    else s
  }

  /** Drops the trailing whitespace of `s`. */
  function TrimRight(cc: CharClasses, s: string): (r: string)
    ensures |r| <= |s| && r == s[..|r|]
    ensures r == [] || !cc.isSpace(r[|r| - 1])
    ensures AllSpace(cc, s[|r|..])
  {
    if |s| > 0 && cc.isSpace(s[|s| - 1]) then
      var r := TrimRight(cc, s[..|s| - 1]);
      assert s[|r|..] == s[..|s| - 1][|r|..] + [s[|s| - 1]];
      r
    else s
  }

  /** `str.strip()` with no argument. */
  function Strip(cc: CharClasses, s: string): (r: string)
    ensures |r| <= |s|
    ensures NoSpaceAtEnds(cc, r)
    ensures r == s <==> NoSpaceAtEnds(cc, s)
    ensures exists i :: WindowWithSpaceMargins(cc, s, r, i)
  {
    TrimBothEnds(cc, s);
    TrimBothWindow(cc, s);
    TrimBothUnchanged(cc, s);
    TrimRight(cc, TrimLeft(cc, s))
  }

  predicate NoSpaceAtEnds(cc: CharClasses, s: string)
  {
    s == [] || (!cc.isSpace(s[0]) && !cc.isSpace(s[|s| - 1]))
  }

  /** After trimming both ends, neither end is whitespace. */
  lemma TrimBothEnds(cc: CharClasses, s: string)
    ensures NoSpaceAtEnds(cc, TrimRight(cc, TrimLeft(cc, s)))
  {
    var t := TrimLeft(cc, s);
    var r := TrimRight(cc, t);
    if r != [] {
      assert r[0] == t[0];
    }
  }

  /** `r` is the window of `s` at offset `i`, with only whitespace before and after it. */
  predicate WindowWithSpaceMargins(cc: CharClasses, s: string, r: string, i: int)
  {
    && 0 <= i <= |s| - |r| && r == s[i..i + |r|]
    && AllSpace(cc, s[..i]) && AllSpace(cc, s[i + |r|..])
  }

  /** Trimming both ends keeps one window of `s`, with only whitespace around it. */
  lemma TrimBothWindow(cc: CharClasses, s: string)
    ensures exists i :: WindowWithSpaceMargins(cc, s, TrimRight(cc, TrimLeft(cc, s)), i)
  {
    var t := TrimLeft(cc, s);
    PrefixOfSuffixIsWindow(cc, s, t, TrimRight(cc, t));
  }

  /** Trimming both ends changes nothing exactly when neither end is whitespace. */
  lemma TrimBothUnchanged(cc: CharClasses, s: string)
    ensures TrimRight(cc, TrimLeft(cc, s)) == s <==> NoSpaceAtEnds(cc, s)
  {
    if s != [] && !cc.isSpace(s[0]) && !cc.isSpace(s[|s| - 1]) {
      assert TrimLeft(cc, s) == s;
      assert TrimRight(cc, s) == s;
    }
  }

  /** A prefix of a suffix is a window of `s` with the dropped ends around it. */
  lemma PrefixOfSuffixIsWindow(cc: CharClasses, s: string, t: string, r: string)
    requires |t| <= |s| && t == s[|s| - |t|..] && AllSpace(cc, s[..|s| - |t|])
    requires |r| <= |t| && r == t[..|r|] && AllSpace(cc, t[|r|..])
    ensures WindowWithSpaceMargins(cc, s, r, |s| - |t|)
  {
    var i := |s| - |t|;
    assert s[i + |r|..] == t[|r|..];
  }

  /** `r` holds each allowed character as often as `s` does, and no other character. */
  predicate KeepsAllowedCounts(cc: CharClasses, s: string, r: string)
  {
    forall c :: multiset(r)[c] == (if Allowed(cc, c) then multiset(s)[c] else 0)
  }

  /** `re.sub(r'[^\w\s가-힣.,!?]', '', s)`. */
  function RemoveDisallowed(cc: CharClasses, s: string): (r: string)
    ensures |r| <= |s|
    ensures AllAllowed(cc, r)
    ensures r == s <==> AllAllowed(cc, s)
    ensures KeepsAllowedCounts(cc, s, r)
  {
    if s == [] then []
    else
      var rest := RemoveDisallowed(cc, s[1..]);
      assert s == [s[0]] + s[1..];
      if Allowed(cc, s[0]) then [s[0]] + rest
      else
        assert |rest| < |s|;
        rest
  }

  /** `re.sub(r'\s+', ' ', s)`: every maximal run of whitespace becomes one plain space. */
  function Collapse(cc: CharClasses, s: string): (r: string)
    ensures |r| <= |s|
    ensures forall i :: 0 <= i < |r| ==> r[i] == ' ' || !cc.isSpace(r[i])
    ensures AllAllowed(cc, s) ==> forall i :: 0 <= i < |r| ==> CleanChar(cc, r[i])
    decreases |s|
  {
    if s == [] then []
    else if cc.isSpace(s[0]) then
      var t := TrimLeft(cc, s[1..]);
      SuffixAllowed(cc, s, 1);
      SuffixAllowed(cc, s[1..], |s| - 1 - |t|);
      [' '] + Collapse(cc, t)
    else
      SuffixAllowed(cc, s, 1);
      [s[0]] + Collapse(cc, s[1..])
  }

  /** A suffix of text without disallowed characters has none either. */
  lemma SuffixAllowed(cc: CharClasses, s: string, k: nat)
    requires k <= |s|
    ensures AllAllowed(cc, s) ==> AllAllowed(cc, s[k..])
  {
    if AllAllowed(cc, s) {
      forall i | 0 <= i < |s| - k ensures Allowed(cc, s[k..][i]) {
        assert s[k..][i] == s[k + i];
      }
    }
  }

  /** `preprocess_text`: NaN/None gives "", text is stripped, filtered and collapsed. */
  function PreprocessText(cc: CharClasses, cell: Cell): (r: string)
    ensures cell.Missing? ==> r == ""
    ensures cell.Text? ==> |r| <= |cell.text|
    ensures forall i :: 0 <= i < |r| ==> CleanChar(cc, r[i])
  {
    match cell
    case Missing => ""
    case Text(s) => Collapse(cc, RemoveDisallowed(cc, Strip(cc, s)))
  }
}
