/**
 * The pieces of Python's string handling that the label classifier uses: the `in` substring
 * test, `str.upper()` and `str.strip()`. The functions carry no contracts of their own, so that
 * code classifying labels does not pay for them; what they compute is stated by the lemmas.
 */
module Text {

  /** `sub` occurs in `s` starting at position `i`. */
  predicate OccursAt(s: string, sub: string, i: nat) {
    i + |sub| <= |s| && s[i..i + |sub|] == sub
  }

  /** Python's `sub in s`. */
  function Contains(s: string, sub: string): bool {
    if |s| < |sub| then false
    else if s[..|sub|] == sub then true
    else Contains(s[1..], sub)
  }

  /** `Contains` holds exactly when `sub` occurs as a contiguous slice of `s`. */
  lemma {:induction false} ContainsIff(s: string, sub: string)
    ensures Contains(s, sub) <==> exists i: nat :: OccursAt(s, sub, i)
  {
    if |s| < |sub| {
    } else if s[..|sub|] == sub {
      assert OccursAt(s, sub, 0);
    } else {
      ContainsIff(s[1..], sub);
      if Contains(s[1..], sub) {
        var i: nat :| OccursAt(s[1..], sub, i);
        assert OccursAt(s, sub, i + 1);
      } else {
        forall i: nat | OccursAt(s, sub, i) ensures false {
          assert i != 0;
          assert OccursAt(s[1..], sub, i - 1);
        }
      }
    }
  }

  /** A lower-case ASCII letter goes to its upper-case form; every other character is kept. */
  function UpperChar(c: char): (u: char)
    ensures 'a' <= c <= 'z' ==> 'A' <= u <= 'Z' && u as int - c as int == 'A' as int - 'a' as int
    ensures !('a' <= c <= 'z') ==> u == c
  {
    if 'a' <= c <= 'z' then (c as int - 'a' as int + 'A' as int) as char else c
  }

  /** Python's `str.upper()`, on the ASCII letters. */
  function ToUpper(s: string): string {
    if s == [] then [] else [UpperChar(s[0])] + ToUpper(s[1..])
  }

  /** `ToUpper` upper-cases character by character. */
  lemma {:induction false} ToUpperChars(s: string)
    ensures |ToUpper(s)| == |s|
    ensures forall i :: 0 <= i < |s| ==> ToUpper(s)[i] == UpperChar(s[i])
  {
    if s != [] {
      ToUpperChars(s[1..]);
    }
  }

  /** A string equals the upper-cased `s` when it agrees with it character by character. */
  lemma ToUpperIs(s: string, t: string)
    requires |t| == |s| && forall i :: 0 <= i < |s| ==> t[i] == UpperChar(s[i])
    ensures ToUpper(s) == t
  {
    ToUpperChars(s);
  }

  /** The characters for which Python's `str.isspace()` holds; `str.strip()` removes these. */
  predicate IsSpace(c: char) {
    c == ' ' || c == '\t' || c == '\n' || c == '\r' || c == '\U{0B}' || c == '\U{0C}'
    || ('\U{1C}' <= c <= '\U{1F}') || c == '\U{85}' || c == '\U{A0}' || c == '\U{1680}'
    || ('\U{2000}' <= c <= '\U{200A}') || c == '\U{2028}' || c == '\U{2029}'
    || c == '\U{202F}' || c == '\U{205F}' || c == '\U{3000}'
  }

  /** How many whitespace characters `s` starts with. */
  function LeadingSpaces(s: string): (k: nat)
    ensures k <= |s|
  {
    if s != [] && IsSpace(s[0]) then 1 + LeadingSpaces(s[1..]) else 0
  }

  lemma {:induction false} LeadingSpacesSpec(s: string)
    ensures forall j :: 0 <= j < LeadingSpaces(s) ==> IsSpace(s[j])
    ensures LeadingSpaces(s) < |s| ==> !IsSpace(s[LeadingSpaces(s)])
  {
    if s != [] && IsSpace(s[0]) {
      LeadingSpacesSpec(s[1..]);
    }
  }

  /** Where the whitespace that ends `s` starts, looking no further left than `lo`. */
  function TrailingStart(s: string, lo: nat): (hi: nat)
    requires lo <= |s|
    ensures lo <= hi <= |s|
  {
    if lo < |s| && IsSpace(s[|s| - 1]) then TrailingStart(s[..|s| - 1], lo) else |s|
  }

  lemma {:induction false} TrailingStartSpec(s: string, lo: nat)
    requires lo <= |s|
    ensures forall j :: TrailingStart(s, lo) <= j < |s| ==> IsSpace(s[j])
    ensures lo < TrailingStart(s, lo) ==> !IsSpace(s[TrailingStart(s, lo) - 1])
  {
    if lo < |s| && IsSpace(s[|s| - 1]) {
      TrailingStartSpec(s[..|s| - 1], lo);
    }
  }

  /** Python's `str.strip()` with no argument. */
  function Strip(s: string): string {
    var lo := LeadingSpaces(s);
    s[lo..TrailingStart(s, lo)]
  }

  /** `Strip` drops exactly the leading and the trailing whitespace: the result is a slice of `s`
      outside which `s` holds only whitespace, and it neither starts nor ends with whitespace. */
  lemma StripSpec(s: string)
    ensures var lo, hi := LeadingSpaces(s), TrailingStart(s, LeadingSpaces(s));
            lo <= hi <= |s| && Strip(s) == s[lo..hi]
            && (forall j :: 0 <= j < lo ==> IsSpace(s[j]))
            && (forall j :: hi <= j < |s| ==> IsSpace(s[j]))
    ensures Strip(s) != [] ==> !IsSpace(Strip(s)[0]) && !IsSpace(Strip(s)[|Strip(s)| - 1])
  {
    LeadingSpacesSpec(s);
    TrailingStartSpec(s, LeadingSpaces(s));
  }

  /** A string that neither starts nor ends with whitespace is left as it is by `Strip`. */
  lemma StripKeepsTrimmed(s: string)
    requires s != [] ==> !IsSpace(s[0]) && !IsSpace(s[|s| - 1])
    ensures Strip(s) == s
  {
    LeadingSpacesSpec(s);
    if s != [] {
      assert LeadingSpaces(s) == 0;
      TrailingStartSpec(s, 0);
    }
  }

  /** Slicing a slice is slicing the original at shifted positions. */
  lemma SliceOfSlice(s: string, lo: nat, hi: nat, i: nat, n: nat)
    requires lo <= i && i + n <= hi <= |s|
    ensures s[lo..hi][i - lo..i - lo + n] == s[i..i + n]
  {
    var a, b := s[lo..hi][i - lo..i - lo + n], s[i..i + n];
    forall j | 0 <= j < n ensures a[j] == b[j] {
    }
  }

  /** An occurrence of a word without whitespace lies inside any slice `s[lo..hi]` outside which
      `s` holds only whitespace. */
  lemma OccurrenceInsideSlice(s: string, word: string, lo: nat, hi: nat, i: nat)
    requires word != [] && lo <= hi <= |s|
    requires forall j :: 0 <= j < |word| ==> !IsSpace(word[j])
    requires forall j :: 0 <= j < lo ==> IsSpace(s[j])
    requires forall j :: hi <= j < |s| ==> IsSpace(s[j])
    requires OccursAt(s, word, i)
    ensures lo <= i && OccursAt(s[lo..hi], word, i - lo)
  {
    assert s[i] == word[0];
    assert s[i + |word| - 1] == word[|word| - 1];
    assert lo <= i;
    assert i + |word| <= hi;
    SliceOfSlice(s, lo, hi, i, |word|);
  }

  /** A word without whitespace is found in `s` exactly when it is found in a slice of `s`
      outside which `s` holds only whitespace. */
  lemma ContainsTrimmedSlice(s: string, word: string, lo: nat, hi: nat)
    requires word != [] && lo <= hi <= |s|
    requires forall j :: 0 <= j < |word| ==> !IsSpace(word[j])
    requires forall j :: 0 <= j < lo ==> IsSpace(s[j])
    requires forall j :: hi <= j < |s| ==> IsSpace(s[j])
    ensures Contains(s[lo..hi], word) <==> Contains(s, word)
  {
    ContainsIff(s, word);
    ContainsIff(s[lo..hi], word);
    if Contains(s, word) {
      FoundInTrimmedSlice(s, word, lo, hi);
    }
    if Contains(s[lo..hi], word) {
      FoundInWhole(s, word, lo, hi);
    }
  }

  lemma FoundInTrimmedSlice(s: string, word: string, lo: nat, hi: nat)
    requires word != [] && lo <= hi <= |s|
    requires forall j :: 0 <= j < |word| ==> !IsSpace(word[j])
    requires forall j :: 0 <= j < lo ==> IsSpace(s[j])
    requires forall j :: hi <= j < |s| ==> IsSpace(s[j])
    requires exists i: nat :: OccursAt(s, word, i)
    ensures exists i: nat :: OccursAt(s[lo..hi], word, i)
  {
    var i: nat :| OccursAt(s, word, i);
    OccurrenceInsideSlice(s, word, lo, hi, i);
  }

  lemma FoundInWhole(s: string, word: string, lo: nat, hi: nat)
    requires lo <= hi <= |s|
    requires exists i: nat :: OccursAt(s[lo..hi], word, i)
    ensures exists i: nat :: OccursAt(s, word, i)
  {
    var i: nat :| OccursAt(s[lo..hi], word, i);
    SliceOfSlice(s, lo, hi, lo + i, |word|);
    assert OccursAt(s, word, lo + i);
  }

  /** A word without whitespace is found in `s` exactly when it is found in `Strip(s)`. */
  lemma ContainsStrip(s: string, word: string)
    requires word != []
    requires forall j :: 0 <= j < |word| ==> !IsSpace(word[j])
    ensures Contains(Strip(s), word) <==> Contains(s, word)
  {
    StripSpec(s);
    ContainsTrimmedSlice(s, word, LeadingSpaces(s), TrailingStart(s, LeadingSpaces(s)));
  }
}
