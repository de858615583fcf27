/**
 * `map_to_main_category` of app.py: a label of the fine-grained classifier is grouped into one
 * of three main categories by scanning its upper-cased, stripped form for keywords, in a fixed
 * order of priority; a label with none of the keywords is returned as it was given.
 */
module Categories {
  import opened Wrappers
  import opened Text

  datatype Category = ConfirmedPlanet | CandidatePlanet | FalsePositive {
    /** The name under which the category is reported and used as a key of the grouped confidence. */
    function Name(): string {
      match this
      case ConfirmedPlanet => "Confirmed Planet"
      case CandidatePlanet => "Candidate Planet"
      case FalsePositive => "False Positive (Not a Planet)"
    }
  }

  const ConfirmedKeywords: seq<string> := ["CONFIRMED"]
  const CandidateKeywords: seq<string> := ["CANDIDATE", "APC", "CP", "KP"]
  const FalsePositiveKeywords: seq<string> := ["FALSE", "FA", "REFUTED", "NOT"]

  /** The three category names: the keys of the grouped confidence. */
  const CategoryNames: set<string> := {ConfirmedPlanet.Name(), CandidatePlanet.Name(), FalsePositive.Name()}

  /** Python's `any(keyword in text for keyword in keywords)`. */
  function AnyIn(keywords: seq<string>, text: string): bool {
    if keywords == [] then false
    else Contains(text, keywords[0]) || AnyIn(keywords[1..], text)
  }

  /** `AnyIn` holds exactly when one of the keywords occurs in the text. */
  lemma {:induction false} AnyInIff(keywords: seq<string>, text: string)
    ensures AnyIn(keywords, text) <==> exists k :: 0 <= k < |keywords| && Contains(text, keywords[k])
  {
    if keywords != [] {
      AnyInIff(keywords[1..], text);
      assert forall k :: 1 <= k < |keywords| ==> keywords[k] == keywords[1..][k - 1];
    }
  }

  /** The form of a label the keywords are looked for in: `str(label).upper().strip()`. */
  function Normalize(name: string): string {
    Strip(ToUpper(name))
  }

  /** The keyword scan on an already normalised label, first match winning. */
  function ClassifyNormalized(u: string): Option<Category> {
    if AnyIn(ConfirmedKeywords, u) then Some(ConfirmedPlanet)
    else if AnyIn(CandidateKeywords, u) then Some(CandidatePlanet)
    else if AnyIn(FalsePositiveKeywords, u) then Some(FalsePositive)
    else None
  }

  /** The category a label falls into, if any. */
  function Classify(name: string): Option<Category> {
    ClassifyNormalized(Normalize(name))
  }

  /** `map_to_main_category(label)`: the category's name, or the label itself. */
  function MapToMainCategory(name: string): string {
    match Classify(name)
    case Some(c) => c.Name()
    case None => name
  }

  /** The three keyword lists, written out. */
  lemma KeywordLists(u: string)
    ensures AnyIn(ConfirmedKeywords, u) <==> Contains(u, "CONFIRMED")
    ensures AnyIn(CandidateKeywords, u)
            <==> Contains(u, "CANDIDATE") || Contains(u, "APC") || Contains(u, "CP") || Contains(u, "KP")
    ensures AnyIn(FalsePositiveKeywords, u)
            <==> Contains(u, "FALSE") || Contains(u, "FA") || Contains(u, "REFUTED") || Contains(u, "NOT")
  {
    AnyInIff(ConfirmedKeywords, u);
    AnyInIff(CandidateKeywords, u);
    AnyInIff(FalsePositiveKeywords, u);
    assert ConfirmedKeywords[0] == "CONFIRMED";
    assert CandidateKeywords[0] == "CANDIDATE" && CandidateKeywords[1] == "APC";
    assert CandidateKeywords[2] == "CP" && CandidateKeywords[3] == "KP";
    assert FalsePositiveKeywords[0] == "FALSE" && FalsePositiveKeywords[1] == "FA";
    assert FalsePositiveKeywords[2] == "REFUTED" && FalsePositiveKeywords[3] == "NOT";
  }

  /** The keyword priority of `map_to_main_category`: CONFIRMED wins over every other keyword,
      a candidate keyword wins over a false-positive one, and a label with no keyword at all
      comes back exactly as given. */
  lemma FirstMatchWins(name: string)
    ensures var u := Normalize(name);
            Contains(u, "CONFIRMED") ==> MapToMainCategory(name) == "Confirmed Planet"
    ensures var u := Normalize(name);
            !Contains(u, "CONFIRMED")
            && (Contains(u, "CANDIDATE") || Contains(u, "APC") || Contains(u, "CP") || Contains(u, "KP"))
            ==> MapToMainCategory(name) == "Candidate Planet"
    ensures var u := Normalize(name);
            !Contains(u, "CONFIRMED")
            && !(Contains(u, "CANDIDATE") || Contains(u, "APC") || Contains(u, "CP") || Contains(u, "KP"))
            && (Contains(u, "FALSE") || Contains(u, "FA") || Contains(u, "REFUTED") || Contains(u, "NOT"))
            ==> MapToMainCategory(name) == "False Positive (Not a Planet)"
    ensures var u := Normalize(name);
            !Contains(u, "CONFIRMED")
            && !(Contains(u, "CANDIDATE") || Contains(u, "APC") || Contains(u, "CP") || Contains(u, "KP"))
            && !(Contains(u, "FALSE") || Contains(u, "FA") || Contains(u, "REFUTED") || Contains(u, "NOT"))
            ==> MapToMainCategory(name) == name
  {
    KeywordLists(Normalize(name));
  }

  /** A string lacking one of the characters of `sub` does not contain `sub`. */
  lemma MissingCharNotContained(s: string, sub: string, k: nat)
    requires k < |sub|
    requires forall j :: 0 <= j < |s| ==> s[j] != sub[k]
    ensures !Contains(s, sub)
  {
    ContainsIff(s, sub);
    forall i: nat ensures !OccursAt(s, sub, i) {
      if i + |sub| <= |s| {
        assert s[i..i + |sub|][k] == s[i + k];
      }
    }
  }

  /** A string starting with `sub` contains it. */
  lemma PrefixContained(s: string, sub: string, i: nat)
    requires OccursAt(s, sub, i)
    ensures Contains(s, sub)
  {
    ContainsIff(s, sub);
  }

  /** The upper-cased, stripped form of each category name. */
  function NormalizedName(c: Category): string {
    match c
    case ConfirmedPlanet => "CONFIRMED PLANET"
    case CandidatePlanet => "CANDIDATE PLANET"
    case FalsePositive => "FALSE POSITIVE (NOT A PLANET)"
  }

  lemma NormalizeName(c: Category)
    ensures Normalize(c.Name()) == NormalizedName(c)
  {
    match c
    case ConfirmedPlanet => NormalizeConfirmedName(c.Name(), NormalizedName(c));
    case CandidatePlanet => NormalizeCandidateName(c.Name(), NormalizedName(c));
    case FalsePositive => NormalizeFalsePositiveName(c.Name(), NormalizedName(c));
  }

  lemma NormalizeConfirmedName(s: string, u: string)
    requires s == "Confirmed Planet" && u == "CONFIRMED PLANET"
    ensures Normalize(s) == u
  {
    ToUpperIs(s, u);
    StripKeepsTrimmed(u);
  }

  lemma NormalizeCandidateName(s: string, u: string)
    requires s == "Candidate Planet" && u == "CANDIDATE PLANET"
    ensures Normalize(s) == u
  {
    ToUpperIs(s, u);
    StripKeepsTrimmed(u);
  }

  lemma NormalizeFalsePositiveName(s: string, u: string)
    requires s == "False Positive (Not a Planet)" && u == "FALSE POSITIVE (NOT A PLANET)"
    ensures Normalize(s) == u
  {
    ToUpperIs(s, u);
    StripKeepsTrimmed(u);
  }

  lemma ConfirmedNameKeywords(u: string)
    requires u == "CONFIRMED PLANET"
    ensures ClassifyNormalized(u) == Some(ConfirmedPlanet)
  {
    KeywordLists(u);
    PrefixContained(u, "CONFIRMED", 0);
  }

  lemma CandidateNameKeywords(u: string)
    requires u == "CANDIDATE PLANET"
    ensures ClassifyNormalized(u) == Some(CandidatePlanet)
  {
    KeywordLists(u);
    MissingCharNotContained(u, "CONFIRMED", 1);
    PrefixContained(u, "CANDIDATE", 0);
  }

  lemma FalsePositiveNameKeywords(u: string)
    requires u == "FALSE POSITIVE (NOT A PLANET)"
    ensures ClassifyNormalized(u) == Some(FalsePositive)
  {
    KeywordLists(u);
    FalsePositiveNameNoEarlierKeyword(u);
    PrefixContained(u, "FALSE", 0);
  }

  lemma FalsePositiveNameNoEarlierKeyword(u: string)
    requires u == "FALSE POSITIVE (NOT A PLANET)"
    ensures !Contains(u, "CONFIRMED")
    ensures !(Contains(u, "CANDIDATE") || Contains(u, "APC") || Contains(u, "CP") || Contains(u, "KP"))
  {
    FalsePositiveNameLacksCK(u);
    MissingCharNotContained(u, "CONFIRMED", 0);
    MissingCharNotContained(u, "CANDIDATE", 0);
    MissingCharNotContained(u, "APC", 2);
    MissingCharNotContained(u, "CP", 0);
    MissingCharNotContained(u, "KP", 0);
  }

  /** Every earlier keyword holds a 'C' or a 'K', and the false-positive name holds neither. */
  lemma FalsePositiveNameLacksCK(u: string)
    requires u == "FALSE POSITIVE (NOT A PLANET)"
    ensures forall j :: 0 <= j < |u| ==> u[j] != 'C' && u[j] != 'K'
  {
  }

  /** Each category name is classified as its own category. */
  lemma {:induction false} ClassifyName(c: Category)
    ensures Classify(c.Name()) == Some(c)
  {
    NormalizeName(c);
    match c
    case ConfirmedPlanet => ConfirmedNameKeywords(NormalizedName(c));
    case CandidatePlanet => CandidateNameKeywords(NormalizedName(c));
    case FalsePositive => FalsePositiveNameKeywords(NormalizedName(c));
  }

  /** A label that no keyword classifies is never itself one of the category names. */
  lemma FallbackIsNotACategoryName(name: string)
    ensures Classify(name).None? ==> name !in CategoryNames
  {
    if name in CategoryNames {
      var c: Category :| c.Name() == name;
      ClassifyName(c);
    }
  }

  /** `map_to_main_category` returns a category name exactly when a keyword occurred, and the
      label itself otherwise. */
  lemma MapToMainCategoryRange(name: string)
    ensures MapToMainCategory(name) in CategoryNames <==> Classify(name).Some?
    ensures MapToMainCategory(name) in CategoryNames || MapToMainCategory(name) == name
  {
    FallbackIsNotACategoryName(name);
  }

  /** `map_to_main_category` is idempotent: a category name maps to itself, and an unclassified
      label maps to itself again. */
  lemma {:induction false} MapToMainCategoryIdempotent(name: string)
    ensures MapToMainCategory(MapToMainCategory(name)) == MapToMainCategory(name)
  {
    match Classify(name)
    case Some(c) => ClassifyName(c);
    case None =>
  }

  /** Classification ignores case: labels that upper-case alike fall into the same category. */
  lemma ClassifyIgnoresCase(a: string, b: string)
    requires ToUpper(a) == ToUpper(b)
    ensures Classify(a) == Classify(b)
    ensures Classify(a).Some? ==> MapToMainCategory(a) == MapToMainCategory(b)
  {
  }

  /** No keyword holds whitespace. */
  predicate SpaceFree(w: string) {
    w != [] && forall j :: 0 <= j < |w| ==> !IsSpace(w[j])
  }

  lemma KeywordsSpaceFree()
    ensures forall k :: 0 <= k < |ConfirmedKeywords| ==> SpaceFree(ConfirmedKeywords[k])
    ensures forall k :: 0 <= k < |CandidateKeywords| ==> SpaceFree(CandidateKeywords[k])
    ensures forall k :: 0 <= k < |FalsePositiveKeywords| ==> SpaceFree(FalsePositiveKeywords[k])
  {
  }

  /** Stripping never changes whether a list of space-free keywords occurs in a text. */
  lemma {:induction false} AnyInStrip(keywords: seq<string>, t: string)
    requires forall k :: 0 <= k < |keywords| ==> SpaceFree(keywords[k])
    ensures AnyIn(keywords, Strip(t)) == AnyIn(keywords, t)
  {
    if keywords != [] {
      ContainsStrip(t, keywords[0]);
      AnyInStrip(keywords[1..], t);
    }
  }

  /** Stripping the upper-cased label never changes its category: no keyword holds whitespace,
      so every occurrence of one lies inside the stripped text. */
  lemma StripDoesNotAffectCategory(name: string)
    ensures Classify(name) == ClassifyNormalized(ToUpper(name))
  {
    var t := ToUpper(name);
    KeywordsSpaceFree();
    AnyInStrip(ConfirmedKeywords, t);
    AnyInStrip(CandidateKeywords, t);
    AnyInStrip(FalsePositiveKeywords, t);
  }

  /** A candidate keyword wins over a false-positive one: "NOT A CANDIDATE" is a candidate. */
  lemma CandidateBeatsNegation(name: string)
    requires name == "NOT A CANDIDATE"
    ensures MapToMainCategory(name) == "Candidate Planet"
  {
    ToUpperIs(name, name);
    StripKeepsTrimmed(name);
    MissingCharNotContained(name, "CONFIRMED", 3);
    PrefixContained(name, "CANDIDATE", 6);
    FirstMatchWins(name);
  }

  /** Keywords are matched anywhere, inside words too, and regardless of case. */
  lemma ConfirmedMatchesInsideWords(name: string)
    requires name == "unconfirmed"
    ensures MapToMainCategory(name) == "Confirmed Planet"
  {
    var u := "UNCONFIRMED";
    ToUpperIs(name, u);
    StripKeepsTrimmed(u);
    PrefixContained(u, "CONFIRMED", 2);
    FirstMatchWins(name);
  }

  /** A label without any keyword comes back exactly as given: not upper-cased, not stripped. */
  lemma UnclassifiedLabelUnchanged(name: string)
    requires name == " Unknown "
    ensures MapToMainCategory(name) == name
  {
    ToUpperIs(name, " UNKNOWN ");
    StripDoesNotAffectCategory(name);
    UnknownHasNoKeyword(ToUpper(name));
  }

  lemma UnknownHasNoKeyword(t: string)
    requires t == " UNKNOWN "
    ensures ClassifyNormalized(t) == None
  {
    KeywordLists(t);
    UnknownHasNoPlanetKeyword(t);
    MissingCharNotContained(t, "FALSE", 0);
    MissingCharNotContained(t, "FA", 0);
    MissingCharNotContained(t, "REFUTED", 0);
    MissingCharNotContained(t, "NOT", 2);
  }

  lemma UnknownHasNoPlanetKeyword(t: string)
    requires t == " UNKNOWN "
    ensures !Contains(t, "CONFIRMED")
    ensures !(Contains(t, "CANDIDATE") || Contains(t, "APC") || Contains(t, "CP") || Contains(t, "KP"))
  {
    MissingCharNotContained(t, "CONFIRMED", 0);
    MissingCharNotContained(t, "CANDIDATE", 0);
    MissingCharNotContained(t, "APC", 0);
    MissingCharNotContained(t, "CP", 0);
    MissingCharNotContained(t, "KP", 1);
  }
}
