/**
 * LanguageE: the three interface languages and the UNKNOWN marker, their codes and names, and
 * parsing a language from a code or a (case-insensitive) name.
 */
module Language {
  import opened Wrappers
  import opened JsText

  datatype LanguageE = English | Japanese | ChineseTraditional | Unknown

  /** The code a language carries (`Langs`). */
  function Code(l: LanguageE): string {
    match l
    case English => "en"
    case Japanese => "ja"
    case ChineseTraditional => "zh-TW"
    case Unknown => "unknown"
  }

  /** `name()`: the constant's name. */
  function Name(l: LanguageE): string {
    match l
    case English => "ENGLISH"
    case Japanese => "JAPANESE"
    case ChineseTraditional => "CHINESE_TRADITIONAL"
    case Unknown => "UNKNOWN"
  }

  /** `isValid()`: the code is not `"unknown"`. */
  predicate IsValid(l: LanguageE) {
    Code(l) != "unknown"
  }

  predicate IsInvalid(l: LanguageE) {
    !IsValid(l)
  }

  /** Only UNKNOWN is invalid, and isInvalid is the negation of isValid. */
  lemma ValidityIff(l: LanguageE)
    ensures IsValid(l) <==> l != Unknown
    ensures IsInvalid(l) <==> !IsValid(l)
  {
  }

  /** `values()`: the valid languages, each once, UNKNOWN never. */
  function Values(): (vs: seq<LanguageE>)
    ensures forall l :: l in vs <==> IsValid(l)
    ensures forall i, j :: 0 <= i < j < |vs| ==> vs[i] != vs[j]
  {
    [English, Japanese, ChineseTraditional]
  }

  /** `fromCode`: the language whose code this is, or UNKNOWN. */
  function FromCode(code: string): (l: LanguageE)
    ensures IsValid(l) ==> Code(l) == code
    ensures !IsValid(l) <==> code != "en" && code != "ja" && code != "zh-TW"
  {
    if code == "en" then English
    else if code == "ja" then Japanese
    else if code == "zh-TW" then ChineseTraditional
    else Unknown
  }

  /** `fromName`: the language whose name equals the upper-cased text, or UNKNOWN. */
  function FromName(name: string): (l: LanguageE)
    ensures IsValid(l) ==> Name(l) == ToUpper(name)
    ensures !IsValid(l) <==> forall v :: IsValid(v) ==> Name(v) != ToUpper(name)
  {
    var upper := ToUpper(name);
    if upper == "ENGLISH" then English
    else if upper == "JAPANESE" then Japanese
    else if upper == "CHINESE_TRADITIONAL" then ChineseTraditional
    else Unknown
  }

  /** `parse`: absent or empty text is UNKNOWN; otherwise the trimmed text read as a code, and
      failing that as a name. */
  function Parse(text: Option<string>): (l: LanguageE)
    ensures text.None? || text == Some("") ==> l == Unknown
    ensures IsValid(l) ==> text.Some? && (Code(l) == Trim(text.value) || Name(l) == ToUpper(Trim(text.value)))
  {
    match text
    case None => Unknown
    case Some(t) =>
      if t == "" then Unknown
      else
        var byCode := FromCode(Trim(t));
        if IsInvalid(byCode) then FromName(Trim(t)) else byCode
  }

  /** Every valid language is found again from its code. */
  lemma CodeRoundTrip(l: LanguageE)
    requires IsValid(l)
    ensures FromCode(Code(l)) == l
  {
  }

  /** Every valid language is found again from its name. */
  lemma NameRoundTrip(l: LanguageE)
    requires IsValid(l)
    ensures FromName(Name(l)) == l
  {
    UpperIdentity(Name(l));
  }

  /** parse reads the trimmed text as a code first, then as a name. */
  lemma ParseSteps(t: string)
    requires t != ""
    ensures IsValid(FromCode(Trim(t))) ==> Parse(Some(t)) == FromCode(Trim(t))
    ensures !IsValid(FromCode(Trim(t))) ==> Parse(Some(t)) == FromName(Trim(t))
  {
  }

  /** parse finds every valid language from its code. */
  lemma ParseCodeRoundTrip(l: LanguageE)
    requires IsValid(l)
    ensures Parse(Some(Code(l))) == l
  {
    var c := Code(l);
    TrimIdentity(c);
    ParseSteps(c);
    CodeRoundTrip(l);
  }

  /** parse finds every valid language from its name. */
  lemma ParseNameRoundTrip(l: LanguageE)
    requires IsValid(l)
    ensures Parse(Some(Name(l))) == l
  {
    var n := Name(l);
    TrimIdentity(n);
    ParseSteps(n);
    assert !IsValid(FromCode(n));
    NameRoundTrip(l);
  }

  /** Names are matched whatever their case. */
  lemma NamesIgnoreCase()
    ensures FromName("english") == English && FromName("Japanese") == Japanese
    ensures FromName("chinese_traditional") == ChineseTraditional
  {
    assert ToUpper("english") == "ENGLISH";
    assert ToUpper("Japanese") == "JAPANESE";
    assert ToUpper("chinese_traditional") == "CHINESE_TRADITIONAL";
  }

  /** parse reads text and its trimmed form alike. */
  lemma ParseTrimmed(t: string)
    requires Trim(t) != ""
    ensures Parse(Some(t)) == Parse(Some(Trim(t)))
  {
    TrimIdempotent(t);
    ParseSteps(t);
    ParseSteps(Trim(t));
  }

  lemma TrimBlank()
    ensures Trim("  ") == ""
  {
    assert "  "[1..] == " ";
    assert " "[1..] == "";
    assert TrimStart("  ") == "";
  }

  /** Blank text gives UNKNOWN. */
  lemma ParseBlank()
    ensures Parse(Some("  ")) == Unknown
  {
    TrimBlank();
    ParseSteps("  ");
    assert ToUpper("") == "";
  }

  /** The name of the UNKNOWN marker does not name a language. */
  lemma UnknownName()
    ensures FromName("UNKNOWN") == Unknown
  {
    UpperIdentity("UNKNOWN");
  }

  /** Upper-casing leaves the constant names as they are. */
  lemma UpperIdentity(s: string)
    requires forall i :: 0 <= i < |s| ==> 'A' <= s[i] <= 'Z' || s[i] == '_'
    ensures ToUpper(s) == s
  {
  }

  /** Trimming leaves the codes and names as they are. */
  lemma TrimIdentity(s: string)
    requires s != [] && !IsSpace(s[0]) && !IsSpace(s[|s| - 1])
    ensures Trim(s) == s
  {
  }
}
