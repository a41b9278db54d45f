/**
 * Choice of the interface language at start-up (src/i18n.ts). The browser's
 * language tag is a parameter.
 */
module Locale {

  /** The message bundles the interface ships. */
  const Bundles: set<string> := {"en", "zh", "ja"}

  /** The locale used for a message missing from the chosen bundle. */
  const FallbackLocale: string := "en"

  /** ASCII lower-casing of one character; other characters are kept. */
  function LowerChar(c: char): (d: char)
    ensures 'A' <= c <= 'Z' ==> d as int == c as int + 32
    ensures !('A' <= c <= 'Z') ==> d == c
  {
    if 'A' <= c <= 'Z' then (c as int + 32) as char else c
  }

  /** `toLowerCase`, on ASCII letters. */
  function ToLower(s: string): (r: string)
    ensures |r| == |s|
    ensures forall i :: 0 <= i < |s| ==> r[i] == LowerChar(s[i])
  {
    seq(|s|, i requires 0 <= i < |s| => LowerChar(s[i]))
  }

  predicate StartsWith(s: string, prefix: string) {
    |prefix| <= |s| && s[..|prefix|] == prefix
  }

  /**
   * Whether `s` begins with the two lower-case letters `a` and `b`, either
   * letter in either case.
   */
  predicate BeginsCaseless(s: string, a: char, b: char)
    requires 'a' <= a <= 'z' && 'a' <= b <= 'z'
  {
    |s| >= 2 && (s[0] == a || s[0] as int == a as int - 32) && (s[1] == b || s[1] as int == b as int - 32)
  }

  /** `getDefaultLocale`: "zh" for a Chinese tag, else "ja" for a Japanese one, else "en". */
  function DefaultLocale(browserLanguage: string): (locale: string)
    ensures locale in Bundles
  {
    var lang := ToLower(browserLanguage);
    if StartsWith(lang, "zh") then "zh"
    else if StartsWith(lang, "ja") then "ja"
    else "en"
  }

  /** A lower-cased tag begins with a two-letter lower-case prefix iff the tag begins with it in any case. */
  lemma LowerStartsWith(s: string, a: char, b: char)
    requires 'a' <= a <= 'z' && 'a' <= b <= 'z'
    ensures StartsWith(ToLower(s), [a, b]) <==> BeginsCaseless(s, a, b)
  {
    if |s| >= 2 {
      var l := ToLower(s);
      assert l[..2] == [l[0], l[1]];
    }
  }

  /**
   * The choice is a case-insensitive test of the tag's first two letters:
   * Chinese first, then Japanese, English otherwise.
   */
  lemma DefaultLocaleChoice(browserLanguage: string)
    ensures DefaultLocale(browserLanguage) == "zh" <==> BeginsCaseless(browserLanguage, 'z', 'h')
    ensures DefaultLocale(browserLanguage) == "ja" <==>
      !BeginsCaseless(browserLanguage, 'z', 'h') && BeginsCaseless(browserLanguage, 'j', 'a')
    ensures DefaultLocale(browserLanguage) == "en" <==>
      !BeginsCaseless(browserLanguage, 'z', 'h') && !BeginsCaseless(browserLanguage, 'j', 'a')
  {
    LowerStartsWith(browserLanguage, 'z', 'h');
    LowerStartsWith(browserLanguage, 'j', 'a');
    assert "zh" == ['z', 'h'] && "ja" == ['j', 'a'];
  }

  /** Only a prefix counts: "ZH-CN" is Chinese, while "en-zh" is English. */
  lemma DefaultLocaleExamples()
    ensures DefaultLocale("ZH-CN") == "zh"
    ensures DefaultLocale("en-zh") == "en"
    ensures DefaultLocale("ja-JP") == "ja"
  {
    DefaultLocaleChoice("ZH-CN");
    DefaultLocaleChoice("en-zh");
    DefaultLocaleChoice("ja-JP");
  }

  /** The fallback locale is one of the bundles. */
  lemma FallbackIsBundle()
    ensures FallbackLocale in Bundles
  {
  }
}
