/** getLocalizedValue: pick the language-specific field of a record such as a
    category (`titleRu`, `titleKk`, `titleEn`), falling back to English and to
    the bare field. A missing field and an empty string are both falsy. */
module LocaleUtil {
  import opened Common

  /** A record's string fields; a key that is absent reads as "". */
  type Fields = map<string, string>

  function Field(obj: Fields, key: string): string {
    if key in obj then obj[key] else ""
  }

  /** `s.charAt(0).toUpperCase() + s.slice(1)`. */
  function Capitalize(s: string): (r: string)
    ensures |r| == |s|
    ensures s != [] ==> r[0] == UpperChar(s[0]) && r[1..] == s[1..]
  {
    if s == [] then [] else [UpperChar(s[0])] + s[1..]
  }

  /** `${baseKey}${capitalize(language)}`: the base key, then the language
      with its first character upper-cased. */
  function LocalizedKey(baseKey: string, language: string): (k: string)
    ensures |k| == |baseKey| + |language| && k[..|baseKey|] == baseKey
    ensures language != "" ==> k[|baseKey|] == UpperChar(language[0]) && k[|baseKey| + 1..] == language[1..]
    ensures language == "" ==> k == baseKey
  {
    baseKey + Capitalize(language)
  }

  /** The first truthy value among the localized field, the English field and
      the bare field, else "". */
  function GetLocalizedValue(obj: Fields, language: string, baseKey: string): (r: string)
    ensures Field(obj, LocalizedKey(baseKey, language)) != "" ==> r == Field(obj, LocalizedKey(baseKey, language))
    ensures r == "" <==> Field(obj, LocalizedKey(baseKey, language)) == "" &&
                         Field(obj, baseKey + "En") == "" && Field(obj, baseKey) == ""
    ensures r in {"", Field(obj, LocalizedKey(baseKey, language)), Field(obj, baseKey + "En"), Field(obj, baseKey)}
  {
    var localized := Field(obj, LocalizedKey(baseKey, language));
    if localized != "" then localized
    else if Field(obj, baseKey + "En") != "" then Field(obj, baseKey + "En")
    else Field(obj, baseKey)
  }

  /** ("title", "kk") gives the key "titleKk". */
  lemma KazakhKey()
    ensures LocalizedKey("title", "kk") == "titleKk"
  {
  }

  /** An empty language leaves the bare key. */
  lemma EmptyLanguageKey(baseKey: string)
    ensures LocalizedKey(baseKey, "") == baseKey
  {
  }

  /** English asks for the same key as the English fallback, so the result is
      the English field when it is set, else the bare field. */
  lemma EnglishIsTheFallback(obj: Fields, baseKey: string)
    ensures LocalizedKey(baseKey, "en") == baseKey + "En"
    ensures GetLocalizedValue(obj, "en", baseKey) ==
            if Field(obj, baseKey + "En") != "" then Field(obj, baseKey + "En") else Field(obj, baseKey)
  {
    assert Capitalize("en") == "En";
  }

  /** A missing or empty localized field falls through to the English one. */
  lemma EmptyLocalizedFallsThrough(obj: Fields, language: string, baseKey: string)
    requires Field(obj, LocalizedKey(baseKey, language)) == ""
    requires Field(obj, baseKey + "En") != ""
    ensures GetLocalizedValue(obj, language, baseKey) == Field(obj, baseKey + "En")
  {
  }
}
