/** The translation lookup of the site (src/contexts/language-context.tsx):
    the three languages, right-to-left detection, and `t`, which falls back
    from the current language to English to the key itself. The translation
    tables are a parameter; `Excerpt` holds a few of the real entries. */
module Language {
  import opened Js

  datatype Language = En | Fa | Ps

  /** Dari and Pashto are written right to left: every language the site
      offers except English. */
  function IsRTL(lang: Language): (rtl: bool)
    ensures rtl <==> lang != En
  {
    lang == Fa || lang == Ps
  }

  /** The translation tables: the entry of a key in a language, if any. */
  type Tables = (Language, string) -> Option<string>

  /** Truthiness of a table entry: `undefined` and `""` are both missing. */
  predicate Usable(entry: Option<string>) {
    entry.Some? && entry.value != ""
  }

  /** `t(key)`: the current language's entry, else the English one, else the
      key; `||` makes an empty entry count as missing. */
  function T(tables: Tables, lang: Language, key: string): (r: string)
    ensures Usable(tables(lang, key)) ==> r == tables(lang, key).value
    ensures !Usable(tables(lang, key)) && Usable(tables(En, key)) ==> r == tables(En, key).value
    ensures !Usable(tables(lang, key)) && !Usable(tables(En, key)) ==> r == key
    ensures r != "" <==> key != "" || Usable(tables(lang, key)) || Usable(tables(En, key))
  {
    var own := tables(lang, key);
    var english := tables(En, key);
    if own.Some? && own.value != "" then own.value
    else if english.Some? && english.value != "" then english.value
    else key
  }

  /** A non-empty key never translates to the empty text, and the empty key
      translates to itself unless some table gives it a value. */
  lemma NeverBlank(tables: Tables, lang: Language, key: string)
    ensures key != "" ==> T(tables, lang, key) != ""
    ensures key == "" && !Usable(tables(lang, "")) && !Usable(tables(En, "")) ==> T(tables, lang, key) == ""
  {
  }

  /** In English the second level adds nothing: the result is the English
      entry or the key. */
  lemma EnglishIsOneLevel(tables: Tables, key: string)
    ensures T(tables, En, key) == if Usable(tables(En, key)) then tables(En, key).value else key
  {
  }

  /** A handful of real entries of the tables: the home and donate labels
      are translated in every language, the hero image's alt text exists only
      in English, and the registration number is empty everywhere. */
  function Excerpt(lang: Language, key: string): (r: Option<string>)
    ensures key == "header.home" || key == "header.donate" ==> r.Some? && r.value != ""
    ensures key == "header.regNumber" ==> r == Some("")
    ensures key == "hero.imageAlt" ==> (r.Some? <==> lang == En)
  {
    match lang
    case En =>
      if key == "header.home" then Some("Home")
      else if key == "header.donate" then Some("Donate Now")
      else if key == "header.regNumber" then Some("")
      else if key == "hero.imageAlt" then Some("BBE Community Support")
      else None
    case Fa =>
      if key == "header.home" then Some("خانه")
      else if key == "header.donate" then Some("کمک مالی")
      else if key == "header.regNumber" then Some("")
      else None
    case Ps =>
      if key == "header.home" then Some("کور")
      else if key == "header.donate" then Some("مرسته وکړئ")
      else if key == "header.regNumber" then Some("")
      else None
  }

  /** A label translated in the current language is shown in that language,
      never in English. */
  lemma TranslatedLabelsShown()
    ensures T(Excerpt, En, "header.home") == "Home"
    ensures T(Excerpt, Fa, "header.home") == "خانه"
    ensures T(Excerpt, Ps, "header.home") == "کور"
    ensures T(Excerpt, Fa, "header.donate") == "کمک مالی"
    ensures T(Excerpt, Ps, "header.donate") == "مرسته وکړئ"
  {
  }

  /** The Dari page shows the English alt text of the hero image. */
  lemma HeroAltFallsBackToEnglish()
    ensures T(Excerpt, Fa, "hero.imageAlt") == "BBE Community Support"
    ensures T(Excerpt, Ps, "hero.imageAlt") == "BBE Community Support"
  {
  }

  /** An entry that is empty in every language shows the key itself. */
  lemma EmptyEverywhereShowsKey(lang: Language)
    ensures T(Excerpt, lang, "header.regNumber") == "header.regNumber"
  {
  }
}
