/**
 * The home page's start-up rule: the interface language and the preselected
 * market, both derived from the browser's locale tag (such as "nl-NL").
 */
module Locale {
  import opened Wrappers
  import opened Text

  /** The languages the interface is translated into (the keys of `translations`). */
  const TranslationKeys: set<string> := {"en", "es", "zh", "ar", "hi", "pt", "nl"}
  const DefaultLanguage: string := "en"
  const DefaultMarket: string := "US"

  /** The lang and market the page settles on. */
  datatype Settings = Settings(lang: string, market: string)

  /** `locale.slice(0, 2)`: the first two characters, or fewer when the tag is shorter. */
  function LangCode(locale: string): (code: string)
    ensures |code| == if |locale| < 2 then |locale| else 2
    ensures code <= locale
  {
    if |locale| < 2 then locale else locale[..2]
  }

  /** The interface language: the two-letter code when it is translated, else the default. */
  function Language(locale: string): (lang: string)
    ensures lang in TranslationKeys
    ensures LangCode(locale) in TranslationKeys ==> lang == LangCode(locale)
    ensures LangCode(locale) !in TranslationKeys ==> lang == DefaultLanguage
  {
    if LangCode(locale) in TranslationKeys then LangCode(locale) else DefaultLanguage
  }

  /** `locale.split('-')[1]?.toUpperCase()`: the uppercased part after the first '-', if any. */
  function CountryCode(locale: string): (r: Option<string>)
    ensures r.None? <==> '-' !in locale
    ensures r.Some? ==> '-' !in r.value
  {
    SeveralPartsIffSeparator(locale, '-');
    var parts := Split(locale, '-');
    if |parts| >= 2 then
      assert '-' !in parts[1];
      Some(ToUpper(parts[1]))
    else None
  }

  /**
   * The country part is the upper-cased second '-'-separated segment, whatever
   * follows it: in a three-part tag such as "zh-Hant-TW" it is the middle one.
   */
  lemma CountryIsSecondSegment(lang: string, region: string, tail: string)
    requires '-' !in lang && '-' !in region
    ensures CountryCode(lang + "-" + region) == Some(ToUpper(region))
    ensures CountryCode(lang + "-" + region + "-" + tail) == Some(ToUpper(region))
  {
    SplitAtFirst(lang, region, '-');
    SplitNoSeparator(region, '-');
    assert lang + "-" + region == lang + ['-'] + region;
    SplitAtFirst(lang, region + "-" + tail, '-');
    SplitAtFirst(region, tail, '-');
    assert lang + "-" + region + "-" + tail == lang + ['-'] + (region + ['-'] + tail);
  }

  /** "zh-Hant-TW": the script subtag "Hant" is taken as the country part. */
  lemma ScriptSubtagTaken()
    ensures CountryCode("zh-Hant-TW") == Some("HANT")
  {
    CountryIsSecondSegment("zh", "Hant", "TW");
    assert "zh" + "-" + "Hant" + "-" + "TW" == "zh-Hant-TW";
    assert ToUpper("Hant") == "HANT" by {
      assert ToUpper("Hant")[0] == 'H' && ToUpper("Hant")[1] == 'A';
      assert ToUpper("Hant")[2] == 'N' && ToUpper("Hant")[3] == 'T';
    }
  }

  /** The country step applies: a non-empty country part that names a market. */
  predicate CountryStepApplies(locale: string, countries: set<string>)
  {
    CountryCode(locale).Some? && CountryCode(locale).value != "" && CountryCode(locale).value in countries
  }

  /**
   * The preselected market: the locale's country part when it names a market,
   * else the uppercased language code when that names one, else "US".
   * `countries` holds the keys of the market table.
   */
  function Market(locale: string, countries: set<string>): (market: string)
    ensures market in countries || market == DefaultMarket
    ensures CountryStepApplies(locale, countries) ==> market == CountryCode(locale).value
    ensures !CountryStepApplies(locale, countries) && ToUpper(LangCode(locale)) in countries ==>
              market == ToUpper(LangCode(locale))
    ensures !CountryStepApplies(locale, countries) && ToUpper(LangCode(locale)) !in countries ==>
              market == DefaultMarket
  {
    var countryCode := CountryCode(locale);
    if countryCode.Some? && countryCode.value != "" && countryCode.value in countries then countryCode.value
    else
      var langUpper := ToUpper(LangCode(locale));
      if langUpper in countries then langUpper else DefaultMarket
  }

  /** The whole start-up rule. */
  function Detect(locale: string, countries: set<string>): (s: Settings)
    ensures s.lang in TranslationKeys
    ensures s.market in countries || s.market == DefaultMarket
  {
    Settings(Language(locale), Market(locale, countries))
  }

  /** A tag without '-' skips the country step: the language code decides, or the default. */
  lemma NoCountryPart(locale: string, countries: set<string>)
    requires '-' !in locale
    ensures Market(locale, countries) ==
      if ToUpper(LangCode(locale)) in countries then ToUpper(LangCode(locale)) else DefaultMarket
  {
  }

  /**
   * In a tag `lang-region…` the region's uppercase form wins whenever it names
   * a market, whatever the language code would give.
   */
  lemma RegionWins(lang: string, region: string, countries: set<string>)
    requires '-' !in lang && '-' !in region
    requires region != "" && ToUpper(region) in countries
    ensures CountryCode(lang + "-" + region) == Some(ToUpper(region))
    ensures Market(lang + "-" + region, countries) == ToUpper(region)
  {
    SplitAtFirst(lang, region, '-');
    SplitNoSeparator(region, '-');
    assert lang + "-" + region == lang + ['-'] + region;
  }

  /**
   * A region that names no market hands over to the language code: "fr-XX"
   * gives "FR" when that is a market.
   */
  lemma RegionUnknown(lang: string, region: string, countries: set<string>)
    requires '-' !in lang && '-' !in region
    requires ToUpper(region) !in countries
    ensures Market(lang + "-" + region, countries) ==
      if ToUpper(LangCode(lang + "-" + region)) in countries then ToUpper(LangCode(lang + "-" + region))
      else DefaultMarket
  {
    SplitAtFirst(lang, region, '-');
    SplitNoSeparator(region, '-');
    assert lang + "-" + region == lang + ['-'] + region;
  }

  /** A tag part with no lower-case ASCII letter is its own upper-case form. */
  lemma UpperOfUppercase(s: string)
    requires forall i :: 0 <= i < |s| ==> !IsLowerAscii(s[i])
    ensures ToUpper(s) == s
  {
  }

  /** "nl-NL" with NL a market: Dutch interface, Dutch market. */
  lemma DutchLocale(countries: set<string>)
    requires "NL" in countries
    ensures Detect("nl-NL", countries) == Settings("nl", "NL")
  {
    UpperOfUppercase("NL");
    RegionWins("nl", "NL", countries);
    assert "nl" + "-" + "NL" == "nl-NL";
    assert LangCode("nl-NL") == "nl";
  }

  /** "en" when EN is no market (English is a language, not a country): the US default. */
  lemma EnglishLocale(countries: set<string>)
    requires "EN" !in countries
    ensures Detect("en", countries) == Settings("en", "US")
  {
    assert LangCode("en") == "en";
    assert ToUpper("en") == "EN" by {
      assert ToUpper("en")[0] == 'E' && ToUpper("en")[1] == 'N';
    }
    NoCountryPart("en", countries);
  }

  /** "fr-BE" with BE a market: no French translation, so English; the Belgian market. */
  lemma UntranslatedLanguage(countries: set<string>)
    requires "BE" in countries
    ensures Detect("fr-BE", countries) == Settings("en", "BE")
  {
    UpperOfUppercase("BE");
    RegionWins("fr", "BE", countries);
    assert "fr" + "-" + "BE" == "fr-BE";
    assert LangCode("fr-BE") == "fr";
    assert "fr" !in TranslationKeys;
  }
}
