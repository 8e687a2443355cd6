/**
 * The currency choice of the client's currency formatter: the locale's region
 * subtag is looked up in a table of EU member states, then the locale is
 * checked against four prefixes, and the fallback is USD. Building the
 * `Intl.NumberFormat` and reading its symbol are not part of this model.
 */
module CurrencyFormatter {

  // ---------------------------------------------------------------------
  // Splitting a locale on '-'

  /** `s.split('-')`: the maximal '-'-free pieces, in order; never empty. */
  function Split(s: string): (parts: seq<string>)
    ensures |parts| >= 1
    decreases |s|
  {
    if s == [] then [""]
    else
      var rest := Split(s[1..]);
      if s[0] == '-' then [""] + rest else [[s[0]] + rest[0]] + rest[1..]
  }

  /** `parts.join('-')`. */
  function Join(parts: seq<string>): string
    decreases |parts|
  {
    if parts == [] then "" else if |parts| == 1 then parts[0] else parts[0] + "-" + Join(parts[1..])
  }

  /** Joining the pieces gives back the locale, and no piece holds a '-'. */
  lemma {:induction false} SplitJoin(s: string)
    ensures Join(Split(s)) == s
    ensures forall i, j | 0 <= i < |Split(s)| && 0 <= j < |Split(s)[i]| :: Split(s)[i][j] != '-'
    decreases |s|
  {
    if s != [] {
      var rest := Split(s[1..]);
      SplitJoin(s[1..]);
      if s[0] == '-' {
        assert Split(s) == [""] + rest;
        assert Split(s)[1..] == rest;
      } else {
        var parts := Split(s);
        assert parts[0] == [s[0]] + rest[0];
        if |rest| == 1 {
          assert Join(parts) == parts[0];
        } else {
          assert parts[1..] == rest[1..];
          assert Join(rest) == rest[0] + "-" + Join(rest[1..]);
        }
        forall i, j | 0 <= i < |parts| && 0 <= j < |parts[i]| ensures parts[i][j] != '-' {
          if i == 0 {
            if j > 0 { assert parts[0][j] == rest[0][j - 1]; }
          } else {
            assert parts[i] == rest[i];
          }
        }
      }
    }
  }

  /** ASCII upper-casing. */
  function UpperChar(c: char): char
  {
    if 'a' <= c <= 'z' then (c as int - 32) as char else c
  }

  function Upper(s: string): (u: string)
    ensures |u| == |s|
    ensures forall i | 0 <= i < |s| :: u[i] == UpperChar(s[i])
  {
    seq(|s|, i requires 0 <= i < |s| => UpperChar(s[i]))
  }

  /** `locale.split('-')[1]?.toUpperCase() || ''`: the region subtag, upper-cased, or empty. */
  function CountryCode(locale: string): (cc: string)
    ensures NoDash(cc)
    ensures |cc| <= |locale|
  {
    SplitJoin(locale);
    SplitLength(locale);
    var parts := Split(locale);
    if |parts| > 1 then Upper(parts[1]) else ""
  }

  /** No piece of the split is longer than the locale. */
  lemma {:induction false} SplitLength(s: string)
    ensures forall i | 0 <= i < |Split(s)| :: |Split(s)[i]| <= |s|
    decreases |s|
  {
    if s != [] {
      SplitLength(s[1..]);
    }
  }

  function StartsWith(s: string, prefix: string): bool
  {
    |prefix| <= |s| && s[..|prefix|] == prefix
  }

  // ---------------------------------------------------------------------
  // The currency tables

  /** EU member states and the currency each one uses. */
  const EuCurrencies: map<string, string> := map[
    "AT" := "EUR", "BE" := "EUR", "BG" := "BGN", "CY" := "EUR", "CZ" := "CZK",
    "DE" := "EUR", "DK" := "DKK", "EE" := "EUR", "FI" := "EUR", "FR" := "EUR",
    "GR" := "EUR", "HU" := "HUF", "IE" := "EUR", "IT" := "EUR", "LT" := "EUR",
    "LU" := "EUR", "MT" := "EUR", "NL" := "EUR", "PL" := "PLN", "PT" := "EUR",
    "RO" := "RON", "SK" := "EUR", "SI" := "EUR", "ES" := "EUR", "SE" := "SEK"]

  /** The four prefix tests, in the order they are tried. */
  const PrefixCurrencies: seq<(string, string)> := [("jp", "JPY"), ("cn", "CNY"), ("us", "USD"), ("gb", "GBP")]

  const DefaultCurrency: string := "USD"

  /** Every currency code the formatter can choose. */
  const KnownCurrencies: set<string> := {"EUR", "BGN", "CZK", "DKK", "HUF", "PLN", "RON", "SEK", "JPY", "CNY", "USD", "GBP"}

  /** The currency of the first entry of `table` whose prefix starts `locale`, else the default. */
  function FirstPrefix(locale: string, table: seq<(string, string)>): (c: string)
    ensures c == DefaultCurrency || exists i | 0 <= i < |table| :: c == table[i].1 && StartsWith(locale, table[i].0)
    decreases |table|
  {
    if table == [] then DefaultCurrency
    else if StartsWith(locale, table[0].0) then table[0].1
    else FirstPrefix(locale, table[1..])
  }

  /** The choice by table lookup: the EU table on the region subtag first, then the prefix table. */
  function CurrencyFor(locale: string): (c: string)
    ensures CountryCode(locale) in EuCurrencies ==> c == EuCurrencies[CountryCode(locale)]
  {
    var cc := CountryCode(locale);
    if cc in EuCurrencies then EuCurrencies[cc] else FirstPrefix(locale, PrefixCurrencies)
  }

  /**
   * `getCurrencyFormatter`'s choice of `currency`: starts at USD and is
   * reassigned by the first branch of the if/else chain that applies.
   */
  method ChooseCurrency(locale: string) returns (currency: string)
    ensures currency == CurrencyFor(locale)
  {
    currency := "USD";
    var countryCode := CountryCode(locale);
    if countryCode in EuCurrencies {
      currency := EuCurrencies[countryCode];
    } else if StartsWith(locale, "jp") {
      currency := "JPY";
    } else if StartsWith(locale, "cn") {
      currency := "CNY";
    } else if StartsWith(locale, "us") {
      currency := "USD";
    } else if StartsWith(locale, "gb") {
      currency := "GBP";
    }
  }

  /** `locale || navigator.language || 'en-US'`: the first non-empty of the two, else `en-US`. */
  function UserLocale(locale: string, navigatorLanguage: string): (r: string)
    ensures r != ""
    ensures locale != "" ==> r == locale
    ensures locale == "" && navigatorLanguage != "" ==> r == navigatorLanguage
    ensures locale == "" && navigatorLanguage == "" ==> r == "en-US"
  {
    if locale != "" then locale else if navigatorLanguage != "" then navigatorLanguage else "en-US"
  }

  // ---------------------------------------------------------------------
  // Properties

  /** The chosen currency is always one of the codes the tables list. */
  lemma CurrencyIsKnown(locale: string)
    ensures CurrencyFor(locale) in KnownCurrencies
  {
    var cc := CountryCode(locale);
    if cc in EuCurrencies {
      assert forall k | k in EuCurrencies :: EuCurrencies[k] in KnownCurrencies;
    }
  }

  /** Outside the EU table, the prefixes are tried in order: `jp`, then `cn`, then `us`, then `gb`. */
  lemma PrefixOrder(locale: string)
    requires CountryCode(locale) !in EuCurrencies
    ensures StartsWith(locale, "jp") ==> CurrencyFor(locale) == "JPY"
    ensures !StartsWith(locale, "jp") && StartsWith(locale, "cn") ==> CurrencyFor(locale) == "CNY"
    ensures !StartsWith(locale, "jp") && !StartsWith(locale, "cn") && StartsWith(locale, "us") ==> CurrencyFor(locale) == "USD"
    ensures (!StartsWith(locale, "jp") && !StartsWith(locale, "cn") && !StartsWith(locale, "us")
      && StartsWith(locale, "gb")) ==> CurrencyFor(locale) == "GBP"
    ensures (!StartsWith(locale, "jp") && !StartsWith(locale, "cn") && !StartsWith(locale, "us")
      && !StartsWith(locale, "gb")) ==> CurrencyFor(locale) == DefaultCurrency
  {
    var t := PrefixCurrencies;
    assert t[1..] == [("cn", "CNY"), ("us", "USD"), ("gb", "GBP")];
    assert t[1..][1..] == [("us", "USD"), ("gb", "GBP")];
    assert t[1..][1..][1..] == [("gb", "GBP")];
    assert t[1..][1..][1..][1..] == [];
  }

  predicate NoDash(s: string)
  {
    forall i | 0 <= i < |s| :: s[i] != '-'
  }

  /** A piece without a '-' is split into itself. */
  lemma {:induction false} SplitNoDash(s: string)
    requires NoDash(s)
    ensures Split(s) == [s]
    decreases |s|
  {
    if s != [] {
      SplitNoDash(s[1..]);
      assert [s[0]] + s[1..] == s;
    }
  }

  /** A leading '-'-free piece and its '-' split off as the first part. */
  lemma {:induction false} SplitFirst(a: string, b: string)
    requires NoDash(a)
    ensures Split(a + "-" + b) == [a] + Split(b)
    decreases |a|
  {
    var s := a + "-" + b;
    if a == [] {
      assert s == "-" + b && s[1..] == b;
    } else {
      assert s[1..] == a[1..] + "-" + b;
      SplitFirst(a[1..], b);
      assert [a[0]] + a[1..] == a;
    }
  }

  /** The region subtag of `lang-REGION` is `REGION`, upper-cased. */
  lemma CountryCodeOfPair(lang: string, region: string)
    requires NoDash(lang) && NoDash(region)
    ensures CountryCode(lang + "-" + region) == Upper(region)
  {
    SplitFirst(lang, region);
    SplitNoDash(region);
  }

  /** A locale without a '-' has no region subtag, so its country code is empty. */
  lemma CountryCodeWithoutRegion(locale: string)
    requires NoDash(locale)
    ensures CountryCode(locale) == ""
  {
    SplitNoDash(locale);
  }

  /** Only the second subtag is read: in `lang-sub-rest` the country code is `sub`, upper-cased, whatever follows. */
  lemma CountryCodeSecondSubtag(lang: string, sub: string, rest: string)
    requires NoDash(lang) && NoDash(sub)
    ensures CountryCode(lang + "-" + sub + "-" + rest) == Upper(sub)
  {
    assert lang + "-" + sub + "-" + rest == lang + "-" + (sub + "-" + rest);
    SplitFirst(lang, sub + "-" + rest);
    SplitFirst(sub, rest);
  }

  /** The table entries the examples use. */
  lemma TableEntries()
    ensures "GB" !in EuCurrencies && "JP" !in EuCurrencies && "US" !in EuCurrencies
    ensures "DE" in EuCurrencies && EuCurrencies["DE"] == "EUR"
    ensures "FR" in EuCurrencies && EuCurrencies["FR"] == "EUR"
    ensures "SE" in EuCurrencies && EuCurrencies["SE"] == "SEK"
  {
  }

  /** Two-letter subtags without a '-' give the expected region code. */
  lemma CountryCodeOfLetters(lang: string, region: string)
    requires |lang| == 2 && |region| == 2
    requires lang[0] != '-' && lang[1] != '-'
    requires 'A' <= region[0] <= 'Z' && 'A' <= region[1] <= 'Z'
    ensures CountryCode(lang + "-" + region) == region
  {
    CountryCodeOfPair(lang, region);
    assert Upper(region) == region;
  }

  // The example locales one by one.
  lemma GermanLocale()
    ensures CountryCode("de-DE") == "DE" && CurrencyFor("de-DE") == "EUR"
  {
    TableEntries();
    CountryCodeOfLetters("de", "DE");
    assert "de" + "-" + "DE" == "de-DE";
  }

  lemma SwedishLocale()
    ensures CountryCode("sv-SE") == "SE" && CurrencyFor("sv-SE") == "SEK"
  {
    TableEntries();
    CountryCodeOfLetters("sv", "SE");
    assert "sv" + "-" + "SE" == "sv-SE";
  }

  lemma AmericanLocale()
    ensures CountryCode("en-US") == "US" && CurrencyFor("en-US") == "USD"
  {
    TableEntries();
    CountryCodeOfLetters("en", "US");
    assert "en" + "-" + "US" == "en-US";
    assert "en-US"[0] == "en"[0];
    PrefixOrder("en-US");
  }

  lemma FrenchRegionLocale()
    ensures CountryCode("jp-FR") == "FR" && CurrencyFor("jp-FR") == "EUR"
  {
    TableEntries();
    CountryCodeOfLetters("jp", "FR");
    assert "jp" + "-" + "FR" == "jp-FR";
  }

  lemma BritishLocale()
    ensures CountryCode("en-GB") == "GB" && CurrencyFor("en-GB") == "USD"
  {
    TableEntries();
    CountryCodeOfLetters("en", "GB");
    assert "en" + "-" + "GB" == "en-GB";
    assert "en-GB"[0] == "en"[0];
    PrefixOrder("en-GB");
  }

  lemma JapaneseLocale()
    ensures CountryCode("ja-JP") == "JP" && CurrencyFor("ja-JP") == "USD"
  {
    TableEntries();
    CountryCodeOfLetters("ja", "JP");
    assert "ja" + "-" + "JP" == "ja-JP";
    assert "ja-JP"[1] == "ja"[1];
    PrefixOrder("ja-JP");
  }

  /** `de-DE` gives EUR, `sv-SE` gives SEK, `en-US` gives USD, and a table entry wins over a prefix. */
  lemma CurrencyExamples()
    ensures CurrencyFor("de-DE") == "EUR"
    ensures CurrencyFor("sv-SE") == "SEK"
    ensures CurrencyFor("en-US") == "USD"
    ensures CurrencyFor("jp-FR") == "EUR"
  {
    GermanLocale();
    SwedishLocale();
    AmericanLocale();
    FrenchRegionLocale();
  }

  // ---------------------------------------------------------------------
  // The prefix tests read the language subtag

  /**
   * As written, the prefix tests look at the start of the whole locale, which
   * is its language subtag: `en-GB`, the locale of the United Kingdom, gets
   * USD, and `ja-JP`, the locale of Japan, gets USD too.
   */
  lemma BritishLocaleGetsDollars()
    ensures CountryCode("en-GB") == "GB" && CurrencyFor("en-GB") == "USD"
    ensures CountryCode("ja-JP") == "JP" && CurrencyFor("ja-JP") == "USD"
  {
    BritishLocale();
    JapaneseLocale();
  }

  /** The same choice, with the four non-EU tests made on the region subtag. */
  function CurrencyForRegion(locale: string): (c: string)
    ensures CountryCode(locale) in EuCurrencies ==> c == EuCurrencies[CountryCode(locale)]
  {
    var cc := CountryCode(locale);
    if cc in EuCurrencies then EuCurrencies[cc]
    else if cc == "JP" then "JPY"
    else if cc == "CN" then "CNY"
    else if cc == "US" then "USD"
    else if cc == "GB" then "GBP"
    else DefaultCurrency
  }

  /** Corrected, a locale's currency depends only on its region subtag, and `xx-GB` gives GBP for every language. */
  lemma RegionDecidesCurrency(a: string, b: string, lang: string)
    requires CountryCode(a) == CountryCode(b)
    requires NoDash(lang)
    ensures CurrencyForRegion(a) == CurrencyForRegion(b)
    ensures CurrencyForRegion(lang + "-GB") == "GBP"
    ensures CurrencyForRegion(lang + "-JP") == "JPY"
  {
    TableEntries();
    assert NoDash("GB") && NoDash("JP");
    assert CurrencyForRegion(lang + "-GB") == "GBP" by {
      assert lang + "-GB" == lang + "-" + "GB";
      CountryCodeOfPair(lang, "GB");
      assert Upper("GB") == "GB";
    }
    assert CurrencyForRegion(lang + "-JP") == "JPY" by {
      assert lang + "-JP" == lang + "-" + "JP";
      CountryCodeOfPair(lang, "JP");
      assert Upper("JP") == "JP";
    }
  }
}
