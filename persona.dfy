/**
 * `generateGhostPersonality(url, timestamp)`: the era and tone follow from the year read from the first
 * four characters of the timestamp, the domain from the address, and the greeting from a template.
 * Parsing the address as a full URL (`new URL(url).hostname`) is a parameter, `parseHost`, that yields
 * `None` where the URL constructor throws.
 */
module Persona {
  import opened Common
  import opened Strings
  import JsNumber

  datatype Era = Nineties | Noughties | Tens {
    function Name(): string
    {
      match this
      case Nineties => "1990s"
      case Noughties => "2000s"
      case Tens => "2010s"
    }
  }

  datatype Tone = Pioneering | Nostalgic | Modern

  datatype Personality = Personality(era: Era, tone: Tone, domain: string, greeting: string)

  /** `parseInt(timestamp.substring(0, 4))`; `None` is `NaN`. */
  function ParseYear(timestamp: string): Option<int>
  {
    JsNumber.ParseInt(timestamp[..Min(4, |timestamp|)])
  }

  /** `${year}`. */
  function YearText(year: Option<int>): string
  {
    match year
    case Some(y) => IntToString(y)
    case None => "NaN"
  }

  /**
   * Both comparisons `year < 2000` and `year >= 2010` are false for `NaN`, so the defaults
   * 2000s/nostalgic stay.
   */
  function Classify(year: Option<int>): (c: (Era, Tone))
    ensures c.0 == Nineties <==> year.Some? && year.value < 2000
    ensures c.0 == Tens <==> year.Some? && year.value >= 2010
    ensures c.0 == Noughties <==> year.None? || 2000 <= year.value < 2010
    ensures c.1 == Pioneering <==> c.0 == Nineties
    ensures c.1 == Nostalgic <==> c.0 == Noughties
    ensures c.1 == Modern <==> c.0 == Tens
  {
    if year.Some? && year.value < 2000 then (Nineties, Pioneering)
    else if year.Some? && year.value >= 2010 then (Tens, Modern)
    else (Noughties, Nostalgic)
  }

  /** The host when the address has a scheme delimiter and parses; else the part before the first '/'. */
  function Domain(url: string, parseHost: string -> Option<string>): (d: string)
    ensures !Contains(url, "://") ==> d <= url && '/' !in d && (d == url || url[|d|] == '/')
    ensures Contains(url, "://") && parseHost(url).Some? ==> d == parseHost(url).value
    ensures Contains(url, "://") && parseHost(url).None? ==> d == BeforeFirstSlash(url)
  {
    if Contains(url, "://") then
      match parseHost(url)
      case Some(host) => host
      case None => BeforeFirstSlash(url)
    else
      BeforeFirstSlash(url)
  }

  function Greeting(era: Era, domain: string, year: Option<int>): string
  {
    "Greetings from the " + era.Name() + "... I am the echo of " + domain
      + ", preserved in digital amber since " + YearText(year) + "."
  }

  function Generate(url: string, timestamp: string, parseHost: string -> Option<string>): Personality
  {
    var year := ParseYear(timestamp);
    var (era, tone) := Classify(year);
    var domain := Domain(url, parseHost);
    Personality(era, tone, domain, Greeting(era, domain, year))
  }

  /** The decimal year that four leading digits of a timestamp spell. */
  function LeadingYear(timestamp: string): nat
    requires |timestamp| >= 4
  {
    1000 * JsNumber.DigitValue(timestamp[0]) + 100 * JsNumber.DigitValue(timestamp[1])
      + 10 * JsNumber.DigitValue(timestamp[2]) + JsNumber.DigitValue(timestamp[3])
  }

  predicate StartsWithFourDigits(timestamp: string)
  {
    |timestamp| >= 4 && forall i :: 0 <= i < 4 ==> JsNumber.IsDecimalDigit(timestamp[i])
  }

  /**
   * For a CDX timestamp (it starts with four digits) the persona is themed by that year: before 2000
   * pioneering 1990s, from 2010 modern 2010s, nostalgic 2000s in between; the greeting names the era,
   * the domain and the year.
   */
  lemma PersonaOfDatedCapture(url: string, timestamp: string, parseHost: string -> Option<string>)
    requires StartsWithFourDigits(timestamp)
    ensures var p, y := Generate(url, timestamp, parseHost), LeadingYear(timestamp);
      && (p.era == Nineties && p.tone == Pioneering <==> y < 2000)
      && (p.era == Noughties && p.tone == Nostalgic <==> 2000 <= y < 2010)
      && (p.era == Tens && p.tone == Modern <==> y >= 2010)
      && p.domain == Domain(url, parseHost)
      && p.greeting == "Greetings from the " + p.era.Name() + "... I am the echo of " + p.domain
         + ", preserved in digital amber since " + NatToString(y) + "."
  {
    var four := timestamp[..4];
    JsNumber.FourDigits(four);
    assert ParseYear(timestamp) == Some(LeadingYear(timestamp) as int);
  }

  /**
   * A timestamp whose first character is a letter gives `NaN` for the year: the persona keeps the
   * 2000s/nostalgic defaults and the greeting ends "since NaN.".
   */
  lemma PersonaOfUndatedCapture(url: string, timestamp: string, parseHost: string -> Option<string>)
    requires timestamp != [] && ('a' <= timestamp[0] <= 'z' || 'A' <= timestamp[0] <= 'Z')
    ensures var p := Generate(url, timestamp, parseHost);
      && p.era == Noughties && p.tone == Nostalgic
      && p.greeting == "Greetings from the " + p.era.Name() + "... I am the echo of " + p.domain
         + ", preserved in digital amber since " + "NaN" + "."
  {
    LetterGivesNaN(timestamp[..Min(4, |timestamp|)]);
  }

  lemma LetterGivesNaN(s: string)
    requires s != [] && ('a' <= s[0] <= 'z' || 'A' <= s[0] <= 'Z')
    ensures JsNumber.ParseInt(s) == None
  {
    assert !JsNumber.IsStrWhiteSpace(s[0]);
    assert JsNumber.TrimStart(s) == s;
    assert !JsNumber.IsHexPrefixed(s);
    assert JsNumber.DigitPrefix(s, 10) == [];
  }
}
