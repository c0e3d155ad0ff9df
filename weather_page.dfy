// The weather page: a record of the current weather refreshed every 30
// minutes, a fixed Beijing record whenever the weather service gives
// nothing, the icon chosen from the English description, and the tables
// that turn the service's Chinese city names and descriptions into English.

module WeatherPage {
  import opened Text
  import opened Clock
  import PageBase

  /** UPDATE_INTERVAL: 30 minutes. */
  const UpdateInterval: nat := 1800000
  /** onViewWillAppear schedules the first refresh 2 s ahead. */
  const AppearDelay: nat := 2000

  const BaseURL: string := "https://api.seniverse.com/v3/weather/now.json"
  const DefaultCity: string := "shenzhen"
  const DefaultLanguage: string := "zh-Hans"
  /** The key the configuration ships with until a real one is entered. */
  const PlaceholderKey: string := "your_seniverse_api_key_here"

  datatype WeatherData = WeatherData(
    city: string, description: string, temperature: int, humidity: int, updateTime: string, isValid: bool)

  /** The record the constructor starts with: only `isValid` is set. */
  const NoWeather: WeatherData := WeatherData("", "", 0, 0, "", false)

  // ---------------------------------------------------------------------
  // Icons

  datatype WeatherIcon = Sunny | Cloudy | Rainy | Snowy | Thunderstorm | Foggy | UnknownIcon

  /** The LVGL symbols the icon label can show. */
  datatype Symbol = PlusSymbol | WifiSymbol | DownSymbol | MinusSymbol | WarningSymbol | EyeCloseSymbol | AudioSymbol

  /** getWeatherIcon: the first group of keywords the lowered description
    * contains, in the order sun/clear, cloud, rain, snow, thunder/storm,
    * fog/mist; UNKNOWN when it contains none. */
  function GetWeatherIcon(description: string): (r: WeatherIcon)
    ensures r == Sunny <==> Contains(Lower(description), "sun") || Contains(Lower(description), "clear")
    ensures r == Cloudy <==> r != Sunny && Contains(Lower(description), "cloud")
    ensures r == Rainy <==> !(r in {Sunny, Cloudy}) && Contains(Lower(description), "rain")
    ensures r == Snowy <==> !(r in {Sunny, Cloudy, Rainy}) && Contains(Lower(description), "snow")
    ensures r == Thunderstorm <==> (!(r in {Sunny, Cloudy, Rainy, Snowy}) &&
      (Contains(Lower(description), "thunder") || Contains(Lower(description), "storm")))
    ensures r == Foggy <==> (!(r in {Sunny, Cloudy, Rainy, Snowy, Thunderstorm}) &&
      (Contains(Lower(description), "fog") || Contains(Lower(description), "mist")))
    ensures r == UnknownIcon <==>
      && !Contains(Lower(description), "sun") && !Contains(Lower(description), "clear")
      && !Contains(Lower(description), "cloud") && !Contains(Lower(description), "rain")
      && !Contains(Lower(description), "snow") && !Contains(Lower(description), "thunder")
      && !Contains(Lower(description), "storm") && !Contains(Lower(description), "fog")
      && !Contains(Lower(description), "mist")
  {
    var desc := Lower(description);
    if Contains(desc, "sun") || Contains(desc, "clear") then Sunny
    else if Contains(desc, "cloud") then Cloudy
    else if Contains(desc, "rain") then Rainy
    else if Contains(desc, "snow") then Snowy
    else if Contains(desc, "thunder") || Contains(desc, "storm") then Thunderstorm
    else if Contains(desc, "fog") || Contains(desc, "mist") then Foggy
    else UnknownIcon
  }

  /** The icon depends on the letters only, not on their case. */
  lemma {:induction false} IconIgnoresCase(description: string)
    ensures GetWeatherIcon(Lower(description)) == GetWeatherIcon(description)
  {
    LowerIdempotent(description);
  }

  /** getWeatherIconSymbol: one symbol per icon, AUDIO for UNKNOWN. */
  function IconSymbol(icon: WeatherIcon): (s: Symbol)
    ensures s == AudioSymbol <==> icon == UnknownIcon
  {
    match icon
    case Sunny => PlusSymbol
    case Cloudy => WifiSymbol
    case Rainy => DownSymbol
    case Snowy => MinusSymbol
    case Thunderstorm => WarningSymbol
    case Foggy => EyeCloseSymbol
    case UnknownIcon => AudioSymbol
  }

  /** Different icons show different symbols. */
  lemma {:induction false} IconSymbolInjective(a: WeatherIcon, b: WeatherIcon)
    requires IconSymbol(a) == IconSymbol(b)
    ensures a == b
  {
    match a
    case Sunny =>
    case Cloudy =>
    case Rainy =>
    case Snowy =>
    case Thunderstorm =>
    case Foggy =>
    case UnknownIcon =>
  }

  // ---------------------------------------------------------------------
  // Translation tables

  /** translateWeatherDescription's table. */
  const WeatherNames: map<string, string> := map[
    "\U{e6}\U{99}\U{b4}" := "Sunny",
    "\U{e6}\U{99}\U{b4}\U{e5}\U{a4}\U{a9}" := "Sunny",
    "\U{e5}\U{a4}\U{9a}\U{e4}\U{ba}\U{91}" := "Cloudy",
    "\U{e9}\U{98}\U{b4}" := "Overcast",
    "\U{e9}\U{98}\U{b4}\U{e5}\U{a4}\U{a9}" := "Overcast",
    "\U{e5}\U{b0}\U{8f}\U{e9}\U{9b}\U{a8}" := "Light Rain",
    "\U{e4}\U{b8}\U{ad}\U{e9}\U{9b}\U{a8}" := "Moderate Rain",
    "\U{e5}\U{a4}\U{a7}\U{e9}\U{9b}\U{a8}" := "Heavy Rain",
    "\U{e9}\U{9b}\U{b7}\U{e9}\U{98}\U{b5}\U{e9}\U{9b}\U{a8}" := "Thunderstorm",
    "\U{e9}\U{9b}\U{aa}" := "Snow",
    "\U{e9}\U{9b}\U{be}" := "Fog",
    "\U{e9}\U{9c}\U{be}" := "Haze",
    "\U{e6}\U{b2}\U{99}\U{e5}\U{b0}\U{98}\U{e6}\U{9a}\U{b4}" := "Sandstorm",
    "\U{e5}\U{8f}\U{b0}\U{e9}\U{a3}\U{8e}" := "Typhoon"
  ]

  /** translateCityName's table. */
  const CityNames: map<string, string> := map[
    "\U{e5}\U{8c}\U{97}\U{e4}\U{ba}\U{ac}" := "Beijing",
    "\U{e4}\U{b8}\U{8a}\U{e6}\U{b5}\U{b7}" := "Shanghai",
    "\U{e6}\U{b7}\U{b1}\U{e5}\U{9c}\U{b3}" := "Shenzhen",
    "\U{e5}\U{b9}\U{bf}\U{e5}\U{b7}\U{9e}" := "Guangzhou",
    "\U{e6}\U{9d}\U{ad}\U{e5}\U{b7}\U{9e}" := "Hangzhou",
    "\U{e5}\U{8d}\U{97}\U{e4}\U{ba}\U{ac}" := "Nanjing",
    "\U{e6}\U{88}\U{90}\U{e9}\U{83}\U{bd}" := "Chengdu",
    "\U{e9}\U{87}\U{8d}\U{e5}\U{ba}\U{86}" := "Chongqing",
    "\U{e6}\U{ad}\U{a6}\U{e6}\U{b1}\U{89}" := "Wuhan",
    "\U{e8}\U{a5}\U{bf}\U{e5}\U{ae}\U{89}" := "Xi'an",
    "\U{e5}\U{a4}\U{a9}\U{e6}\U{b4}\U{a5}" := "Tianjin",
    "\U{e8}\U{8b}\U{8f}\U{e5}\U{b7}\U{9e}" := "Suzhou",
    "\U{e9}\U{9d}\U{92}\U{e5}\U{b2}\U{9b}" := "Qingdao",
    "\U{e5}\U{a4}\U{a7}\U{e8}\U{bf}\U{9e}" := "Dalian",
    "\U{e5}\U{8e}\U{a6}\U{e9}\U{97}\U{a8}" := "Xiamen"
  ]

  /** Every character below 128. */
  predicate Ascii(s: string)
  {
    forall i :: 0 <= i < |s| ==> s[i] < 128 as char
  }

  /** translateWeatherDescription: the twelve listed descriptions (fourteen
    * spellings) become English; anything else is returned unchanged. */
  function TranslateWeather(desc: string): (r: string)
    ensures desc in WeatherNames ==> r == WeatherNames[desc]
    ensures desc !in WeatherNames ==> r == desc
  {
    if desc == "\U{e6}\U{99}\U{b4}" || desc == "\U{e6}\U{99}\U{b4}\U{e5}\U{a4}\U{a9}" then "Sunny"
    else if desc == "\U{e5}\U{a4}\U{9a}\U{e4}\U{ba}\U{91}" then "Cloudy"
    else if desc == "\U{e9}\U{98}\U{b4}" || desc == "\U{e9}\U{98}\U{b4}\U{e5}\U{a4}\U{a9}" then "Overcast"
    else if desc == "\U{e5}\U{b0}\U{8f}\U{e9}\U{9b}\U{a8}" then "Light Rain"
    else if desc == "\U{e4}\U{b8}\U{ad}\U{e9}\U{9b}\U{a8}" then "Moderate Rain"
    else if desc == "\U{e5}\U{a4}\U{a7}\U{e9}\U{9b}\U{a8}" then "Heavy Rain"
    else if desc == "\U{e9}\U{9b}\U{b7}\U{e9}\U{98}\U{b5}\U{e9}\U{9b}\U{a8}" then "Thunderstorm"
    else if desc == "\U{e9}\U{9b}\U{aa}" then "Snow"
    else if desc == "\U{e9}\U{9b}\U{be}" then "Fog"
    else if desc == "\U{e9}\U{9c}\U{be}" then "Haze"
    else if desc == "\U{e6}\U{b2}\U{99}\U{e5}\U{b0}\U{98}\U{e6}\U{9a}\U{b4}" then "Sandstorm"
    else if desc == "\U{e5}\U{8f}\U{b0}\U{e9}\U{a3}\U{8e}" then "Typhoon"
    else desc
  }

  /** translateCityName: the fifteen listed cities become English; any
    * other name is returned unchanged. */
  function TranslateCity(name: string): (r: string)
    ensures name in CityNames ==> r == CityNames[name]
    ensures name !in CityNames ==> r == name
  {
    if name == "\U{e5}\U{8c}\U{97}\U{e4}\U{ba}\U{ac}" then "Beijing"
    else if name == "\U{e4}\U{b8}\U{8a}\U{e6}\U{b5}\U{b7}" then "Shanghai"
    else if name == "\U{e6}\U{b7}\U{b1}\U{e5}\U{9c}\U{b3}" then "Shenzhen"
    else if name == "\U{e5}\U{b9}\U{bf}\U{e5}\U{b7}\U{9e}" then "Guangzhou"
    else if name == "\U{e6}\U{9d}\U{ad}\U{e5}\U{b7}\U{9e}" then "Hangzhou"
    else if name == "\U{e5}\U{8d}\U{97}\U{e4}\U{ba}\U{ac}" then "Nanjing"
    else if name == "\U{e6}\U{88}\U{90}\U{e9}\U{83}\U{bd}" then "Chengdu"
    else if name == "\U{e9}\U{87}\U{8d}\U{e5}\U{ba}\U{86}" then "Chongqing"
    else if name == "\U{e6}\U{ad}\U{a6}\U{e6}\U{b1}\U{89}" then "Wuhan"
    else if name == "\U{e8}\U{a5}\U{bf}\U{e5}\U{ae}\U{89}" then "Xi'an"
    else if name == "\U{e5}\U{a4}\U{a9}\U{e6}\U{b4}\U{a5}" then "Tianjin"
    else if name == "\U{e8}\U{8b}\U{8f}\U{e5}\U{b7}\U{9e}" then "Suzhou"
    else if name == "\U{e9}\U{9d}\U{92}\U{e5}\U{b2}\U{9b}" then "Qingdao"
    else if name == "\U{e5}\U{a4}\U{a7}\U{e8}\U{bf}\U{9e}" then "Dalian"
    else if name == "\U{e5}\U{8e}\U{a6}\U{e9}\U{97}\U{a8}" then "Xiamen"
    else name
  }

  /** A text the service writes in Chinese: it starts with the UTF-8 lead
    * byte of a CJK ideograph (U+4E00 and above). */
  predicate Chinese(s: string)
  {
    |s| > 0 && s[0] >= '\U{e4}'
  }

  /** The description table is keyed by Chinese descriptions. */
  lemma {:induction false} WeatherKeysChinese()
    ensures forall k :: k in WeatherNames ==> Chinese(k)
  {
  }

  /** The description table's English names are non-empty ASCII. */
  lemma {:induction false} WeatherNamesAscii()
    ensures forall k :: k in WeatherNames ==> Ascii(WeatherNames[k]) && |WeatherNames[k]| > 0
  {
  }

  /** The city table is keyed by Chinese names. */
  lemma {:induction false} CityKeysChinese()
    ensures forall k :: k in CityNames ==> Chinese(k)
  {
  }

  /** The city table's English names are non-empty ASCII. */
  lemma {:induction false} CityNamesAscii()
    ensures forall k :: k in CityNames ==> Ascii(CityNames[k]) && |CityNames[k]| > 0
  {
  }

  /** No ASCII text is a key of either table. */
  lemma {:induction false} AsciiNotKey(s: string)
    requires |s| > 0 && Ascii(s)
    ensures s !in WeatherNames && s !in CityNames
  {
    WeatherKeysChinese();
    CityKeysChinese();
    assert !Chinese(s);
  }

  /** A translated description is ASCII and no translation is itself a
    * key, so translating twice is translating once. */
  lemma {:induction false} TranslateWeatherIdempotent(desc: string)
    ensures desc in WeatherNames ==> Ascii(TranslateWeather(desc))
    ensures TranslateWeather(TranslateWeather(desc)) == TranslateWeather(desc)
  {
    if desc in WeatherNames {
      WeatherNamesAscii();
      AsciiNotKey(WeatherNames[desc]);
    }
  }

  /** The same for city names. */
  lemma {:induction false} TranslateCityIdempotent(name: string)
    ensures name in CityNames ==> Ascii(TranslateCity(name))
    ensures TranslateCity(TranslateCity(name)) == TranslateCity(name)
  {
    if name in CityNames {
      CityNamesAscii();
      AsciiNotKey(CityNames[name]);
    }
  }

  // ---------------------------------------------------------------------
  // Which icon each English description shows

  lemma {:induction false} SunnyIcon()
    ensures GetWeatherIcon("Sunny") == Sunny
  {
    LoweredAt("Sunny", "sun", 0);
  }

  lemma {:induction false} CloudyIcon()
    ensures GetWeatherIcon("Cloudy") == Cloudy
  {
    var l := Lower("Cloudy");
    assert l == "cloudy";
    NotContainsMissing(l, "sun", 0);
    NotContainsMissing(l, "clear", 2);
    assert l[0..5] == "cloud";
    ContainsAt(l, "cloud", 0);
  }

  /** The description of the fixed Beijing record. */
  lemma {:induction false} PartlyCloudyIcon()
    ensures GetWeatherIcon("Partly Cloudy") == Cloudy
  {
    var l := Lower("Partly Cloudy");
    assert l == "partly cloudy";
    NotContainsMissing(l, "sun", 0);
    NotContainsMissing(l, "clear", 2);
    assert l[7..12] == "cloud";
    ContainsAt(l, "cloud", 7);
  }

  /** A description without 's', 'c' or 'C' that contains "rain" shows rain. */
  lemma {:induction false} RainIcon(d: string, i: nat)
    requires 's' !in d && 'S' !in d && 'c' !in d && 'C' !in d
    requires i + 4 <= |d| && forall k :: 0 <= k < 4 ==> LowerChar(d[i + k]) == "rain"[k]
    ensures GetWeatherIcon(d) == Rainy
  {
    LacksLetter(d, "sun", 0);
    LacksLetter(d, "clear", 0);
    LacksLetter(d, "cloud", 0);
    LoweredAt(d, "rain", i);
  }

  lemma {:induction false} LightRainIcon()
    ensures GetWeatherIcon("Light Rain") == Rainy
  {
    RainIcon("Light Rain", 6);
  }

  lemma {:induction false} ModerateRainIcon()
    ensures GetWeatherIcon("Moderate Rain") == Rainy
  {
    RainIcon("Moderate Rain", 9);
  }

  lemma {:induction false} SnowIcon()
    ensures GetWeatherIcon("Snow") == Snowy
  {
    var l := Lower("Snow");
    assert l == "snow";
    NotContainsMissing(l, "sun", 1);
    NotContainsMissing(l, "clear", 0);
    NotContainsMissing(l, "cloud", 0);
    NotContainsMissing(l, "rain", 0);
    assert l[0..4] == "snow";
    ContainsAt(l, "snow", 0);
  }

  /** "Thunderstorm" holds every letter of "sun", but its only 'u' follows
    * an 'h'. */
  lemma {:induction false} ThunderstormIcon()
    ensures GetWeatherIcon("Thunderstorm") == Thunderstorm
  {
    var l := Lower("Thunderstorm");
    assert l == "thunderstorm";
    forall i | 0 <= i <= |l| - 3
      ensures !OccursAt(l, "sun", i)
    {
      assert l[i..i + 3][1] == l[i + 1];
      if i == 1 {
        assert l[i..i + 3][0] == l[1] == 'h';
      }
    }
    NotContainsMissing(l, "clear", 0);
    NotContainsMissing(l, "cloud", 0);
    NotContainsMissing(l, "rain", 1);
    NotContainsMissing(l, "snow", 3);
    assert l[0..7] == "thunder";
    ContainsAt(l, "thunder", 0);
  }

  lemma {:induction false} SandstormIcon()
    ensures GetWeatherIcon("Sandstorm") == Thunderstorm
  {
    var l := Lower("Sandstorm");
    assert l == "sandstorm";
    NotContainsMissing(l, "sun", 1);
    NotContainsMissing(l, "clear", 0);
    NotContainsMissing(l, "cloud", 0);
    NotContainsMissing(l, "rain", 2);
    NotContainsMissing(l, "snow", 3);
    NotContainsMissing(l, "thunder", 1);
    assert l[4..9] == "storm";
    ContainsAt(l, "storm", 4);
  }

  lemma {:induction false} FogIcon()
    ensures GetWeatherIcon("Fog") == Foggy
  {
    var l := Lower("Fog");
    assert l == "fog";
    NotContainsMissing(l, "sun", 0);
    NotContainsMissing(l, "clear", 0);
    NotContainsMissing(l, "cloud", 0);
    NotContainsMissing(l, "rain", 0);
    NotContainsMissing(l, "snow", 0);
    NotContainsMissing(l, "thunder", 0);
    NotContainsMissing(l, "storm", 0);
    assert l[0..3] == "fog";
    ContainsAt(l, "fog", 0);
  }

  /** A description with none of the keywords shows UNKNOWN. */
  lemma {:induction false} NoKeywordIcon(d: string)
    requires !Contains(Lower(d), "sun") && !Contains(Lower(d), "clear") && !Contains(Lower(d), "cloud")
    requires !Contains(Lower(d), "rain") && !Contains(Lower(d), "snow") && !Contains(Lower(d), "thunder")
    requires !Contains(Lower(d), "storm") && !Contains(Lower(d), "fog") && !Contains(Lower(d), "mist")
    ensures GetWeatherIcon(d) == UnknownIcon
  {
  }

  lemma {:induction false} OvercastIcon()
    ensures GetWeatherIcon("Overcast") == UnknownIcon
  {
    var l := Lower("Overcast");
    assert l == "overcast";
    NotContainsMissing(l, "sun", 1);
    NotContainsMissing(l, "clear", 1);
    NotContainsMissing(l, "cloud", 1);
    NotContainsMissing(l, "rain", 2);
    NotContainsMissing(l, "snow", 3);
    NotContainsMissing(l, "thunder", 1);
    NotContainsMissing(l, "storm", 4);
    NotContainsMissing(l, "fog", 0);
    NotContainsMissing(l, "mist", 0);
    NoKeywordIcon("Overcast");
  }

  lemma {:induction false} HazeIcon()
    ensures GetWeatherIcon("Haze") == UnknownIcon
  {
    var l := Lower("Haze");
    assert l == "haze";
    NotContainsMissing(l, "sun", 0);
    NotContainsMissing(l, "clear", 0);
    NotContainsMissing(l, "cloud", 0);
    NotContainsMissing(l, "rain", 0);
    NotContainsMissing(l, "snow", 0);
    NotContainsMissing(l, "thunder", 0);
    NotContainsMissing(l, "storm", 0);
    NotContainsMissing(l, "fog", 0);
    NotContainsMissing(l, "mist", 0);
    NoKeywordIcon("Haze");
  }

  lemma {:induction false} TyphoonIcon()
    ensures GetWeatherIcon("Typhoon") == UnknownIcon
  {
    var l := Lower("Typhoon");
    assert l == "typhoon";
    NotContainsMissing(l, "sun", 0);
    NotContainsMissing(l, "clear", 0);
    NotContainsMissing(l, "cloud", 0);
    NotContainsMissing(l, "rain", 0);
    NotContainsMissing(l, "snow", 0);
    NotContainsMissing(l, "thunder", 2);
    NotContainsMissing(l, "storm", 0);
    NotContainsMissing(l, "fog", 0);
    NotContainsMissing(l, "mist", 0);
    NoKeywordIcon("Typhoon");
  }

  // ---------------------------------------------------------------------
  // Time and the request URL

  /** formatTime is Text.HourMinute: hours of the day, ':', minutes padded
    * to two digits. */

  /** The query of the request: each field is `name=value`; the fields are
    * separated by '&'. */
  function RequestURL(base: string, key: string, city: string, language: string): (url: string)
    ensures url == base + "?" + JoinFields(["key=" + key, "location=" + city, "language=" + language, "unit=c"])
  {
    JoinFour("key=" + key, "location=" + city, "language=" + language, "unit=c");
    base + "?" + ("key=" + key) + "&" + ("location=" + city) + "&" + ("language=" + language) + "&" + "unit=c"
  }

  /** Four fields joined by '&', written out. */
  lemma {:induction false} JoinFour(a: string, b: string, c: string, d: string)
    ensures JoinFields([a, b, c, d]) == a + "&" + b + "&" + c + "&" + d
  {
    var f := [a, b, c, d];
    assert f[1..] == [b, c, d] && f[1..][1..] == [c, d] && f[1..][1..][1..] == [d];
    assert JoinFields([c, d]) == c + "&" + d;
    assert JoinFields([b, c, d]) == b + "&" + (c + "&" + d);
  }

  /** The pieces of `s` between the separators '&'. */
  function SplitFields(s: string): (parts: seq<string>)
    ensures |parts| >= 1
  {
    if s == [] then [[]]
    else
      var rest := SplitFields(s[1..]);
      if s[0] == '&' then [[]] + rest else [[s[0]] + rest[0]] + rest[1..]
  }

  /** A text without a separator is one field. */
  lemma {:induction false} SplitOneField(a: string)
    requires '&' !in a
    ensures SplitFields(a) == [a]
  {
    if a != [] {
      assert a[1..] + [] == a[1..];
      assert a[0] in a;
      SplitOneField(a[1..]);
      assert [a[0]] + a[1..] == a;
    }
  }

  /** A field without a separator, then '&', then the rest. */
  lemma {:induction false} SplitFirstField(a: string, b: string)
    requires '&' !in a
    ensures SplitFields(a + "&" + b) == [a] + SplitFields(b)
  {
    if a == [] {
      assert a + "&" + b == "&" + b;
      assert ("&" + b)[1..] == b;
    } else {
      assert a[0] in a;
      assert (a + "&" + b)[1..] == a[1..] + "&" + b;
      SplitFirstField(a[1..], b);
      assert [a[0]] + a[1..] == a;
    }
  }

  /** The fields joined by '&'. */
  function JoinFields(fields: seq<string>): (s: string)
    requires |fields| >= 1
    ensures |s| >= |fields| - 1
  {
    if |fields| == 1 then fields[0] else fields[0] + "&" + JoinFields(fields[1..])
  }

  /** Splitting undoes joining when no field holds a separator. */
  lemma {:induction false} SplitJoin(fields: seq<string>)
    requires |fields| >= 1
    requires forall i :: 0 <= i < |fields| ==> '&' !in fields[i]
    ensures SplitFields(JoinFields(fields)) == fields
  {
    if |fields| == 1 {
      SplitOneField(fields[0]);
    } else {
      SplitFirstField(fields[0], JoinFields(fields[1..]));
      SplitJoin(fields[1..]);
    }
  }

  /** The query splits back into its four fields as long as no configured
    * value holds a separator. */
  lemma {:induction false} RequestURLFields(base: string, key: string, city: string, language: string)
    requires '&' !in key && '&' !in city && '&' !in language
    ensures var url := RequestURL(base, key, city, language);
      && url[..|base| + 1] == base + "?"
      && SplitFields(url[|base| + 1..]) == ["key=" + key, "location=" + city, "language=" + language, "unit=c"]
  {
    var fields := ["key=" + key, "location=" + city, "language=" + language, "unit=c"];
    NoSeparatorPrefixed("key=", key);
    NoSeparatorPrefixed("location=", city);
    NoSeparatorPrefixed("language=", language);
    assert '&' !in fields[3];
    SplitJoin(fields);
    var url := RequestURL(base, key, city, language);
    assert url[|base| + 1..] == JoinFields(fields);
  }

  lemma {:induction false} NoSeparatorPrefixed(name: string, value: string)
    requires '&' !in name && '&' !in value
    ensures '&' !in name + value
  {
    forall i | 0 <= i < |name + value|
      ensures (name + value)[i] != '&'
    {
      if i < |name| {
        assert name[i] in name;
      } else {
        assert value[i - |name|] in value;
      }
    }
  }

  // ---------------------------------------------------------------------
  // The page

  /** What parseWeatherJSON extracts from a well-formed reply: the city
    * name, the description, the temperature and, when present, the
    * humidity. */
  datatype ServiceReading = ServiceReading(name: string, text: string, temperature: int, humidity: Option<int>)

  /** The humidity parseWeatherJSON assumes when the reply has none. */
  const DefaultHumidity: int := 60

  /** A key is configured unless it is empty or still the placeholder. */
  predicate KeyConfigured(key: string)
  {
    key != PlaceholderKey && |key| > 0
  }

  /** The record of a successful reply at time `now`: translated city and
    * description, the reply's numbers, humidity 60 when absent. */
  function FromReading(r: ServiceReading, now: Millis): (w: WeatherData)
    ensures w.isValid && w.temperature == r.temperature
    ensures w.city == TranslateCity(r.name) && w.description == TranslateWeather(r.text)
    ensures w.humidity == (if r.humidity.Some? then r.humidity.value else DefaultHumidity)
    ensures w.updateTime == HourMinute(now)
  {
    var h := if r.humidity.Some? then r.humidity.value else DefaultHumidity;
    WeatherData(TranslateCity(r.name), TranslateWeather(r.text), r.temperature, h, HourMinute(now), true)
  }

  /** The fixed record shown whenever the service gives nothing. */
  function Fallback(now: Millis): (w: WeatherData)
    ensures w.isValid && w.city == "Beijing" && w.description == "Partly Cloudy"
    ensures w.temperature == 22 && w.humidity == 65
    ensures w.updateTime == HourMinute(now)
  {
    WeatherData("Beijing", "Partly Cloudy", 22, 65, HourMinute(now), true)
  }

  /** The record after a refresh: the service's reading when a key is
    * configured and the service answered, otherwise the fallback. */
  function Refreshed(key: string, reply: Option<ServiceReading>, now: Millis): (w: WeatherData)
    ensures w.isValid
    ensures KeyConfigured(key) && reply.Some? ==> w == FromReading(reply.value, now)
    ensures !KeyConfigured(key) || reply.None? ==> w == Fallback(now)
  {
    if KeyConfigured(key) && reply.Some? then FromReading(reply.value, now) else Fallback(now)
  }

  /** What the five labels show; `None` is the placeholder "--". */
  datatype Display = Display(
    icon: Symbol, temperature: Option<int>, description: string, city: string, humidity: Option<int>)

  /** displayDefaultWeatherInfo. */
  const DefaultDisplay: Display := Display(WifiSymbol, None, "Loading...", "Fetching location...", None)

  /** displayWeatherInfo for a valid record. */
  function DisplayOf(w: WeatherData): (d: Display)
    ensures d.icon == IconSymbol(GetWeatherIcon(w.description))
    ensures d.description == w.description && d.city == w.city
    ensures d.temperature == Some(w.temperature) && d.humidity == Some(w.humidity)
  {
    Display(IconSymbol(GetWeatherIcon(w.description)), Some(w.temperature), w.description, w.city, Some(w.humidity))
  }

  /** The fallback record shows the cloudy icon, the same symbol as the
    * loading placeholder. */
  lemma {:induction false} FallbackDisplay(now: Millis)
    ensures DisplayOf(Fallback(now)).icon == WifiSymbol == DefaultDisplay.icon
    ensures DisplayOf(Fallback(now)) != DefaultDisplay
  {
    PartlyCloudyIcon();
  }

  /** update's condition: not already updating, and no valid record or
    * more than 30 minutes (unsigned) since the last refresh. */
  predicate RefreshDue(isUpdating: bool, valid: bool, now: Millis, last: Millis)
  {
    !isUpdating && (!valid || Elapsed(now, last) > UpdateInterval)
  }

  /** onViewWillAppear sets the last refresh to `now - 30 min + 2 s`
    * (unsigned), so a valid record is refreshed once more than 2 s have
    * passed; after 2^32 - 1798000 ms the subtraction wraps back. */
  lemma {:induction false} AppearSchedule(now: Millis, t: Millis)
    ensures Elapsed(t, After(Before(now, UpdateInterval), AppearDelay)) > UpdateInterval <==>
      2000 < Elapsed(t, now) < Wrap - 1798000
  {
    var e := Elapsed(t, now);
    var last := After(Before(now, UpdateInterval), AppearDelay);
    assert last == (now - 1798000) % Wrap;
    var x := if e < Wrap - 1798000 then e + 1798000 else e + 1798000 - Wrap;
    assert 0 <= x < Wrap;
    assert (last + x) % Wrap == t by {
      assert (now + e) % Wrap == t;
    }
    ElapsedUnique(t, last, x);
  }

  /** The elapsed time is the one value below 2^32 that leads from `since`
    * to `now`. */
  lemma {:induction false} ElapsedUnique(now: Millis, since: Millis, x: int)
    requires 0 <= x < Wrap && (since + x) % Wrap == now
    ensures Elapsed(now, since) == x
  {
    var k := (since + x) / Wrap;
    assert since + x == k * Wrap + now;
    ModUnique(since, x, now, k);
  }

  class Weather {
    var currentWeather: WeatherData
    var lastUpdateTime: Millis
    var isUpdating: bool
    var weatherAPIKey: string
    var weatherCity: string
    var weatherLanguage: string
    var weatherAPIURL: string
    /** Whether createWeatherUI has run (titleLabel is set). */
    var uiCreated: bool
    /** What the labels show. */
    var display: Display

    /** The configuration loadWeatherConfig reads, and a valid record is on
      * the labels. */
    ghost predicate Valid()
      reads this
    {
      && weatherAPIURL == BaseURL && weatherCity == DefaultCity && weatherLanguage == DefaultLanguage
      && (currentWeather.isValid ==> uiCreated && display == DisplayOf(currentWeather))
    }

    /** The constructor: no valid record, nothing refreshed, the configured
      * key `key`. */
    constructor (key: string)
      ensures Valid() && !uiCreated && !isUpdating
      ensures !currentWeather.isValid && lastUpdateTime == 0 && weatherAPIKey == key
    {
      currentWeather := NoWeather;
      lastUpdateTime := 0;
      isUpdating := false;
      weatherAPIKey := key;
      weatherCity := DefaultCity;
      weatherLanguage := DefaultLanguage;
      weatherAPIURL := BaseURL;
      uiCreated := false;
      display := DefaultDisplay;
    }

    /** The URL fetchWeatherFromAPI requests. */
    function URL(): (url: string)
      reads this
      requires Valid()
      ensures |url| > |BaseURL| && url[..|BaseURL|] == BaseURL
    {
      RequestURL(weatherAPIURL, weatherAPIKey, weatherCity, weatherLanguage)
    }

    /** onViewWillAppear: the labels are created once, with placeholders;
      * every time the next refresh is scheduled 2 s ahead. */
    method OnViewWillAppear(now: Millis)
      requires Valid()
      modifies this
      ensures Valid() && uiCreated
      ensures !old(uiCreated) ==> display == DefaultDisplay
      ensures old(uiCreated) ==> display == old(display)
      ensures lastUpdateTime == After(Before(now, UpdateInterval), AppearDelay)
      ensures currentWeather == old(currentWeather) && isUpdating == old(isUpdating)
      ensures weatherAPIKey == old(weatherAPIKey)
    {
      if !uiCreated {
        uiCreated := true;
        display := DefaultDisplay;
      }
      lastUpdateTime := After(Before(now, UpdateInterval), AppearDelay);
    }

    /** The assignments parseWeatherJSON makes from a well-formed reply;
      * `reply` is None when the request or the parse failed. */
    method ParseWeather(reply: Option<ServiceReading>, now: Millis) returns (success: bool)
      modifies this
      ensures success <==> reply.Some?
      ensures success ==> currentWeather == FromReading(reply.value, now)
      ensures !success ==> currentWeather == old(currentWeather)
      ensures lastUpdateTime == old(lastUpdateTime) && isUpdating == old(isUpdating)
      ensures uiCreated == old(uiCreated) && display == old(display) && weatherAPIKey == old(weatherAPIKey)
      ensures weatherAPIURL == old(weatherAPIURL) && weatherCity == old(weatherCity)
      ensures weatherLanguage == old(weatherLanguage)
    {
      if reply.None? {
        return false;
      }
      // Every field of the record is assigned.
      currentWeather := FromReading(reply.value, now);
      return true;
    }

    /** updateWeatherData: nothing while an update runs; otherwise the
      * service is asked when a key is configured, the fallback record
      * replaces a missing answer, and the labels show the new record. */
    method UpdateWeatherData(now: Millis, reply: Option<ServiceReading>)
      requires Valid() && uiCreated
      modifies this
      ensures Valid() && uiCreated
      ensures old(isUpdating) ==>
        currentWeather == old(currentWeather) && lastUpdateTime == old(lastUpdateTime) && isUpdating
      ensures !old(isUpdating) ==>
        && !isUpdating && lastUpdateTime == now
        && currentWeather == Refreshed(weatherAPIKey, reply, now)
        && display == DisplayOf(currentWeather)
      ensures weatherAPIKey == old(weatherAPIKey)
    {
      if isUpdating {
        return;
      }
      ghost var refreshed := Refreshed(weatherAPIKey, reply, now);
      isUpdating := true;
      var success := false;
      if KeyConfigured(weatherAPIKey) {
        success := ParseWeather(reply, now);
      }
      if !success {
        currentWeather := Fallback(now);
      }
      assert currentWeather == refreshed;
      lastUpdateTime := now;
      isUpdating := false;
      display := DisplayOf(currentWeather);
    }

    /** update: a refresh exactly when one is due. */
    method Update(now: Millis, reply: Option<ServiceReading>)
      requires Valid() && uiCreated
      modifies this
      ensures Valid() && uiCreated
      ensures RefreshDue(old(isUpdating), old(currentWeather.isValid), now, old(lastUpdateTime)) ==>
        && !isUpdating && lastUpdateTime == now
        && currentWeather == Refreshed(weatherAPIKey, reply, now)
      ensures !RefreshDue(old(isUpdating), old(currentWeather.isValid), now, old(lastUpdateTime)) ==>
        currentWeather == old(currentWeather) && lastUpdateTime == old(lastUpdateTime) && display == old(display)
      ensures isUpdating == old(isUpdating) && weatherAPIKey == old(weatherAPIKey)
    {
      if !isUpdating && (!currentWeather.isValid || Elapsed(now, lastUpdateTime) > UpdateInterval) {
        UpdateWeatherData(now, reply);
      }
    }

    /** onButton: a press refreshes the weather (refreshWeather, which is
      * updateWeatherData and so does nothing while an update runs). */
    method OnButton(pressed: bool, now: Millis, reply: Option<ServiceReading>)
      requires Valid() && uiCreated
      modifies this
      ensures Valid() && uiCreated && isUpdating == old(isUpdating)
      ensures pressed && !old(isUpdating) ==>
        lastUpdateTime == now && currentWeather == Refreshed(weatherAPIKey, reply, now)
      ensures !pressed || old(isUpdating) ==>
        currentWeather == old(currentWeather) && lastUpdateTime == old(lastUpdateTime)
      ensures weatherAPIKey == old(weatherAPIKey)
    {
      if !pressed {
        return;
      }
      UpdateWeatherData(now, reply);
    }

    /** onKey: TOP and a bare press refresh; LEFT, RIGHT and BOTTOM only
      * log. */
    method OnKey(dir: PageBase.Dir, now: Millis, reply: Option<ServiceReading>)
      requires Valid() && uiCreated
      modifies this
      ensures Valid() && uiCreated && isUpdating == old(isUpdating)
      ensures (dir.Top? || dir.DirNone?) && !old(isUpdating) ==>
        lastUpdateTime == now && currentWeather == Refreshed(weatherAPIKey, reply, now)
      ensures !(dir.Top? || dir.DirNone?) || old(isUpdating) ==>
        currentWeather == old(currentWeather) && lastUpdateTime == old(lastUpdateTime)
      ensures weatherAPIKey == old(weatherAPIKey)
    {
      match dir
      case Top =>
        UpdateWeatherData(now, reply);
      case DirNone =>
        UpdateWeatherData(now, reply);
      case Left =>
      case Right =>
      case Bottom =>
    }
  }
}
