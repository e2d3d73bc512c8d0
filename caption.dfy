/**
 * The "tiny funny" mood caption of the weather card: a greeting, a phrase for
 * the weather condition, a feels-like temperature phrase, a humidity phrase
 * and a joke, chosen from fixed string pools.
 */
module Caption {
  import opened Text

  /** The coarse weather classes the caption distinguishes. */
  datatype Sky = Rain | Storm | Snow | Cloud | Clear | Fog | Other

  /** The condition mentions at least one of `words` (a substring test on the lowered text). */
  predicate MentionsAny(c: string, words: seq<string>)
  {
    exists k :: 0 <= k < |words| && Includes(c, words[k])
  }

  /** Classification used for the condition phrase, on the lowered condition `c`:
      rain, then storm/thunder, then snow, then cloud, then clear/sun, then fog/mist. */
  function PhraseSky(c: string): (sky: Sky)
    ensures sky == Rain <==> Includes(c, "rain")
    ensures sky == Other <==>
      (!Includes(c, "rain") && !Includes(c, "storm") && !Includes(c, "thunder") &&
       !Includes(c, "snow") && !Includes(c, "cloud") && !Includes(c, "clear") && !Includes(c, "sun") &&
       !Includes(c, "fog") && !Includes(c, "mist"))
  {
    if Includes(c, "rain") then Rain
    else if Includes(c, "storm") || Includes(c, "thunder") then Storm
    else if Includes(c, "snow") then Snow
    else if Includes(c, "cloud") then Cloud
    else if Includes(c, "clear") || Includes(c, "sun") then Clear
    else if Includes(c, "fog") || Includes(c, "mist") then Fog
    else Other
  }

  /** Classification used for the joke pool, on the lowered condition `c`:
      rain, then cloud, then clear/sun, then storm/thunder, then fog/mist, then snow. */
  function JokeSky(c: string): (sky: Sky)
    ensures sky == Rain <==> Includes(c, "rain")
    ensures sky == Cloud <==> !Includes(c, "rain") && Includes(c, "cloud")
    ensures sky == Other <==>
      (!Includes(c, "rain") && !Includes(c, "storm") && !Includes(c, "thunder") &&
       !Includes(c, "snow") && !Includes(c, "cloud") && !Includes(c, "clear") && !Includes(c, "sun") &&
       !Includes(c, "fog") && !Includes(c, "mist"))
  {
    if Includes(c, "rain") then Rain
    else if Includes(c, "cloud") then Cloud
    else if Includes(c, "clear") || Includes(c, "sun") then Clear
    else if Includes(c, "storm") || Includes(c, "thunder") then Storm
    else if Includes(c, "fog") || Includes(c, "mist") then Fog
    else if Includes(c, "snow") then Snow
    else Other
  }

  // ---- An independent reading of both chains: ordered rule tables, first match wins ----

  /** A rule: the words that trigger it and the class it yields. */
  type Rule = (seq<string>, Sky)

  const RainRule: Rule := (["rain"], Rain)
  const StormRule: Rule := (["storm", "thunder"], Storm)
  const SnowRule: Rule := (["snow"], Snow)
  const CloudRule: Rule := (["cloud"], Cloud)
  const ClearRule: Rule := (["clear", "sun"], Clear)
  const FogRule: Rule := (["fog", "mist"], Fog)

  const PhraseRules: seq<Rule> := [RainRule, StormRule, SnowRule, CloudRule, ClearRule, FogRule]
  const JokeRules: seq<Rule> := [RainRule, CloudRule, ClearRule, StormRule, FogRule, SnowRule]

  /** Rule `i` is the first rule of the table that `c` triggers. */
  ghost predicate FirstHit(rules: seq<Rule>, c: string, i: int)
  {
    0 <= i < |rules| && MentionsAny(c, rules[i].0) &&
    forall j :: 0 <= j < i ==> !MentionsAny(c, rules[j].0)
  }

  /** The class of the first rule `c` triggers, or `Other` when it triggers none. */
  function FirstMatch(rules: seq<Rule>, c: string): (r: Sky)
    ensures (exists i :: FirstHit(rules, c, i) && r == rules[i].1) ||
            (r == Other && forall j :: 0 <= j < |rules| ==> !MentionsAny(c, rules[j].0))
  {
    if rules == [] then Other
    else if MentionsAny(c, rules[0].0) then (assert FirstHit(rules, c, 0); rules[0].1)
    else
      var r := FirstMatch(rules[1..], c);
      assert forall i :: FirstHit(rules[1..], c, i) ==> FirstHit(rules, c, i + 1);
      r
  }

  /** Both rule tables hold the same six rules; only their order differs. */
  lemma SameRulesDifferentOrder()
    ensures multiset(PhraseRules) == multiset(JokeRules)
    ensures PhraseRules != JokeRules
  {
    assert PhraseRules[1] != JokeRules[1];
  }

  lemma MentionsPair(c: string, a: string, b: string)
    ensures MentionsAny(c, [a, b]) <==> Includes(c, a) || Includes(c, b)
  {
    if Includes(c, a) { assert [a, b][0] == a; }
    if Includes(c, b) { assert [a, b][1] == b; }
  }

  lemma MentionsOne(c: string, a: string)
    ensures MentionsAny(c, [a]) <==> Includes(c, a)
  {
    if Includes(c, a) { assert [a][0] == a; }
  }

  lemma MentionsRules(c: string)
    ensures MentionsAny(c, RainRule.0) <==> Includes(c, "rain")
    ensures MentionsAny(c, StormRule.0) <==> Includes(c, "storm") || Includes(c, "thunder")
    ensures MentionsAny(c, SnowRule.0) <==> Includes(c, "snow")
    ensures MentionsAny(c, CloudRule.0) <==> Includes(c, "cloud")
    ensures MentionsAny(c, ClearRule.0) <==> Includes(c, "clear") || Includes(c, "sun")
    ensures MentionsAny(c, FogRule.0) <==> Includes(c, "fog") || Includes(c, "mist")
  {
    MentionsOne(c, "rain");
    MentionsPair(c, "storm", "thunder");
    MentionsOne(c, "snow");
    MentionsOne(c, "cloud");
    MentionsPair(c, "clear", "sun");
    MentionsPair(c, "fog", "mist");
  }

  /** At most one rule is the first rule a condition triggers. */
  lemma FirstHitUnique(rules: seq<Rule>, c: string, i: int, k: int)
    requires FirstHit(rules, c, i) && FirstHit(rules, c, k)
    ensures i == k
  {
  }

  /** If rule `k` is the first hit, the table yields its class. */
  lemma FirstMatchAt(rules: seq<Rule>, c: string, k: int)
    requires FirstHit(rules, c, k)
    ensures FirstMatch(rules, c) == rules[k].1
  {
    var r := FirstMatch(rules, c);
    if i :| FirstHit(rules, c, i) && r == rules[i].1 {
      FirstHitUnique(rules, c, i, k);
    }
  }

  /** If no rule is triggered, the table yields `Other`. */
  lemma FirstMatchNone(rules: seq<Rule>, c: string)
    requires forall j :: 0 <= j < |rules| ==> !MentionsAny(c, rules[j].0)
    ensures FirstMatch(rules, c) == Other
  {
  }

  /** The condition-phrase chain is the phrase rule table read first-match-wins. */
  lemma PhraseSkyIsFirstMatch(c: string)
    ensures PhraseSky(c) == FirstMatch(PhraseRules, c)
  {
    MentionsRules(c);
    var t := PhraseRules;
    if MentionsAny(c, t[0].0) { FirstMatchAt(t, c, 0); }
    else if MentionsAny(c, t[1].0) { FirstMatchAt(t, c, 1); }
    else if MentionsAny(c, t[2].0) { FirstMatchAt(t, c, 2); }
    else if MentionsAny(c, t[3].0) { FirstMatchAt(t, c, 3); }
    else if MentionsAny(c, t[4].0) { FirstMatchAt(t, c, 4); }
    else if MentionsAny(c, t[5].0) { FirstMatchAt(t, c, 5); }
    else { FirstMatchNone(t, c); }
  }

  /** The joke-pool chain is the joke rule table read first-match-wins. */
  lemma JokeSkyIsFirstMatch(c: string)
    ensures JokeSky(c) == FirstMatch(JokeRules, c)
  {
    MentionsRules(c);
    var t := JokeRules;
    if MentionsAny(c, t[0].0) { FirstMatchAt(t, c, 0); }
    else if MentionsAny(c, t[1].0) { FirstMatchAt(t, c, 1); }
    else if MentionsAny(c, t[2].0) { FirstMatchAt(t, c, 2); }
    else if MentionsAny(c, t[3].0) { FirstMatchAt(t, c, 3); }
    else if MentionsAny(c, t[4].0) { FirstMatchAt(t, c, 4); }
    else if MentionsAny(c, t[5].0) { FirstMatchAt(t, c, 5); }
    else { FirstMatchNone(t, c); }
  }

  /** The two classifications disagree exactly when the condition has no "rain" and
      either a storm word together with cloud/clear/sun, or (no storm word) "snow"
      together with cloud/clear/sun/fog/mist. */
  lemma PhraseAndJokeDisagree(c: string)
    ensures PhraseSky(c) != JokeSky(c) <==>
      var cl := Includes(c, "cloud") || Includes(c, "clear") || Includes(c, "sun");
      var st := Includes(c, "storm") || Includes(c, "thunder");
      !Includes(c, "rain") &&
      ((st && cl) || (!st && Includes(c, "snow") && (cl || Includes(c, "fog") || Includes(c, "mist"))))
  {
  }

  /** A condition mentioning snow and cloud but neither rain nor a storm word reads as
      "Snowy." in the phrase but draws a cloud joke. */
  lemma SnowyPhraseCloudJoke(condition: string, night: bool)
    requires var c := ToLower(condition);
      Includes(c, "snow") && Includes(c, "cloud") &&
      !Includes(c, "rain") && !Includes(c, "storm") && !Includes(c, "thunder")
    ensures ConditionPhrase(condition, night) == "Snowy."
    ensures JokeSky(ToLower(condition)) == Cloud
    ensures JokePool(JokeSky(ToLower(condition)), night) == JokePool(Cloud, false)
  {
  }

  /** The words "snow clouds" does and does not contain. */
  lemma SnowCloudsWords(c: string)
    requires c == "snow clouds"
    ensures Includes(c, "snow") && Includes(c, "cloud")
    ensures !Includes(c, "rain") && !Includes(c, "storm") && !Includes(c, "thunder")
  {
    assert OccursAt(c, "snow", 0);
    IncludesAt(c, "snow", 0);
    assert OccursAt(c, "cloud", 5);
    IncludesAt(c, "cloud", 5);
    ExcludesByChar(c, "rain", 0);
    ExcludesByChar(c, "storm", 1);
    ExcludesByChar(c, "thunder", 0);
  }

  /** "snow clouds" is such a condition. */
  lemma SnowCloudsQuirk(condition: string)
    requires condition == "snow clouds"
    ensures ConditionPhrase(condition, false) == "Snowy."
    ensures JokeSky(ToLower(condition)) == Cloud
  {
    ToLowerUnchanged(condition);
    SnowCloudsWords(condition);
    SnowyPhraseCloudJoke(condition, false);
  }

  /** "Rain" lowers to "rain", which is rain for both classifications. */
  lemma RainWords(condition: string)
    requires condition == "Rain"
    ensures PhraseSky(ToLower(condition)) == Rain && JokeSky(ToLower(condition)) == Rain
  {
    var c := ToLower(condition);
    assert c == "rain" by { assert LowerChar('R') == 'r'; }
    assert OccursAt(c, "rain", 0);
    IncludesAt(c, "rain", 0);
  }

  /** The words "clear" does and does not contain. */
  lemma ClearLowerWords(c: string)
    requires c == "clear"
    ensures Includes(c, "clear")
    ensures !Includes(c, "rain") && !Includes(c, "storm") && !Includes(c, "thunder")
    ensures !Includes(c, "snow") && !Includes(c, "cloud")
  {
    assert OccursAt(c, "clear", 0);
    IncludesAt(c, "clear", 0);
    ExcludesByChar(c, "rain", 2);
    ExcludesByChar(c, "storm", 0);
    ExcludesByChar(c, "thunder", 0);
    ExcludesByChar(c, "snow", 0);
    ExcludesByChar(c, "cloud", 2);
  }

  /** "Clear" lowers to "clear", which is a clear sky for both classifications. */
  lemma ClearWords(condition: string)
    requires condition == "Clear"
    ensures PhraseSky(ToLower(condition)) == Clear && JokeSky(ToLower(condition)) == Clear
  {
    assert ToLower(condition) == "clear" by { assert LowerChar('C') == 'c'; }
    ClearLowerWords(ToLower(condition));
  }

  // ---- Night test ----

  /** The icon code (empty when absent) ends with 'n'. */
  function IsNight(icon: string): (night: bool)
    ensures night <==> |icon| > 0 && icon[|icon| - 1] == 'n'
  {
    EndsWith(icon, "n")
  }

  // ---- Condition phrase ----

  /** The condition phrase; `condition` is the raw text (empty when absent). */
  function ConditionPhrase(condition: string, night: bool): (phrase: string)
    ensures |phrase| > 0
    ensures PhraseSky(ToLower(condition)) == Clear ==> phrase == (if night then "Clear night." else "Sunny.")
    ensures PhraseSky(ToLower(condition)) == Other ==> phrase == (if condition == "" then "Weather update." else condition)
  {
    match PhraseSky(ToLower(condition))
    case Rain => "Rainy."
    case Storm => "Stormy."
    case Snow => "Snowy."
    case Cloud => "Cloudy."
    case Clear => if night then "Clear night." else "Sunny."
    case Fog => "Foggy."
    case Other => if condition == "" then "Weather update." else condition
  }

  // ---- Temperature phrase ----

  datatype Feel = Cold | Cool | Warm | Hot

  function FeelRank(f: Feel): nat
  {
    match f
    case Cold => 0
    case Cool => 1
    case Warm => 2
    case Hot => 3
  }

  /** The feels-like bucket: at least 30 hot, at least 20 warm, at least 10 cool, else cold. */
  function FeelOf(t: real): (f: Feel)
    ensures f == Hot <==> 30.0 <= t
    ensures f == Warm <==> 20.0 <= t < 30.0
    ensures f == Cool <==> 10.0 <= t < 20.0
    ensures f == Cold <==> t < 10.0
  {
    if t >= 30.0 then Hot else if t >= 20.0 then Warm else if t >= 10.0 then Cool else Cold
  }

  /** A warmer feels-like temperature never lands in a colder bucket. */
  lemma FeelMonotone(t: real, u: real)
    requires t <= u
    ensures FeelRank(FeelOf(t)) <= FeelRank(FeelOf(u))
  {
  }

  lemma FeelBoundaries()
    ensures FeelOf(30.0) == Hot && FeelOf(29.99) == Warm
    ensures FeelOf(20.0) == Warm && FeelOf(19.99) == Cool
    ensures FeelOf(10.0) == Cool && FeelOf(9.99) == Cold
  {
  }

  function FeelName(f: Feel): string
  {
    match f
    case Hot => "hot"
    case Warm => "warm"
    case Cool => "cool"
    case Cold => "cold"
  }

  /** The rounded feels-like value with its unit, as it appears in the caption. */
  function Degrees(t: real): (d: string)
    ensures |d| > 2 && EndsWith(d, "°C")
    ensures AllDigits(Magnitude(d[..|d| - 2])) && ParseInt(d[..|d| - 2]) == Round(t)
  {
    var d := IntToString(Round(t)) + "°C";
    assert d[..|d| - 2] == IntToString(Round(t));
    ParseIntToString(Round(t));
    d
  }

  /** The temperature phrase, with its own leading space. */
  function TempPhrase(t: real): (phrase: string)
    ensures OccursAt(phrase, " Feels like ", 0)
    ensures OccursAt(phrase, Degrees(t), |" Feels like "|)
    ensures phrase[|" Feels like "| + |Degrees(t)|..] == ", " + FeelName(FeelOf(t)) + "."
  {
    var head, degrees, tail := " Feels like ", Degrees(t), ", " + FeelName(FeelOf(t)) + ".";
    var phrase := head + degrees + tail;
    assert phrase[..|head|] == head;
    assert phrase[|head|..|head| + |degrees|] == degrees;
    assert phrase[|head| + |degrees|..] == tail;
    phrase
  }

  // ---- Humidity phrase ----

  datatype Dampness = Dry | Normal | Humid

  /** The humidity bucket: at least 70 humid, at least 40 normal, else dry. */
  function DampnessOf(h: real): (d: Dampness)
    ensures d == Humid <==> 70.0 <= h
    ensures d == Normal <==> 40.0 <= h < 70.0
    ensures d == Dry <==> h < 40.0
  {
    if h >= 70.0 then Humid else if h >= 40.0 then Normal else Dry
  }

  function HumidityPhrase(h: real): (phrase: string)
    ensures phrase == "Humid." <==> 70.0 <= h
    ensures phrase == "Normal humidity." <==> 40.0 <= h < 70.0
    ensures phrase == "Dry air." <==> h < 40.0
  {
    match DampnessOf(h)
    case Humid => "Humid."
    case Normal => "Normal humidity."
    case Dry => "Dry air."
  }

  // ---- Pools and the random pick ----

  /** The joke pool for a class; clear skies have a night pool and a day pool. */
  function JokePool(sky: Sky, night: bool): (pool: seq<string>)
    ensures |pool| > 0
  {
    match sky
    case Rain => [
      "I think the clouds are crying again. ☔",
      "It's raining… perfect time to blame the weather. 😂",
      "Even the sky needed a bath today. 😅"]
    case Cloud => [
      "The clouds are hiding the sun like it's a secret. ☁️",
      "Clouds today… the sky forgot to do its makeup. 😄",
      "Clouds are basically sky pillows. ☁️"]
    case Clear =>
      if night then [
        "Clear night — even the moon is showing off. 🌙",
        "Stars are working overtime tonight. ⭐",
        "Perfect night to look up and overthink. 😅"]
      else [
        "So sunny even my thoughts need sunscreen. 😎",
        "Sun today be like: ‘I run this place.’ ☀️",
        "Too bright… even my future is jealous. 😄"]
    case Storm => [
      "If you hear thunder, it’s just sky drums. 🌩️",
      "Storm outside… someone angered the weather gods. 😂",
      "The wind is practicing WWE moves today. 🌪️"]
    case Fog => [
      "Fog so thick even maps are confused. 🌫️",
      "Today's mood: mysterious like fog. 🕵️",
      "If you can't see anything, congrats — it's fog day. 😅"]
    case Snow => [
      "Snow: nature’s way of turning everything into a fridge. ❄️",
      "Tiny sky confetti incoming. 🎉",
      "Snow today… free AC from the universe. 😄"]
    case Other => [
      "Weather is normal… just like me (I think).",
      "Can't predict this weather, but I can predict you're cool. 😎"]
  }

  /** The greeting pool: evening greetings at night, day greetings otherwise. */
  function Greetings(night: bool): (pool: seq<string>)
    ensures |pool| > 0
  {
    if night then ["Good evening!", "Hello!", "Beautiful night!"]
    else ["Good day!", "Hello!", "Hey there!"]
  }

  /** `Math.floor(r * n)` for a draw `r` of `Math.random()`, which lies in [0, 1). */
  function DrawIndex(r: real, n: nat): (i: nat)
    requires 0.0 <= r < 1.0 && n > 0
    ensures i < n
  {
    assert 0.0 <= r * n as real < n as real by {
      assert r * n as real < 1.0 * n as real;
    }
    (r * n as real).Floor
  }

  /** Every index of the pool is the outcome of some draw. */
  lemma DrawReachesEveryIndex(i: nat, n: nat)
    requires i < n
    ensures 0.0 <= i as real / n as real < 1.0
    ensures DrawIndex(i as real / n as real, n) == i
  {
    assert (i as real / n as real) * n as real == i as real;
  }

  /** `pick`: the element of a non-empty pool at the drawn index. */
  function Pick(pool: seq<string>, r: real): (x: string)
    requires |pool| > 0 && 0.0 <= r < 1.0
    ensures x in pool
  {
    pool[DrawIndex(r, |pool|)]
  }

  // ---- The caption ----

  /** `caption` is a greeting from the pool for the time of day, the condition phrase,
      the temperature phrase, the humidity phrase and a joke from the pool for the
      condition, joined by single spaces. */
  ghost predicate ComposedFrom(caption: string, condition: string, feelsLike: real, humidity: real, icon: string)
  {
    var night := IsNight(icon);
    var greetings := Greetings(night);
    var jokes := JokePool(JokeSky(ToLower(condition)), night);
    exists g, j :: 0 <= g < |greetings| && 0 <= j < |jokes| &&
      caption == greetings[g] + " " + ConditionPhrase(condition, night) + " " + TempPhrase(feelsLike)
                 + " " + HumidityPhrase(humidity) + " " + jokes[j]
  }

  /** `buildGreetingTinyFunny`; `condition` and `icon` are empty when absent, and the
      two draws of `Math.random()` (joke first, greeting second) are parameters. */
  function BuildCaption(condition: string, feelsLike: real, humidity: real, icon: string,
                        jokeDraw: real, greetingDraw: real): (caption: string)
    requires 0.0 <= jokeDraw < 1.0 && 0.0 <= greetingDraw < 1.0
    ensures ComposedFrom(caption, condition, feelsLike, humidity, icon)
    ensures |caption| > 0
  {
    var night := IsNight(icon);
    var conditionText := ConditionPhrase(condition, night);
    var tempText := TempPhrase(feelsLike);
    var humidityText := HumidityPhrase(humidity);
    var jokes := JokePool(JokeSky(ToLower(condition)), night);
    var joke := Pick(jokes, jokeDraw);
    var prefix := Pick(Greetings(night), greetingDraw);
    var g := DrawIndex(greetingDraw, |Greetings(night)|);
    var j := DrawIndex(jokeDraw, |jokes|);
    assert prefix == Greetings(night)[g] && joke == jokes[j];
    prefix + " " + conditionText + " " + tempText + " " + humidityText + " " + joke
  }

  /** Where the temperature phrase sits in a caption assembled from its five parts. */
  lemma TempPhraseInCaption(caption: string, greeting: string, conditionText: string, tempText: string,
                            humidityText: string, joke: string, degrees: string)
    requires caption == greeting + " " + conditionText + " " + tempText + " " + humidityText + " " + joke
    requires OccursAt(tempText, " Feels like ", 0) && OccursAt(tempText, degrees, |" Feels like "|)
    ensures Includes(caption, degrees)
    ensures Includes(caption, "  Feels like ")
  {
    var head := greeting + " " + conditionText + " ";
    var tail := " " + humidityText + " " + joke;
    assert caption == head + tempText + tail;
    OccursInside(head, tempText, tail, degrees, |" Feels like "|);
    IncludesAt(caption, degrees, |head| + |" Feels like "|);
    OccursAcross(head, tempText, " ", " Feels like ");
    assert " " + " Feels like " == "  Feels like ";
    OccursInside([], head + tempText, tail, "  Feels like ", |head| - 1);
    assert [] + (head + tempText) + tail == caption;
    IncludesAt(caption, "  Feels like ", |head| - 1);
  }

  /** The caption always reports the rounded feels-like value followed by "°C", and the
      temperature phrase's own leading space makes a double space before "Feels like". */
  lemma CaptionReportsTemperature(condition: string, feelsLike: real, humidity: real, icon: string,
                                  jokeDraw: real, greetingDraw: real)
    requires 0.0 <= jokeDraw < 1.0 && 0.0 <= greetingDraw < 1.0
    ensures Includes(BuildCaption(condition, feelsLike, humidity, icon, jokeDraw, greetingDraw), Degrees(feelsLike))
    ensures Includes(BuildCaption(condition, feelsLike, humidity, icon, jokeDraw, greetingDraw), "  Feels like ")
  {
    var caption := BuildCaption(condition, feelsLike, humidity, icon, jokeDraw, greetingDraw);
    var night := IsNight(icon);
    var greetings := Greetings(night);
    var jokes := JokePool(JokeSky(ToLower(condition)), night);
    var g, j :| 0 <= g < |greetings| && 0 <= j < |jokes| &&
      caption == greetings[g] + " " + ConditionPhrase(condition, night) + " " + TempPhrase(feelsLike)
                 + " " + HumidityPhrase(humidity) + " " + jokes[j];
    TempPhraseInCaption(caption, greetings[g], ConditionPhrase(condition, night), TempPhrase(feelsLike),
                        HumidityPhrase(humidity), jokes[j], Degrees(feelsLike));
  }

  /** A rainy day: condition "Rain", feels like 25.4, humidity 80, icon "10d". */
  lemma RainyDayCaption(condition: string, icon: string, jokeDraw: real, greetingDraw: real)
    requires condition == "Rain" && icon == "10d"
    requires 0.0 <= jokeDraw < 1.0 && 0.0 <= greetingDraw < 1.0
    ensures !IsNight(icon)
    ensures ConditionPhrase(condition, false) == "Rainy."
    ensures JokeSky(ToLower(condition)) == Rain
    ensures FeelOf(25.4) == Warm && DampnessOf(80.0) == Humid
    ensures Degrees(25.4) == "25°C"
    ensures Includes(BuildCaption(condition, 25.4, 80.0, icon, jokeDraw, greetingDraw), "25°C")
  {
    RainWords(condition);
    assert Round(25.4) == 25;
    assert NatToString(25) == "25";
    CaptionReportsTemperature(condition, 25.4, 80.0, icon, jokeDraw, greetingDraw);
  }

  /** A clear, cold night: condition "Clear", feels like 5, humidity 30, icon "01n". */
  lemma ClearNightCaption(condition: string, icon: string)
    requires condition == "Clear" && icon == "01n"
    ensures IsNight(icon)
    ensures ConditionPhrase(condition, true) == "Clear night."
    ensures JokePool(JokeSky(ToLower(condition)), true) == JokePool(Clear, true)
    ensures JokePool(Clear, true) != JokePool(Clear, false)
    ensures FeelOf(5.0) == Cold && DampnessOf(30.0) == Dry
  {
    ClearWords(condition);
    assert JokePool(Clear, true)[0] != JokePool(Clear, false)[0];
  }
}
