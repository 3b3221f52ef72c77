/** `get_weather` of the bot (main.py): the decision and the formatting done once
    the weather service has answered. The HTTP request and the JSON decoding are
    not modelled; the decoded answer is an input. */
module Forecast {
  import opened Wrappers
  import PyStr

  /** The value under "cod" in the decoded answer, as Python sees it. */
  datatype Code =
    | Absent              // the key is missing, so `res.get("cod")` is None
    | Number(value: real) // a finite JSON number, an int or a float
    | Text(text: string)  // a JSON string; the service sends "404" this way
    | Other               // null, a boolean, a list, an object, NaN or an infinity

  /** `res.get("cod") != 200` is false exactly for a number equal to 200 (the int
      200 or the float 200.0). A string never equals an int; a boolean compares
      as 0 or 1; NaN and the infinities equal no int. */
  predicate Found(cod: Code)
  {
    cod.Number? && cod.value == 200.0
  }

  /** A JSON number as Python's JSON decoder yields it: an int, a finite float
      (`Float(0.0)` is +0.0), the float -0.0, or one of the tokens `NaN`,
      `Infinity` and `-Infinity` it also accepts. Numbers of equal value compare
      alike but may print differently: `20` and `20.0`, `0.0` and `-0.0`. */
  datatype Num = Int(i: int) | Float(x: real) | NegativeZero | NaN | Infinity(negative: bool)

  /** The decoded answer, reduced to what `get_weather` reads. A field is None
      when reading it raises: `res["main"]` or `["temp"]` missing for `temp`,
      `["feels_like"]` missing for `feelsLike`, and for `description` a missing
      "weather" list, an empty one (IndexError) or a first entry without
      "description". */
  datatype Response = Response(
    cod: Code,
    temp: Option<Num>,
    feelsLike: Option<Num>,
    description: Option<string>)

  /** The field whose lookup raised. */
  datatype Field = Temp | FeelsLike | Description

  /** What `get_weather` gives back: a text, or the exception it lets escape. */
  datatype Lookup = Message(text: string) | Raised(missing: Field)

  /** Text conversions the bot delegates to Python: `str` of an int or a float
      inside the f-string, and `str.capitalize` on the (Russian) description. */
  datatype Rendering = Rendering(number: Num -> string, capitalize: string -> string)

  const NotFound: string := "❌ Город не найден."

  /** Python's `n < bound` for an int or float `n` and a finite `bound`: every
      comparison with NaN is false, -inf is below and +inf above every bound. */
  predicate Below(n: Num, bound: real)
  {
    match n
    case Int(i) => (i as real) < bound
    case Float(x) => x < bound
    case NegativeZero => 0.0 < bound
    case NaN => false
    case Infinity(negative) => negative
  }

  /** Python's `a <= b` on two numbers; false whenever one is NaN. */
  predicate AtMost(a: Num, b: Num)
  {
    !a.NaN? && !b.NaN?
    && (a == Infinity(true) || b == Infinity(false)
        || (!a.Infinity? && !b.Infinity? && Value(a) <= Value(b)))
  }

  /** The value of a finite number. */
  function Value(n: Num): real
    requires !n.NaN? && !n.Infinity?
  {
    match n
    case Int(i) => i as real
    case Float(x) => x
    case NegativeZero => 0.0
  }

  /** The four clothing-advice bands, coldest first. */
  datatype Band = VeryCold | Cool | Comfortable | Warm

  /** Reference definition of the bands as half-open intervals of temperature. */
  predicate InInterval(b: Band, t: real)
  {
    match b
    case VeryCold => t < 0.0
    case Cool => 0.0 <= t < 10.0
    case Comfortable => 10.0 <= t < 20.0
    case Warm => 20.0 <= t
  }

  /** The band a number belongs to: its interval for a finite value, the
      extreme bands for the infinities, and the band of the final `else` for
      NaN, which fails every `<` test. */
  predicate InBand(b: Band, n: Num)
  {
    match n
    case Int(i) => InInterval(b, i as real)
    case Float(x) => InInterval(b, x)
    case NegativeZero => InInterval(b, 0.0)
    case NaN => b == Warm
    case Infinity(negative) => b == (if negative then VeryCold else Warm)
  }

  /** Position of a band from cold to warm. */
  function Rank(b: Band): nat
  {
    match b
    case VeryCold => 0
    case Cool => 1
    case Comfortable => 2
    case Warm => 3
  }

  /** The `if temp < 0 / elif temp < 10 / elif temp < 20 / else` chain. */
  function BandOf(t: Num): (b: Band)
    ensures InBand(b, t)
  {
    if Below(t, 0.0) then VeryCold
    else if Below(t, 10.0) then Cool
    else if Below(t, 20.0) then Comfortable
    else Warm
  }

  /** The advice text of each band: a verdict, then a suggestion (written as two
      literals so that the verifier unfolds each). */
  function AdviceText(b: Band): string
  {
    match b
    case VeryCold => "Очень холодно 🧥 " + "Надень тёплую куртку и шапку."
    case Cool => "Прохладно 🧣 " + "Рекомендую куртку или свитер."
    case Comfortable => "Комфортно 👕 " + "Подойдёт лёгкая куртка или худи."
    case Warm => "Тепло ☀️ " + "Отлично подойдёт футболка."
  }

  /** The clothing advice for a temperature. */
  function Advice(t: Num): string
  {
    AdviceText(BandOf(t))
  }

  /** The reply layout, the f-string of `get_weather`. */
  function Layout(city: string, temp: string, feels: string, desc: string, advice: string): string
  {
    "🌤 Погода в " + city + ":\nТемпература: " + temp + "°C (ощущается " + feels + "°C)\n"
      + desc + "\n👕 Совет: " + advice
  }

  /** The four lines of a reply, each on its own. */
  function Header(city: string): string
  {
    "🌤 Погода в " + city + ":"
  }

  function Readings(temp: string, feels: string): string
  {
    "Температура: " + temp + "°C (ощущается " + feels + "°C)"
  }

  function AdviceLine(advice: string): string
  {
    "👕 Совет: " + advice
  }

  /** `get_weather(city)` with the service's decoded answer `res`: the status is
      checked first, then temp, feels_like and the description are read in
      that order, and only then is the reply laid out. */
  function GetWeather(city: string, res: Response, fmt: Rendering): (r: Lookup)
    ensures r == Message(NotFound) <==> !Found(res.cod)
    ensures r == Raised(Temp) <==> Found(res.cod) && res.temp.None?
    ensures r == Raised(FeelsLike) <==> Found(res.cod) && res.temp.Some? && res.feelsLike.None?
    ensures r == Raised(Description) <==>
      Found(res.cod) && res.temp.Some? && res.feelsLike.Some? && res.description.None?
  {
    if !Found(res.cod) then Message(NotFound)
    else if res.temp.None? then Raised(Temp)
    else if res.feelsLike.None? then Raised(FeelsLike)
    else if res.description.None? then Raised(Description)
    else
      var t := res.temp.value;
      var text := Layout(city, fmt.number(t), fmt.number(res.feelsLike.value),
                         fmt.capitalize(res.description.value), Advice(t));
      assert text[0] == '🌤';
      Message(text)
  }

  /** Every temperature lies in exactly one band, the one `BandOf` picks. */
  lemma BandsPartition(t: Num, b: Band)
    ensures InBand(b, t) <==> b == BandOf(t)
  {
  }

  /** The comparisons are strict, so 0, 10 and 20 open the warmer band, as ints
      and as floats (-0.0 included, since `-0.0 < 0` is false); just below them
      the colder band is chosen. */
  lemma BoundariesGoWarmer()
    ensures BandOf(Int(0)) == BandOf(Float(0.0)) == BandOf(NegativeZero) == Cool
    ensures BandOf(Int(10)) == BandOf(Float(10.0)) == Comfortable
    ensures BandOf(Int(20)) == BandOf(Float(20.0)) == Warm
    ensures BandOf(Int(-1)) == BandOf(Float(-0.1)) == VeryCold
    ensures BandOf(Float(9.9)) == Cool && BandOf(Float(19.9)) == Comfortable
  {
  }

  /** NaN passes none of the `<` tests and gets the warm advice; -inf gets the
      coldest band and +inf the warmest. */
  lemma NonFiniteBands()
    ensures BandOf(NaN) == Warm
    ensures BandOf(Infinity(true)) == VeryCold && BandOf(Infinity(false)) == Warm
  {
  }

  /** The band depends on the value, not on whether the service sent an int or
      a float. */
  lemma BandIgnoresIntOrFloat(i: int)
    ensures BandOf(Int(i)) == BandOf(Float(i as real))
  {
  }

  /** A higher temperature never gets a colder band (NaN is comparable with
      nothing, so `AtMost` excludes it). */
  lemma BandMonotone(t1: Num, t2: Num)
    requires AtMost(t1, t2)
    ensures Rank(BandOf(t1)) <= Rank(BandOf(t2))
  {
  }

  /** The four advice texts differ, so the advice names its band. */
  lemma AdviceNamesBand(b1: Band, b2: Band)
    requires AdviceText(b1) == AdviceText(b2)
    ensures b1 == b2
  {
    assert AdviceText(VeryCold)[0] == 'О' && AdviceText(Cool)[0] == 'П';
    assert AdviceText(Comfortable)[0] == 'К' && AdviceText(Warm)[0] == 'Т';
  }

  lemma AdviceHasNoNewline(t: Num)
    ensures '\n' !in Advice(t)
  {
    match BandOf(t)
    case VeryCold =>
      assert '\n' !in "Очень холодно 🧥 " && '\n' !in "Надень тёплую куртку и шапку.";
    case Cool =>
      assert '\n' !in "Прохладно 🧣 " && '\n' !in "Рекомендую куртку или свитер.";
    case Comfortable =>
      assert '\n' !in "Комфортно 👕 " && '\n' !in "Подойдёт лёгкая куртка или худи.";
    case Warm =>
      assert '\n' !in "Тепло ☀️ " && '\n' !in "Отлично подойдёт футболка.";
  }

  /** Without a 200 status the reply is the not-found text, whatever else the
      answer holds and whatever the city. */
  lemma NotFoundReadsNothingElse(c1: string, c2: string, r1: Response, r2: Response,
                                 f1: Rendering, f2: Rendering)
    requires !Found(r1.cod) && !Found(r2.cod)
    ensures GetWeather(c1, r1, f1) == GetWeather(c2, r2, f2) == Message(NotFound)
  {
  }

  /** The f-string is the four lines joined by newlines. */
  lemma LayoutIsLines(city: string, temp: string, feels: string, desc: string, advice: string)
    ensures Layout(city, temp, feels, desc, advice)
         == PyStr.Join([Header(city), Readings(temp, feels), desc, AdviceLine(advice)], '\n')
  {
    var lines := [Header(city), Readings(temp, feels), desc, AdviceLine(advice)];
    var j2 := PyStr.Join(lines[2..], '\n');
    assert lines[2..] == [desc, AdviceLine(advice)];
    assert lines[2..][1..] == [AdviceLine(advice)];
    assert PyStr.Join(lines[2..][1..], '\n') == AdviceLine(advice);
    assert j2 == desc + "\n" + AdviceLine(advice);
    var j1 := PyStr.Join(lines[1..], '\n');
    assert lines[1..][1..] == lines[2..];
    assert j1 == Readings(temp, feels) + "\n" + j2;
    assert PyStr.Join(lines, '\n') == Header(city) + "\n" + j1;
    var nl := "\n";
    assert ":\nТемпература: " == ":" + nl + "Температура: ";
    assert "°C)\n" == "°C)" + nl;
    assert "\n👕 Совет: " == nl + "👕 Совет: ";
    Regroup("🌤 Погода в ", city, ":", nl, "Температура: ", temp, "°C (ощущается ", feels,
            "°C)", desc, "👕 Совет: ", advice);
  }

  /** Regrouping the pieces of the f-string into its lines. */
  lemma Regroup(p0: string, city: string, p1: string, nl: string, p2: string, temp: string,
                p3: string, feels: string, p4: string, desc: string, p5: string, advice: string)
    ensures p0 + city + (p1 + nl + p2) + temp + p3 + feels + (p4 + nl) + desc + (nl + p5) + advice
         == (p0 + city + p1) + nl + ((p2 + temp + p3 + feels + p4) + nl + (desc + nl + (p5 + advice)))
  {
  }

  /** The answer has a 200 status and every field `get_weather` reads. */
  predicate Complete(res: Response)
  {
    Found(res.cod) && res.temp.Some? && res.feelsLike.Some? && res.description.Some?
  }

  /** None of the texts inserted into the reply breaks a line. */
  predicate SingleLine(city: string, res: Response, fmt: Rendering)
    requires Complete(res)
  {
    '\n' !in city
    && '\n' !in fmt.number(res.temp.value) && '\n' !in fmt.number(res.feelsLike.value)
    && '\n' !in fmt.capitalize(res.description.value)
  }

  /** A successful reply reads, line by line: the header with the city, the
      temperature and feels-like reading, the capitalised description, and the
      advice for the temperature, provided none of the inserted texts breaks a
      line. */
  lemma ReplyLines(city: string, res: Response, fmt: Rendering)
    requires Complete(res) && SingleLine(city, res, fmt)
    ensures GetWeather(city, res, fmt).Message?
    ensures PyStr.Split(GetWeather(city, res, fmt).text, '\n')
         == [Header(city),
             Readings(fmt.number(res.temp.value), fmt.number(res.feelsLike.value)),
             fmt.capitalize(res.description.value),
             AdviceLine(Advice(res.temp.value))]
  {
    var t, f, d := fmt.number(res.temp.value), fmt.number(res.feelsLike.value),
                   fmt.capitalize(res.description.value);
    var a := Advice(res.temp.value);
    var lines := [Header(city), Readings(t, f), d, AdviceLine(a)];
    LayoutIsLines(city, t, f, d, a);
    AdviceHasNoNewline(res.temp.value);
    assert '\n' !in lines[3];
    PyStr.SplitJoin(lines, '\n');
  }

  /** The advice line depends on the temperature alone: two successful replies
      with the same temperature carry the same advice line, whatever their
      feels-like readings, descriptions or cities. */
  lemma AdviceIgnoresFeelsLike(c1: string, c2: string, r1: Response, r2: Response, fmt: Rendering)
    requires Complete(r1) && SingleLine(c1, r1, fmt)
    requires Complete(r2) && SingleLine(c2, r2, fmt)
    requires r1.temp == r2.temp
    ensures GetWeather(c1, r1, fmt).Message? && GetWeather(c2, r2, fmt).Message?
    ensures var l1, l2 := PyStr.Split(GetWeather(c1, r1, fmt).text, '\n'),
                          PyStr.Split(GetWeather(c2, r2, fmt).text, '\n');
            |l1| == |l2| == 4 && l1[3] == l2[3] == AdviceLine(Advice(r1.temp.value))
  {
    ReplyLines(c1, r1, fmt);
    ReplyLines(c2, r2, fmt);
  }
}
