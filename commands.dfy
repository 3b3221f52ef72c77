/** The bot's commands `/weather`, `/now` and `/setcity` (main.py): each
    refuses an empty argument list with its usage line, and otherwise joins the
    arguments into a city name. The chat transport is not modelled: a handler
    yields what it would reply or request. */
module Commands {
  import opened Wrappers
  import opened Forecast
  import PyStr

  /** Hour of the daily notification. */
  const SendHour: nat := 7
  /** Time zone the notification hour is read in. */
  const Zone: string := "Europe/Prague"

  const WeatherUsage: string := "Напиши город, например: /weather Praha"
  const NowUsage: string := "Напиши город, например: /now Praha"
  const SetCityUsage: string := "Напиши город, например: /setcity Praha"

  /** What `/weather` or `/now` replies: the usage line, or what `get_weather`
      gave for the city. */
  datatype Outcome = Usage(text: string) | Answer(reply: Lookup)

  /** The arguments of one `job_queue.run_daily` call: daily at `hour:minute` in
      `zone`, sending to `chatId` the weather for `city`, under the job name
      `name`, replacing a job of that name if there is one. */
  datatype DailyJob = DailyJob(
    chatId: int,
    hour: nat,
    minute: nat,
    zone: string,
    city: string,
    name: string,
    replaceExisting: bool)

  /** What `/setcity` does: reply with its usage line, or request a daily job and
      reply with a confirmation. */
  datatype Subscription = Refused(text: string) | Scheduled(job: DailyJob, confirmation: string)

  /** The city named by the command's arguments: `" ".join(context.args)`. */
  function CityOf(args: seq<string>): string
  {
    PyStr.Join(args, ' ')
  }

  /** `/weather`: `fetch` stands for the service's decoded answer for a city. */
  function Weather(args: seq<string>, fetch: string -> Response, fmt: Rendering): (r: Outcome)
    ensures r.Usage? <==> |args| == 0
    ensures r.Usage? ==> r.text == WeatherUsage
    ensures r.Answer? ==> r.reply == GetWeather(CityOf(args), fetch(CityOf(args)), fmt)
  {
    if |args| == 0 then Usage(WeatherUsage)
    else
      var city := CityOf(args);
      Answer(GetWeather(city, fetch(city), fmt))
  }

  /** `/now`: the same lookup as `/weather`, with its own usage line. */
  function Now(args: seq<string>, fetch: string -> Response, fmt: Rendering): (r: Outcome)
    ensures r.Usage? <==> |args| == 0
    ensures r.Usage? ==> r.text == NowUsage
    ensures r.Answer? ==> r.reply == GetWeather(CityOf(args), fetch(CityOf(args)), fmt)
  {
    if |args| == 0 then Usage(NowUsage)
    else
      var city := CityOf(args);
      Answer(GetWeather(city, fetch(city), fmt))
  }

  /** The confirmation `/setcity` replies with. */
  function Confirmation(city: string): string
  {
    "✅ Каждый день в " + PyStr.Decimal(SendHour) + ":00 я буду присылать погоду для " + city + "."
  }

  /** `/setcity` in the chat `chatId`. */
  function SetCity(chatId: int, args: seq<string>): (r: Subscription)
    ensures r.Refused? <==> |args| == 0
    ensures r.Refused? ==> r.text == SetCityUsage
  {
    if |args| == 0 then Refused(SetCityUsage)
    else
      var city := CityOf(args);
      Scheduled(DailyJob(chatId, SendHour, 0, Zone, city, PyStr.Decimal(chatId), true),
                Confirmation(city))
  }

  /** With no arguments a command answers with its usage line only: no lookup
      (the answer does not depend on the service) and no job. */
  lemma EmptyArgumentsOnlyUsage(fetch1: string -> Response, fetch2: string -> Response,
                                fmt1: Rendering, fmt2: Rendering, chat1: int, chat2: int)
    ensures Weather([], fetch1, fmt1) == Weather([], fetch2, fmt2) == Usage(WeatherUsage)
    ensures Now([], fetch1, fmt1) == Now([], fetch2, fmt2) == Usage(NowUsage)
    ensures SetCity(chat1, []) == SetCity(chat2, []) == Refused(SetCityUsage)
  {
  }

  /** `/weather` and `/now` give the same reply to the same arguments. */
  lemma WeatherIsNow(args: seq<string>, fetch: string -> Response, fmt: Rendering)
    requires |args| > 0
    ensures Weather(args, fetch, fmt) == Now(args, fetch, fmt)
    ensures Weather(args, fetch, fmt).Answer?
  {
  }

  /** The city keeps every argument: with arguments as the chat transport
      produces them (split at spaces, so none holds a space), splitting the city
      at spaces gives the arguments back. */
  lemma CityKeepsArguments(args: seq<string>)
    requires |args| > 0
    requires forall k :: 0 <= k < |args| ==> ' ' !in args[k]
    ensures PyStr.Split(CityOf(args), ' ') == args
  {
    PyStr.SplitJoin(args, ' ');
  }

  /** A successful reply of `/weather` or `/now` reads, line by line: the header
      naming the city its arguments spell, the readings of that city's answer,
      its capitalised description, and the advice for its temperature. */
  lemma WeatherAnswersForCity(args: seq<string>, fetch: string -> Response, fmt: Rendering)
    requires |args| > 0
    requires Complete(fetch(CityOf(args))) && SingleLine(CityOf(args), fetch(CityOf(args)), fmt)
    ensures Weather(args, fetch, fmt).Answer? && Weather(args, fetch, fmt).reply.Message?
    ensures Now(args, fetch, fmt) == Weather(args, fetch, fmt)
    ensures var res := fetch(CityOf(args));
            PyStr.Split(Weather(args, fetch, fmt).reply.text, '\n')
            == [Header(CityOf(args)),
                Readings(fmt.number(res.temp.value), fmt.number(res.feelsLike.value)),
                fmt.capitalize(res.description.value),
                AdviceLine(Advice(res.temp.value))]
  {
    ReplyLines(CityOf(args), fetch(CityOf(args)), fmt);
  }

  /** A city the service does not know (no status 200) is answered by `/weather`
      and `/now` with the not-found text. */
  lemma UnknownCityNotFound(args: seq<string>, fetch: string -> Response, fmt: Rendering)
    requires |args| > 0
    requires !Found(fetch(CityOf(args)).cod)
    ensures Weather(args, fetch, fmt) == Now(args, fetch, fmt) == Answer(Message(NotFound))
  {
  }

  /** The hour of the notification is written "7" in the confirmation. */
  lemma SendHourText()
    ensures PyStr.Decimal(SendHour) == "7"
  {
  }

  const ConfirmationLead: string := "✅ Каждый день в 7:00 я буду присылать погоду для "

  /** The confirmation names 7:00 and then the city, which it ends with (before
      the final full stop). */
  lemma ConfirmationNamesTimeAndCity(city: string)
    ensures var c := Confirmation(city);
            |c| == |ConfirmationLead| + |city| + 1
            && c[..|ConfirmationLead|] == ConfirmationLead
            && c[|ConfirmationLead|..|c| - 1] == city
            && c[|c| - 1] == '.'
  {
    SendHourText();
    assert "✅ Каждый день в " + "7" + ":00 я буду присылать погоду для " == ConfirmationLead;
  }

  /** `/setcity` with arguments asks for one daily job at 7:00 in the Prague zone,
      for this chat and the city its arguments spell, named by `str` of the chat
      id, with replacement of an earlier job of that name requested; the
      confirmation names 7:00, then the same city, then a full stop. */
  lemma SetCitySchedules(chatId: int, args: seq<string>)
    requires |args| > 0
    ensures SetCity(chatId, args).Scheduled?
    ensures var r := SetCity(chatId, args);
            r.job.chatId == chatId && r.job.hour == 7 && r.job.minute == 0
            && r.job.zone == Zone && r.job.city == CityOf(args) && r.job.replaceExisting
            && PyStr.Canonical(r.job.name) && PyStr.ParseDecimal(r.job.name) == Some(chatId)
            && |r.confirmation| == |ConfirmationLead| + |r.job.city| + 1
            && r.confirmation[..|ConfirmationLead|] == ConfirmationLead
            && r.confirmation[|ConfirmationLead|..|r.confirmation| - 1] == r.job.city
            && r.confirmation[|r.confirmation| - 1] == '.'
  {
    PyStr.DecimalRoundTrip(chatId);
    ConfirmationNamesTimeAndCity(CityOf(args));
  }

  /** Different chats request jobs under different names; what the job queue
      does with a name is the library's and is not modelled. */
  lemma JobNamePerChat(chat1: int, chat2: int, args1: seq<string>, args2: seq<string>)
    requires |args1| > 0 && |args2| > 0
    requires chat1 != chat2
    ensures SetCity(chat1, args1).job.name != SetCity(chat2, args2).job.name
  {
    PyStr.DecimalInjective(chat1, chat2);
  }
}
