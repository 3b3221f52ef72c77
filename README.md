# Weather bot: reply logic

A Telegram bot answers `/weather <city>` and `/now <city>` with the current
weather for a city, and `/setcity <city>` subscribes the chat to a daily
weather message at 7:00 (Europe/Prague). This project models the part of
`main.py` that decides and formats, once the weather service has answered:

- `get_weather` (module `Forecast`): the status check, the four clothing-advice
  bands with strict `<` thresholds at 0, 10 and 20, and the four-line reply.
  The decoded answer of the service is an input (`Response`), and the two text
  conversions Python does for the bot (`str` of a number, `str.capitalize`) are
  a `Rendering` record of functions passed in.
- The command handlers `weather`, `now` and `setcity` (module `Commands`): the
  empty-argument guard, the city as the arguments joined by single spaces, the
  lookup, and for `/setcity` the daily job the handler requests with the
  confirmation it replies with. The network lookup is a parameter
  `fetch: string -> Response`.
- The Python built-ins these rely on (module `PyStr`): `" ".join`, with
  `str.split` as its inverse, and `str(int)` for the job name.

A missing field in the decoded answer makes Python raise; the model returns
`Raised(field)` for the first field whose lookup fails, in the order the code
reads them (temperature, feels-like, description). The temperature is a JSON number
as Python decodes it (`Num`): an int, a finite float, the float `-0.0`, or
`NaN`/`Infinity`/`-Infinity`, which Python's JSON decoder accepts; comparisons follow Python, so
NaN fails every `<` test and gets the warm advice. The status is `Found` only
for a number equal to 200: the service's string `"404"`, a missing key, null or
a boolean all give "❌ Город не найден.".

## Model

| member | source | states |
|---|---|---|
| Forecast.GetWeather | main.py:18-35 | the reply is the not-found text exactly when the status is not 200; otherwise it raises for the first missing field among temp, feels_like, description, in that order, and only a complete answer is laid out |
| Forecast.NotFoundReadsNothingElse | main.py:18-19 | without a 200 status the reply is the not-found text whatever the city, the other fields and the renderings |
| Forecast.BandOf | main.py:26-33 | the band chosen is the band of the temperature: its interval for a finite int or float, the coldest for -inf, the warmest for +inf and for NaN (which fails every `<` test) |
| Forecast.BandsPartition | main.py:26-33 | every temperature is in exactly one band, the one chosen |
| Forecast.BoundariesGoWarmer | main.py:26-32 | 0, 10 and 20, as ints and as floats (-0.0 included), fall into the warmer band; just below them the colder band is chosen |
| Forecast.NonFiniteBands | main.py:26-33 | NaN and +inf get the warm advice, -inf the very-cold advice |
| Forecast.BandIgnoresIntOrFloat | main.py:26-32 | an int and a float of equal value get the same band |
| Forecast.BandMonotone | main.py:26-32 | a higher temperature (in Python's `<=`, infinities included) never gets a colder band |
| Forecast.AdviceNamesBand | main.py:26-33 | the four advice texts are distinct, so the advice identifies its band |
| Forecast.AdviceHasNoNewline | main.py:27-33 | no advice text breaks a line of the reply |
| Forecast.LayoutIsLines | main.py:35 | the reply f-string is the header, the readings, the description and the advice line joined by newlines |
| Forecast.ReplyLines | main.py:21-35 | a successful reply splits into exactly four lines: header with the city, temperature and feels-like, capitalised description, advice for the temperature |
| Forecast.AdviceIgnoresFeelsLike | main.py:21-33 | two successful replies with the same temperature carry the same advice line whatever their feels-like, description or city |
| PyStr.Join | main.py:45 | the joined city is as long as all arguments plus one separator between neighbours |
| PyStr.SplitJoin | main.py:45 | splitting the joined text at the separator gives back the parts when none contains it |
| PyStr.JoinSplit | main.py:45 | joining the pieces of a split gives back the text |
| PyStr.Decimal | main.py:73 | `str(chat_id)` is the canonical decimal text: optional minus exactly for negative ids, no leading zero, no "-0" |
| PyStr.DecimalRoundTrip | main.py:73 | the job name `str(chat_id)` can be read back as the chat id, negative ids included |
| PyStr.DecimalInjective | main.py:73 | distinct chat ids have distinct texts |
| Commands.Weather | main.py:41-46 | `/weather` answers with its usage line exactly when there are no arguments; otherwise its answer is `get_weather` of the arguments joined by spaces, with that city's answer from the service |
| Commands.Now | main.py:48-53 | `/now` answers with its usage line exactly when there are no arguments; otherwise its answer is `get_weather` of the arguments joined by spaces, with that city's answer from the service |
| Commands.SetCity | main.py:61-76 | `/setcity` refuses with its usage line exactly when there are no arguments, and schedules otherwise |
| Commands.EmptyArgumentsOnlyUsage | main.py:42-64 | with no arguments each command gives only its usage line, independent of the service, and requests no job |
| Commands.WeatherIsNow | main.py:45-53 | `/weather` and `/now` give identical replies to identical non-empty arguments |
| Commands.CityKeepsArguments | main.py:45 | the city is the arguments joined by single spaces: splitting it at spaces gives the arguments back |
| Commands.WeatherAnswersForCity | main.py:45-53 | a successful `/weather` or `/now` reply has four lines: the header naming the joined city, that city's temperature and feels-like, its capitalised description, and the advice for its temperature |
| Commands.UnknownCityNotFound | main.py:45-53 | a city whose answer has no status 200 gets "❌ Город не найден." from `/weather` and `/now` |
| Commands.SendHourText | main.py:11 | the send hour 7 is written "7" |
| Commands.ConfirmationNamesTimeAndCity | main.py:76 | the confirmation is the fixed lead naming 7:00, then the city, then a full stop |
| Commands.SetCitySchedules | main.py:65-76 | with arguments, the requested job is daily at 7:00 in Europe/Prague, for this chat, carries the joined city, is named by the canonical decimal text of the chat id with replacement on, and the confirmation is the lead naming 7:00, then that city, then a full stop |
| Commands.JobNamePerChat | main.py:73 | jobs requested from different chats have different names |

## Left out

- The HTTP request, the URL with the unescaped city and the API key, and JSON decoding (main.py:15-16): network I/O; the decoded answer is the `Response` input, and the lookup is the `fetch` parameter.
- A decoded answer that is not a JSON object, or fields of the wrong type (a string temperature, a non-string description): Python would raise other exceptions; the model's fields are typed.
- `str` of the temperature and feels-like numbers and `str.capitalize` on Cyrillic text (main.py:23, 35): number formatting and Unicode case mapping; they are the functions of the `Rendering` parameter, which sees whether a number is an int or a float and whether a zero float is `-0.0` (so `20` and `20.0`, or `0.0` and `-0.0`, may print differently), and the line-by-line lemmas assume they produce no newline.
- Forecast.GetWeather, Forecast.BandOf: a finite float is taken as the exact real it denotes; that loses nothing for the comparisons with 0, 10 and 20, but float arithmetic is not modelled (none is done).
- The Telegram transport: `reply_text`, `send_message`, `ApplicationBuilder`, handler registration and polling (main.py:38-90): a foreign library and I/O. A handler's result is what it would reply or request.
- `start` (main.py:38-39): a fixed greeting with no decision in it.
- `send_daily` and what `job_queue.run_daily` does with the request (main.py:56-59, 68-75): how a job name replaces an earlier job and the daily firing belong to the library; the model stops at the request.
- Commands.SetCity, Commands.SetCitySchedules: assume that `run_daily` accepts the keyword `replace_existing=True` (main.py:74). If the library's `run_daily` has no such keyword (scheduler options would then go through `job_kwargs`), the call raises `TypeError` and no confirmation is sent (main.py:76); the library is not part of this model, so this is not settled here.
- `ZoneInfo("Europe/Prague")` (main.py:4, 10, 70): time-zone handling; the job carries the zone's name only.
- Reading `TELEGRAM_BOT_TOKEN` and `OPENWEATHER_API_KEY` from the environment (main.py:8-9).
