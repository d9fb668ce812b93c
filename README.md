# PSE negative-price alert, modelled in Dafny

The script polls the Polish transmission operator's price report (PSE `crb-prog`) once per
scheduled invocation. It takes the day's rows of (business date, interval `od_do`, forecast
price `cen`) and looks at the last two. A price that flips sign is an event: strictly
positive to strictly negative ("Cena ujemna.", negative price) or strictly negative to
strictly positive ("Cena dodatnia.", positive price). If the event is new, the script sends one SMS
and records the newest row's id under `last_event_id` in a one-object JSON state file. A
record whose id is already stored is never reported again.

The project has two modules:

- `price_signal.dfy`, module `PriceSignal`: the price record and the sign-flip classifier
  `Detect`. It also holds the alert text `Message` and its inverse `KindOf`, and a `Sign`
  function as an independent reference for the rule.
- `price_job.dfy`, module `PriceJob`: one run as a pure function `RunSpec`, and the
  imperative class `Monitor`. The class holds the state file and the SMS outbox, and its
  methods follow `load_last_state`, `save_last_state`, `send_sms` and
  `fetch_and_process_data` step by step. `FetchAndProcessData` is proved equal to
  `RunSpec`. `Replay` chains runs, as the scheduler does, and lemmas about it show that
  duplicates are suppressed over any number of runs.

The outside world enters as parameters. The fetch result is `Option<seq<PriceRecord>>`,
where `None` is a failed request. The record's JSON encoding and the table rendering are
function-typed parameters. `Effects` records whether the write that creates the state file
succeeded, whether the SMS was delivered, and whether the event write succeeded. The
source swallows each of these failures.

The messages follow the code, which writes the headlines in Polish ("Cena ujemna." and
"Cena dodatnia.").

## Model

| member | source | states |
|---|---|---|
| `PriceSignal.Detect` | pse_gh.py:96-103 | negative price iff older > 0 and newer < 0; positive price iff older < 0 and newer > 0; a flagged pair has no zero |
| `PriceSignal.DetectIsSignFlip` | pse_gh.py:96-101 | the classifier flags exactly the pairs whose signs multiply to -1, and the flip direction picks the kind |
| `PriceSignal.ZeroIsNeverSignificant` | pse_gh.py:96-103 | a zero price on either side is never an event |
| `PriceSignal.DetectReversed` | pse_gh.py:96-101 | swapping the two records swaps negative and positive and keeps "no change" |
| `PriceSignal.Message` | pse_gh.py:97-103 | the negative and positive messages start with their headline and a space and end with the rendered records; otherwise it is the fixed no-change sentence |
| `PriceSignal.KindOfMessage` | pse_gh.py:97-103 | whatever the rendering, the kind can be read back from the message: the three texts never collide |
| `PriceJob.StoredId` | pse_gh.py:108 | the stored id is present exactly when the file exists and holds `last_event_id`, and it is that value |
| `PriceJob.FileAfterLoad` | pse_gh.py:31-37 | loading keeps an existing file; an absent one is created as `{}` only if the write succeeds; the stored id is unchanged |
| `PriceJob.RunSpec` | pse_gh.py:74-110 | one run: it alerts only with two or more rows and only for an id other than the stored one; after an alert whose write succeeds the file is exactly `{last_event_id: id}`; without an alert the stored id is unchanged |
| `PriceJob.AlertIffFreshFlip` | pse_gh.py:84-110 | a run alerts iff there are two rows, they flip sign and the newest id differs from the stored one; the alert carries the newest row's id and exactly the message of the flip's kind over the last two rows; the new state is exactly `{last_event_id: id}` when the write succeeds |
| `PriceJob.NoDecisionWithoutTwoRows` | pse_gh.py:74-118 | a failed fetch, no rows or one row: no SMS and the state file untouched, not even created |
| `PriceJob.OnlyLastTwoRowsMatter` | pse_gh.py:83-90 | the run over all rows equals the run over the last two, older then newer |
| `PriceJob.QuietRunKeepsState` | pse_gh.py:92-108 | without an alert the stored id is unchanged, and an existing file is left as it was |
| `PriceJob.FreshStateAlertsOnFlip` | pse_gh.py:92-108 | with no file or no stored id, every sign flip is reported |
| `PriceJob.DeliveryDoesNotAffectState` | pse_gh.py:109-110 | the state a run leaves is the same whether or not the SMS was delivered |
| `PriceJob.SecondRunIsQuiet` | pse_gh.py:108-110 | after a run that alerted and saved, a second run on the same rows sends nothing and changes nothing |
| `PriceJob.FailedSaveAlertsAgain` | pse_gh.py:39-46 | if the event write failed, the next run on the same rows sends the same alert again |
| `PriceJob.NewEventIsReported` | pse_gh.py:90-108 | when the stored id is that of a handled record, a flip whose newest record differs from it and is encoded differently is reported |
| `PriceJob.Replay` | pse_gh.py:121 | stands for repeated scheduled invocations of the script, each starting from the file the previous one left; each run adds at most one alert |
| `PriceJob.QuietStaysQuiet` | pse_gh.py:108 | once no alert is due for some rows, repeated runs on them alert never and keep the stored id |
| `PriceJob.RepeatedRunsAlertAtMostOnce` | pse_gh.py:107-110 | any number of runs on the same rows, with event writes succeeding, send at most one SMS |
| `PriceJob.StoredIdWasReported` | pse_gh.py:108-110 | after any runs, the stored id is the initial one or the id of an alert that was sent |
| `PriceJob.StoredIdIsLastAlert` | pse_gh.py:108-110 | when every event write succeeds, the stored id is the id of the last alert, or the initial one if none |
| `PriceJob.Monitor.SaveLastState` | pse_gh.py:39-46 | the file becomes the given object, or stays as it was if the write fails |
| `PriceJob.Monitor.LoadLastState` | pse_gh.py:29-37 | an existing file is returned unchanged; an absent one reads as `{}` and is created empty if the write succeeds |
| `PriceJob.Monitor.SendSms` | pse_gh.py:48-59 | exactly one attempt is appended to the outbox, delivered or not, and nothing else changes |
| `PriceJob.Monitor.FetchAndProcessData` | pse_gh.py:61-118 | the new state file and the SMS appended are exactly those of `RunSpec` on the old state |

## Left out

- The HTTP request to the report API, the date filter built from today's date, `raise_for_status` and JSON decoding: these are network I/O and the clock. The run receives their result as `Option<seq<PriceRecord>>`.
- pandas DataFrame building, column renaming and `to_string`: these are library calls. The rendering of the last two rows is a parameter `render`.
- `to_json` of the newest row: this is a library call. It is a parameter `encode`.
- Logging, Twilio client construction and the dotenv/environment configuration: these are foreign calls. An SMS is an outbox entry whose delivery flag comes from `Effects`.
- File-system details: the state file is an in-memory `Option<map<string, string>>`. A state file whose top level is not a JSON object, or that fails to parse, makes the source raise an uncaught exception. The model assumes this does not happen.
- PriceJob.Monitor.LoadLastState: values in the state object are strings. The source also accepts an object such as `{"last_event_id": null}` or `{"last_event_id": 5}`; such a value never equals the current id, so the run behaves as if a different id were stored. Those files fall outside `map<string, string>`.
- PriceJob.Monitor.SaveLastState: a failed write leaves the old file. In the source, opening the file for writing empties it before the JSON is dumped, so a failure during the dump or the close can leave an empty or partial file, and the next load then raises an uncaught exception. The model does not capture a truncated file.
- `encode` is not required to be injective. The source's `to_json` rounds prices, so two records can share an id; `NewEventIsReported` asks only that the two records it compares get different ids.
- Prices that are NaN or missing: these are floating-point specifics. Prices are `real` and are only compared with zero.
- The empty-data and one-row branches differ in the source only in what they log. Both are modelled as doing nothing.
