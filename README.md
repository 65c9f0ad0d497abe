# Long-polling evaluation service — a Dafny model

This project models the core of `nta_eval_svc`, a service that runs
LLM-based evaluations of agent outputs and lets clients wait for an
evaluation job's result by long polling. The model covers:

- **Admission control** (`ConnectionManager`). A per-client map of
  evaluation-id sets and a global set of `(client, id)` pairs, each with a
  cap.
- **The poll loop** (`LongPollingService.poll_for_results`). After
  admission it looks the job up, then re-reads it until the job finishes,
  vanishes, cannot be read, or the time budget runs out. It always releases
  its slot.
- **The HTTP endpoint** (`POST /long-poll/{evaluation_id}`). It derives the
  client address, defaults and validates the timeout, and maps failures to
  status codes.
- **The evaluation service's deterministic parts.** Prompt assembly, the
  offline reply, reading a reply as success or failure, and the majority
  vote.
- **Configuration loading.** Boolean and integer environment variables, the
  API-key check, model-name normalisation, and Celery URL derivation.

Files and modules:

| file | module | contents |
|---|---|---|
| `wrappers.dfy` | `Wrappers` | `Option`, `Result`, `Outcome` |
| `strings.dfy` | `Strings` | `strip`, `lower`, `in`, `split(",")[0]`, `int()` on decimal text |
| `jobs.dfy` | `Jobs` | job status (`STATUS_ENUM`), job record, outcome of one database lookup |
| `config.dfy` | `Config` | `Config.__init__`, `_get_bool`, `_get_int`, `OPENAI_API_KEY` |
| `openai.dfy` | `OpenAI` | `build_prompt`, offline `_call_openai`, success-failure `evaluate_criterion` |
| `polling.dfy` | `Polling` | `ConnectionManager`, `LongPollingService` |
| `api.dfy` | `LongPollApi` | `long_poll` |

Each stateful operation has a pure specification over values, and the class
method is proved to follow it:

- `Admit` specifies `ConnectionManager.Connect`.
- `Release` specifies `ConnectionManager.Disconnect`.
- `Loop` and `Poll` specify the poll loop.
- `PollSession` specifies `LongPollingService.PollForResults`.
- `Endpoint` specifies `LongPoll`.

The lemmas then state the source's promises about those specifications.

The model replaces the source's inputs and side effects as follows:

- **Environment.** A `map<string, string>`.
- **Time.** Integer milliseconds. The clock reading at the start of a poll
  is a parameter. The extra wall-clock time each lookup takes, beyond the
  sleep, is a parameter `lag`. A sleep of zero or less pauses for no time,
  as `asyncio.sleep` does.
- **Database.** A function `reader` from the index of a lookup to its
  outcome: found, missing, or the lookup raised.
- **Language-model client.** An optional injected call and an optional
  client, each a function from the prompt and the call's index to a reply,
  or to nothing when the call raises.
- **Shared configuration.** The long-polling fields of the process-wide
  `Config` object are a class, `PollingConfig`, that the connection manager
  and the service both hold and read on every call. A cap lowered after
  the manager is built therefore applies to the next `connect`.

## Model

| member | source | states |
|---|---|---|
| Strings.Strip | src/nta_eval_svc/config.py:99 | `str.strip()`, with white space as `str.isspace()` defines it: the result is no longer than the input and neither starts nor ends with white space |
| Strings.StripRemovesOnlyPadding | src/nta_eval_svc/config.py:99 | for either white-space class (`str.strip()`'s or `int()`'s), stripping removes only padding: the result is a slice of the input, and everything before and after that slice is white space of that class |
| Strings.StripIdempotent | src/nta_eval_svc/config.py:35 | for either white-space class, stripping twice is stripping once |
| Strings.StripContained | src/nta_eval_svc/services/openai_service.py:60 | for either white-space class, the stripped text occurs inside the original |
| Strings.IntStrip | src/nta_eval_svc/config.py:107 | the text `int()` reads once the white space it skips is gone: tab to carriage return, space and non-ASCII white space, but not the separators `\x1c` to `\x1f` |
| Strings.Lower | src/nta_eval_svc/config.py:99 | `str.lower()` keeps the length and lowers each letter |
| Strings.Contains | src/nta_eval_svc/services/openai_service.py:111-112 | Python's `in` on strings: the empty string occurs in every string, and no string occurs in a shorter one |
| Strings.LowerKeepsContains | src/nta_eval_svc/services/openai_service.py:111-112 | a substring stays a substring, lower-cased, after lower-casing |
| Strings.BeforeFirst | src/nta_eval_svc/routers/long_polling_api.py:42 | `split(sep)[0]` is a prefix free of `sep`, followed by `sep` when shorter than the input |
| Strings.ParseShowInt | src/nta_eval_svc/config.py:107 | `int()` reads back the decimal form of every integer |
| Strings.ParseIntIgnoresPadding | src/nta_eval_svc/config.py:107 | `int()` ignores surrounding white space of the kind it skips |
| Strings.ParseIntRejectsSeparatorPadding | src/nta_eval_svc/config.py:106-109 | `int()` skips less than `strip()`: `"\x1c5"` strips to `"5"`, yet `int()` rejects it |
| Strings.ParseInt | src/nta_eval_svc/config.py:106-109 | `int()` on text: after removing the white space `int()` skips, the text is accepted exactly when it is digits, or a sign followed by digits; anything else (blank, "12abc", "+", "--1", "1 2") is rejected; digits read as their decimal value, and a minus or plus sign negates or keeps it |
| Strings.ShowInt | src/nta_eval_svc/config.py:45 | `f"{n}"`: non-empty, no surrounding white space, a leading minus exactly for negative numbers, digits otherwise |
| Config.EnvOr | src/nta_eval_svc/config.py:18 | `os.getenv(key, default)`: a set variable wins, even when empty |
| Config.NonEmptyEnv | src/nta_eval_svc/config.py:25 | `os.getenv(key) or None`: present exactly when set and non-empty, and then the value |
| Config.GetBool | src/nta_eval_svc/config.py:95-99 | the default when unset; otherwise true iff the stripped, lower-cased value is one of "1", "true", "yes", "on" |
| Config.GetBoolSpellings | tests/test_celery_redis_config.py:80-81 | "false" and "0" read as false; " True " reads as true |
| Config.GetInt | src/nta_eval_svc/config.py:101-109 | the default when unset or unparsable, otherwise the parsed value |
| Config.GetIntShown | src/nta_eval_svc/config.py:106-107 | a variable holding the decimal form of n, alone or padded with the white space `int()` skips, yields n |
| Config.GetIntNoDigits | src/nta_eval_svc/config.py:108-109 | a value with no ASCII digit at all yields the default |
| Config.OpenAIModel | src/nta_eval_svc/config.py:35 | the model name is the stripped variable, or "gpt-3.5-turbo" when it is unset or blank; it is never empty and always stripped |
| Config.Load | src/nta_eval_svc/config.py:16-75 | the loaded model name is non-empty and stripped; the SSL mode and the raw API key are never the empty string |
| Config.OpenAIApiKey | src/nta_eval_svc/config.py:77-92 | the key is returned unchanged exactly when it is present and not blank; otherwise the error |
| Config.ApiKeyFromEnv | src/nta_eval_svc/config.py:33 | end to end: the key is available iff `OPENAI_API_KEY` holds a non-blank value, and then it is that value |
| Config.CeleryUrls | src/nta_eval_svc/config.py:43-50 | each Celery URL is its variable when set, else `redis://host:port/0` from the Redis settings |
| Config.LoadDefaults | src/nta_eval_svc/config.py:67-75 | with nothing set: timeout 30, caps 5 and 1000, rate window 60 and 100, no SSL mode, model "gpt-3.5-turbo", both URLs `redis://localhost:6379/0`, no API key |
| Config.RedisUrl | src/nta_eval_svc/config.py:45 | the derived URL starts with `redis://`, ends with `/0`, and is as long as the host and the port's decimal text plus the fixed parts |
| Config.RedisUrlParts | src/nta_eval_svc/config.py:43-50 | the derived URL names the host, then a colon, then a port that `int()` reads back as the configured one |
| Config.DefaultRedisUrl | src/nta_eval_svc/config.py:45 | the derived default URL is `redis://localhost:6379/0` |
| Config.OverriddenRedisUrl | tests/test_celery_redis_config.py:73 | host `redis.example` and port 6380 derive `redis://redis.example:6380/0` |
| Config.LoadCeleryOverrides | tests/test_celery_redis_config.py:70-81 | with Redis overrides and no explicit broker URL, the broker is derived, the explicit backend wins, and "false"/"0" turn both flags off |
| OpenAI.BuildPrompt | src/nta_eval_svc/services/openai_service.py:54-73 | the prompt starts with the preamble and contains "Method: " + method, the rules, and the stripped agent output (empty when none) |
| OpenAI.OfflineReply | src/nta_eval_svc/services/openai_service.py:109-114 | the offline reply is "50" iff the lower-cased prompt contains "method: score", else "failure" |
| OpenAI.CallReply | src/nta_eval_svc/services/openai_service.py:83-117 | an injected call takes precedence over the client, and only with neither comes the offline reply, which never fails; a raising call makes the reply absent |
| OpenAI.Gather | src/nta_eval_svc/services/openai_service.py:129-134 | the replies of all calls in call order, or none exactly when some call raises |
| OpenAI.OfflineGather | src/nta_eval_svc/services/openai_service.py:109-114 | with neither an injected call nor a client, every call succeeds with the offline reply |
| OpenAI.OfflineScorePrompt | src/nta_eval_svc/services/openai_service.py:110-113 | offline, every prompt built for the score method is answered "50" |
| OpenAI.ParseVerdict | src/nta_eval_svc/services/openai_service.py:153-161 | a reply is a success iff its lower case contains "success" and not "failure"; all else is a failure |
| OpenAI.Verdicts | src/nta_eval_svc/services/openai_service.py:139-168 | `parsed_values`: one reading per reply, in reply order, each the reply's `ParseVerdict` |
| OpenAI.Count | src/nta_eval_svc/services/openai_service.py:175-176 | `sum(1 for p in parsed_values if p == v)`: never more than the number of readings |
| OpenAI.CountAppend | src/nta_eval_svc/services/openai_service.py:167-176 | appending a reading to `parsed_values` adds one to the count of `v` exactly when the reading is `v` |
| OpenAI.CountsPartition | src/nta_eval_svc/services/openai_service.py:175-176 | the success and failure counts add up to the number of replies |
| OpenAI.Majority | src/nta_eval_svc/services/openai_service.py:177-178 | the verdict is success iff successes are more than half the replies, so a tie is a failure |
| OpenAI.AggregateVerdicts | src/nta_eval_svc/services/openai_service.py:139-179 | one sample per reply in order with the raw text and its reading; the counts are those of the readings and add up to the number of replies; success iff more successes than failures |
| OpenAI.EvaluateCriterion | src/nta_eval_svc/services/openai_service.py:119-181 | raises exactly when one of the calls raises; otherwise one entry per call, `samples` of them or none when `samples` is zero or negative (as `range(samples)`), each the i-th reply to the built prompt and its reading, counts adding up to the number of entries, and the majority verdict |
| OpenAI.MajorityScenarios | tests/test_openai_service.py:45-65 | three successes of five win with count 3; two, two and an ambiguous reply lose |
| OpenAI.OfflineUnanimousFailure | src/nta_eval_svc/services/openai_service.py:111-114 | offline, a prompt not asking for a score gets only failures, so the vote is failure |
| Polling.ClientSet | src/nta_eval_svc/services/polling_service.py:70 | `.get(client_ip, set())`: the client's set when it has an entry, else the empty set |
| Polling.Touch | src/nta_eval_svc/services/polling_service.py:50 | subscripting the `defaultdict` creates the client's entry and changes no other |
| Polling.Admit | src/nta_eval_svc/services/polling_service.py:41-56 | a full global set refuses and changes nothing; otherwise admitted iff the client's set is below its cap; admission adds exactly the pair and the id; refusal leaves the global set alone |
| Polling.Release | src/nta_eval_svc/services/polling_service.py:65-78 | the pair leaves the global set and the id leaves the client's set |
| Polling.Drop | src/nta_eval_svc/services/polling_service.py:70-74 | the id leaves the client's set; the entry goes once it is empty; other clients are untouched |
| Polling.Inv | src/nta_eval_svc/services/polling_service.py:36-56 | the invariant under fixed caps: the global set is exactly the pairs of the per-client map, both counts are within their caps, and an empty client entry exists only when the per-client cap is not positive |
| Polling.CoherentMembership | src/nta_eval_svc/services/polling_service.py:54-56 | the global set holds `(c, e)` exactly when `e` is in `c`'s set |
| Polling.EmptyInv | src/nta_eval_svc/services/polling_service.py:36-39 | a new manager satisfies the invariant |
| Polling.AdmitKeepsCoherent | src/nta_eval_svc/services/polling_service.py:44-56 | `connect` keeps the global set equal to the pairs of the per-client map, whatever the caps |
| Polling.ReleaseKeepsCoherent | src/nta_eval_svc/services/polling_service.py:65-74 | `disconnect` keeps the global set equal to the pairs of the per-client map |
| Polling.AdmitKeepsInv | src/nta_eval_svc/services/polling_service.py:44-56 | under unchanged caps, `connect` keeps the invariant, so both counts stay within their caps |
| Polling.ReleaseKeepsInv | src/nta_eval_svc/services/polling_service.py:65-74 | `disconnect` keeps the invariant |
| Polling.ReleaseAbsentIsNoop | src/nta_eval_svc/services/polling_service.py:68-74 | releasing a pair that is not admitted changes nothing |
| Polling.ReleaseIdempotent | src/nta_eval_svc/services/polling_service.py:65-78 | a double release equals a single one |
| Polling.AdmitThenRelease | src/nta_eval_svc/services/polling_service.py:54-74 | connecting a fresh pair and disconnecting it restores the manager exactly |
| Polling.AdmitPresentPair | src/nta_eval_svc/services/polling_service.py:54-56 | connecting an admitted pair again grows neither structure |
| Polling.EnforceLimitsScenario | tests/unit/test_long_polling_service.py:60-79 | with both caps 1: admit, refuse by the global cap, release to the empty state, admit, and refuse the same client's second id, again by the global cap |
| Polling.ClientCapScenario | src/nta_eval_svc/services/polling_service.py:49-52 | with one connection per client and two in all, a client's second id is refused while global capacity remains, changing nothing, and another client is admitted |
| Polling.LoweredCapScenario | tests/integration/test_long_polling_integration.py:108-111 | lowering the per-client cap after two admissions refuses the next id but leaves the client above the new cap; the structures stay coherent and the fixed-cap invariant no longer holds |
| Polling.SleepFor | src/nta_eval_svc/services/polling_service.py:187 | the sleep never exceeds the interval; it equals the interval far from the deadline; it is at least the 10 ms floor unless it equals the interval; an interval of zero or less is the sleep itself |
| Polling.Pause | src/nta_eval_svc/services/polling_service.py:190 | `asyncio.sleep` pauses at least the requested time, and not at all for a delay of zero or less |
| Polling.Expired | src/nta_eval_svc/services/polling_service.py:134-141 | for a job created before the loop starts, the timeout test is exactly "the budget counted from creation is spent"; the loop-runtime safeguard matters only for a creation time after the loop's start |
| Polling.Finish | src/nta_eval_svc/services/polling_service.py:165-181 | a finished job's response is not the timeout marker and carries its id, status, results, error message and completion time |
| Polling.Loop | src/nta_eval_svc/services/polling_service.py:133-194 | the loop makes at least the lookups it started with and ends no earlier than its start |
| Polling.LoopStep | src/nta_eval_svc/services/polling_service.py:186-194 | an unfinished job before the deadline leads to a sleep and the next iteration |
| Polling.LoopExit | src/nta_eval_svc/services/polling_service.py:134-184 | a spent budget times out; otherwise a failed lookup times out, a missing job is a 404, a finished job returns its details |
| Polling.LoopTrace | src/nta_eval_svc/services/polling_service.py:133-194 | every lookup before the last saw an unfinished job; a 404 means the last lookup found nothing; a finished response carries the last job's fields; a timeout means the budget was spent or the last lookup failed |
| Polling.NeverFinishedTimesOut | src/nta_eval_svc/services/polling_service.py:134-141 | a job that stays unfinished ends in a timeout past the budget |
| Polling.LoopEndsByDeadline | src/nta_eval_svc/services/polling_service.py:139-141 | the loop ends within the budget plus one (non-negative) interval plus one lookup's lag |
| Polling.Poll | src/nta_eval_svc/services/polling_service.py:103-131 | a missing job or a failed initial lookup is a 404 after one lookup |
| Polling.PollSession | src/nta_eval_svc/services/polling_service.py:98-201 | connect comes first; a refused session answers 429 with only the connect and the manager as the refusal left it; an admitted one ends with the disconnect, and the pair is no longer held |
| Polling.SessionCalls | src/nta_eval_svc/services/polling_service.py:98-201 | connect first; a refused session returns 429 with no lookup and no disconnect; an admitted one disconnects exactly once, last |
| Polling.SessionNoLeak | src/nta_eval_svc/services/polling_service.py:196-201 | a session keeps the invariant, and an admitted fresh pair leaves the manager as it found it |
| Polling.SessionErrors | src/nta_eval_svc/services/polling_service.py:108-163 | a session can only fail with 429 or 404 |
| Polling.CompletedJobReturnsAtOnce | tests/unit/test_long_polling_service.py:83-114 | a completed job is returned after one loop lookup |
| Polling.OldJobTimesOut | tests/unit/test_long_polling_service.py:139-160 | a job older than the budget times out with no loop lookup |
| Polling.PollsUntilCompletion | tests/unit/test_long_polling_service.py:164-204 | pending, pending, completed gives the completed details after one 10 ms sleep |
| Polling.ZeroIntervalBusyPolls | src/nta_eval_svc/services/polling_service.py:187-190 | with a zero interval every sleep is zero: a job that stays unfinished is looked up once per tick of lookup time, `t` lookups in a budget of `t` ticks, where an interval of at least the floor sleeps 10 ticks or more between lookups |
| Polling.RunLoop | src/nta_eval_svc/services/polling_service.py:133-194 | the `while True` loop returns the response and lookup count of `Loop` |
| Polling.PollingConfig.constructor | src/nta_eval_svc/config.py:67-72 | the shared long-polling settings hold the given default timeout, interval and caps |
| Polling.ConnectionManager.constructor | src/nta_eval_svc/services/polling_service.py:36-39 | both structures start empty, coherent, and tied to the shared configuration |
| Polling.ConnectionManager.Connect | src/nta_eval_svc/services/polling_service.py:41-63 | under the caps configured at the call, the new state is `Admit`'s and the result is a 429 exactly when `Admit` refuses; coherence is kept, and so is the fixed-cap invariant when it held |
| Polling.ConnectionManager.Disconnect | src/nta_eval_svc/services/polling_service.py:65-78 | the new state is `Release`'s; coherence is kept, and so is the fixed-cap invariant when it held |
| Polling.LongPollingService.constructor | src/nta_eval_svc/services/polling_service.py:88-96 | the service holds the shared configuration and its manager |
| Polling.LongPollingService.PollForResults | src/nta_eval_svc/services/polling_service.py:98-201 | with the interval and caps configured at the call, the response, the new manager state and the calls made are `PollSession`'s; the manager stays coherent |
| LongPollApi.ClientIp | src/nta_eval_svc/routers/long_polling_api.py:35-50 | without the header: the peer's non-empty host; failing that, the first element of a non-empty client tuple, else "unknown"; "unknown" also with no peer or an unreadable request |
| LongPollApi.Forwarded | src/nta_eval_svc/routers/long_polling_api.py:39 | `request.headers.get("x-forwarded-for")`: the header's value when present; empty when absent or the request is unreadable, which the handler treats like an empty header |
| LongPollApi.ForwardedIpIsOneEntry | src/nta_eval_svc/routers/long_polling_api.py:39-42 | an address from the header holds no comma and no surrounding white space |
| LongPollApi.ForwardedFirstEntry | src/nta_eval_svc/routers/long_polling_api.py:42 | of several header entries, the first one, stripped, is used |
| LongPollApi.ForwardedSingleEntry | src/nta_eval_svc/routers/long_polling_api.py:40-42 | a single header entry is used stripped |
| LongPollApi.ResolveTimeout | src/nta_eval_svc/routers/long_polling_api.py:52 | the query timeout when given and at least 1, the configured default when absent, 422 otherwise |
| LongPollApi.Respond | src/nta_eval_svc/routers/long_polling_api.py:56-62 | HTTP exceptions pass through unchanged; anything else is 500 "Internal server error", whatever its message |
| LongPollApi.Endpoint | src/nta_eval_svc/routers/long_polling_api.py:23-62 | an invalid timeout is a 422 that leaves the manager untouched; otherwise the new manager state is the poll session's, a successful session's response is the body returned, and a failed session's 404 or 429 reaches the client unchanged |
| LongPollApi.EndpointStatuses | src/nta_eval_svc/routers/long_polling_api.py:34-62 | the endpoint answers 200, 404, 422 or 429 |
| LongPollApi.EndpointKeepsInv | src/nta_eval_svc/routers/long_polling_api.py:54 | a request keeps the shared manager's invariant |
| LongPollApi.LongPoll | src/nta_eval_svc/routers/long_polling_api.py:23-62 | with the default timeout, interval and caps read from the shared configuration, the response and the new manager state are `Endpoint`'s |

## Left out

- The sliding-window rate limiter. `middleware.py` only passes requests through, so there is nothing to model.
- Concurrency. Sessions, and the concurrent calls of `evaluate_criterion`, run one after another. Interleaving of sessions on the shared manager is not modelled.
- OpenAI.EvaluateCriterion: requires a method other than "score". The score path (regular-expression number extraction, clamping, rounding and averaging of floats) is not part of this model.
- `_get_float` and the parsing of `LONG_POLLING_POLL_INTERVAL`. The interval is a field of `PollingConfig` in milliseconds.
- Polling.Loop: the loop is modelled only when the clock moves between timeout tests (`Ticking`): the interval is at least 1 ms, or every lookup takes at least 1 ms. A zero or negative interval combined with lookups faster than a millisecond is not modelled.
- Polling.LongPollingService.PollForResults: the configuration is read once per call. The source reads the interval again on every iteration, which differs only if another task changes it during the poll; interleaving is not modelled.
- Polling.SleepFor: `remaining / 4` is rounded down to whole milliseconds. The source divides floats.
- Polling.Loop: all times are whole milliseconds. `time.time()` is the parameter `t0` plus the given `lag` per lookup, so the time spent before the first timeout test is folded into `t0`.
- `datetime.timestamp()` and `isoformat()`. The creation time is an optional integer, and a missing or malformed one falls back to the start time. The completion time is an opaque optional string. The `isoformat` fallback to `str()` is not modelled.
- The dictionary-building `except` in the terminal branch (a timeout) and a failing `asyncio.sleep` (a timeout). Neither can fail in the model.
- The `getattr` defaults for `id`, `results` and `error_message`. The job record always has these fields.
- The `except Exception` wrapper in `connect`, which turns an internal error into 429, and the one in `disconnect`, which swallows errors. Neither operation can fail in the model.
- SQLAlchemy sessions, statements and `close()`. Each lookup is one outcome of `reader`; closing only logs.
- The OpenAI client call (`openai_service.py:88-107`). Its replies are a given function, which also decides when it raises.
- OpenAI.CallReply: a raising call yields no reply. The exception's type and message, which `evaluate_criterion` re-raises, are not kept.
- `yaml.safe_dump` of non-text rules. The rules are text.
- Strings.ParseInt: restricted to optional white space, an optional sign and ASCII decimal digits. Python's `int()` also accepts underscores between digits and non-ASCII digits, so Config.GetIntNoDigits and Config.GetIntShown speak of ASCII digits only (`int("٣")` is 3 in Python and the default here).
- Strings.ParseInt: no limit on the number of digits. CPython raises `ValueError` for decimal text of more than 4300 digits (its default `int_max_str_digits`), where the model reads the value; Config.GetInt then returns that value instead of the default.
- Strings.Lower: only ASCII letters are lowered. Python's `str.lower()` also lowers other letters.
- LongPollApi.ResolveTimeout: the 422 is produced by the web framework's validation. Its detail text here stands in for the framework's message.
- LongPollApi.ClientIp: header names are looked up in lower case. Case-insensitive matching is left to the caller who builds the request.
- The 500 path is reachable only through failures outside the model, such as the database or framework raising unexpectedly. `Respond` states the mapping, and `EndpointStatuses` shows that no modelled path reaches it.
- Logging throughout.
- The Celery worker, database engine, ORM schema and application wiring. Only the job status values are used.
