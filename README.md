# Voice AI scheduling agent: webhook dispatcher and calendar client

A Dafny model of the backend of a voice-AI scheduling agent. The backend receives the
conversation platform's server messages on `POST /webhook/calendar`, answers every
`book_appointment` tool call by inserting a Google Calendar event, and returns one result per
tool call. The model covers two parts of the code:

- `webhook_calendar` in `backend/main.py`. Every event type except `"tool-calls"` is
  acknowledged with `{}`. For a tool-calls message, each entry's id, tool name and parameters
  are read from the current shape (`name`, `arguments`/`parameters`) or from the legacy
  `function` shape. A booking goes to `create_event`, and any exception it raises becomes an
  apology text. Any other tool name gets `"Unknown tool: <name>"`. The results are collected
  in order.
- `_get_credentials` and `create_event` in `backend/calendar_utils.py`. Credentials come from
  inline service-account JSON, then from a service-account key file, then from the OAuth2
  token cache. A cached token is refreshed (section 6 of RFC 6749) or replaced through the
  consent flow, and the cache file is rewritten when that happens. The event body gets a
  default end time (30 minutes after the start), a default title and a fixed description, and
  is then inserted.

Layout:

- `wrappers.dfy` holds `Option` and `Result`.
- `json.dfy` holds decoded JSON values and the Python semantics the handler relies on:
  truthiness, `dict.get` (the default applies only when the key is absent), `str()`, and the
  type names that appear in exception messages.
- `calendar_utils.dfy` holds the calendar client.
- `webhook.dfy` holds the receiver.

Each imperative piece of the source is a method proved equal to a specification function:

- `GetCredentials` matches `ResolveCredentials`.
- `CreateEvent` matches `CreateEventSpec`.
- `ReadToolCall` matches `ParseToolCall`.
- `AnswerAll` matches `Run`.
- `HandleWebhook` matches `WebhookCalendar`.

The properties are proved about those functions.

Everything outside the program is a parameter:

- the environment variables, as a `Config`;
- the file system, as a `Disk` object holding a map from path to text plus a ghost log of
  writes;
- the Google auth library, as `AuthLibrary`;
- `datetime.fromisoformat` and `isoformat`, as `TimeLibrary`;
- the Calendar API insert, and `str()` of a list or dict, as fields of `Runtime`.

An exception caught inside the handler's `try` block is its message text. An exception
raised outside that block is `InternalError` (an HTTP 500).

Three behaviours of the code are worth stating plainly, since they are easy to misread:

- A tool-call entry that is not a dict, or whose top-level name is falsy and whose `function`
  field is not a dict, raises outside the `try` block. The whole request then fails with a 500
  and the other entries' results are lost. Bookings already made by earlier entries stay made. This is the only way a
  tool call can turn the reply into a non-200 one; a failed booking never does.
- In the legacy shape, the parameters are `function.arguments`, else `function.parameters`,
  else the top-level parameters. The top-level parameters are used whenever the legacy shape
  is read and neither legacy key is present.
- A cached token is refreshed only when it is `expired` and has a refresh token. An invalid,
  unexpired token (no access token) goes to the consent flow.

## Model

| member | source | states |
|---|---|---|
| `Json.Str` | backend/main.py:147 | `str()` of a string is the string itself, so `"Unknown tool: " + name` for a string name |
| `Json.Decimal` | backend/main.py:147 | `str()` of an integer: "0" for zero, otherwise a minus sign exactly for negatives, then digits with no leading zero that read back as the number |
| `CalendarUtils.SelectSource` | backend/calendar_utils.py:41-58 | inline key JSON is chosen exactly when it is set (non-empty); the key file is chosen exactly when inline JSON is unset and the file path is set and exists; otherwise OAuth |
| `CalendarUtils.LoadedToken` | backend/calendar_utils.py:56-58 | no token exactly when the cache file does not exist; otherwise the library's reading of the file, its failure included |
| `CalendarUtils.OAuthStep` | backend/calendar_utils.py:55-76 | an unreadable cache is an error with no write; a valid cached token is returned and not rewritten; an expired token with a refresh token is refreshed, and the refresh's outcome is the result; with no usable token, no client-secret file gives the missing-credentials error and no write, and a client-secret file gives the consent flow's outcome; the cache is written exactly when a refresh or consent succeeded, and what is written is what is returned |
| `CalendarUtils.ResolveCredentials` | backend/calendar_utils.py:37-76 | the first applicable source decides: the inline key, else the key file, else exactly the OAuth branch; only the OAuth branch ever writes the cache, and it writes the token it returns |
| `CalendarUtils.Persist` | backend/calendar_utils.py:72-74 | without a saved token the file system is unchanged; with one, the token path is added or overwritten with the token's JSON and every other file is kept |
| `CalendarUtils.InlineKeyIgnoresDisk` | backend/calendar_utils.py:41-46 | with inline JSON set, the outcome is the same for every file system (even when a key file is configured) and nothing is written |
| `CalendarUtils.MissingCredentialsWritesNothing` | backend/calendar_utils.py:63-68 | no usable token and no client secret give the missing-credentials error and leave the file system unchanged |
| `CalendarUtils.Disk.Write` | backend/calendar_utils.py:73-74 | the file holds the new text and the write is logged |
| `CalendarUtils.GetCredentials` | backend/calendar_utils.py:37-76 | the imperative resolution returns what `ResolveCredentials` returns, leaves the disk as its step says, and logs exactly one token-cache write when a token was saved, none otherwise |
| `CalendarUtils.FromIsoFormat` | backend/calendar_utils.py:109-111 | a value that is not a string raises the TypeError of `fromisoformat` |
| `CalendarUtils.PlusHalfHour` | backend/calendar_utils.py:113 | the end is exactly 30 minutes later with the same UTC offset, or an OverflowError past `datetime.max` |
| `CalendarUtils.EventBodyFor` | backend/calendar_utils.py:108-128 | a bad start fails first; success exactly when the start parses and the end parses (truthy `end_time`) or start + 30 min fits; the default end is start + 30 min; the summary is a truthy title, else "Meeting with <name>"; the description is fixed; start and end share the time zone; a failure after the start parsed is the end's parse error, or the overflow of start + 30 min |
| `CalendarUtils.CreateEventSpec` | backend/calendar_utils.py:85-135 | credentials are resolved first, and their failure is the outcome; then a body failure is the outcome; when both succeed the outcome is exactly the insert's result for those credentials and that body, and a success comes only that way; the disk changes only as credential resolution says |
| `CalendarUtils.CredentialFailureMasksStartTime` | backend/calendar_utils.py:106-109 | when credentials fail, every booking request gets the same outcome (the credential error) whatever its start time |
| `CalendarUtils.CreateEvent` | backend/calendar_utils.py:85-135 | the imperative `create_event` returns the outcome of `CreateEventSpec` and leaves the disk as it says |
| `Webhook.ParseToolCall` | backend/main.py:106-115 | an entry raises exactly when it is not a dict, or its name is falsy and its `function` field is not a dict; the id is `id` (default ""); a truthy top-level name is kept |
| `Webhook.ArgumentsShadowParameters` | backend/main.py:109 | parameters are `arguments` whenever that key is present (whatever it holds), else `parameters`, else `{}` |
| `Webhook.LegacyShape` | backend/main.py:112-115 | with a falsy name, the name is `function.name` (default "") and the parameters are `function.arguments`, else `function.parameters`, else the top-level ones |
| `Webhook.NeitherShape` | backend/main.py:106-115 | an entry with neither shape gets the name "" |
| `Webhook.EquivalentShapes` | backend/main.py:106-115 | the current and the legacy shape give the same call for the same id, name and arguments |
| `Webhook.ReadToolCall` | backend/main.py:106-115 | the imperative extraction, with `tc_name` and `params` reassigned, equals `ParseToolCall` |
| `Webhook.BookingFrom` | backend/main.py:121-126 | `create_event` gets `name` (default "Unknown") and `start_time`, `end_time`, `title` (None when absent); parameters that are not a dict raise the AttributeError, inside the try |
| `Webhook.NameDefaultsOnlyWhenAbsent` | backend/main.py:122 | "Unknown" replaces only an absent name; a present null or "" is passed on |
| `Webhook.SuccessText` | backend/main.py:127-132 | the success text is produced exactly when the event is a dict with a dict `start` holding `dateTime`, and then names its summary, start and link |
| `Webhook.BookingText` | backend/main.py:119-136 | a booking answers with the success text (starting "Appointment booked successfully! Event: ") when the event can be read, otherwise with a text starting "Sorry, I couldn't book the appointment. Error: " |
| `Webhook.Dispatch` | backend/main.py:119-148 | a name other than "book_appointment" answers "Unknown tool: <name>", books nothing and changes nothing; `create_event` is called exactly for a booking with dict parameters, and the answer is the booking text of its outcome; its failure becomes the apology with its message; every booking answer starts with the success or the apology prefix |
| `Webhook.DispatchCall` | backend/main.py:119-148 | the loop body for one call does what `Dispatch` says, and writes nothing when it books nothing |
| `Webhook.Step` | backend/main.py:105-148 | after a failure nothing changes; an entry that raises fails the request and changes nothing else; otherwise exactly one answer, the dispatch's, is appended, earlier results are kept, and at most one booking is recorded |
| `Webhook.Run` | backend/main.py:103-148 | unless an entry raised, one result per entry; never more bookings than results |
| `Webhook.RunAnswersInOrder` | backend/main.py:105-148 | `results[i]` answers `toolCallList[i]`: the same name, `toolCallId` equal to its id, a string result, "Unknown tool: <name>" for other tools, and for "book_appointment" a text starting with the success or the apology prefix |
| `Webhook.RunResultIsDispatch` | backend/main.py:105-148 | `results[i]` is exactly the answer that dispatching entry `i` gives against the file system left by the entries before it |
| `Webhook.RunFailsIff` | backend/main.py:105-115 | the request fails exactly when some entry raises outside the try; booking failures never end the loop |
| `Webhook.RunExtendsPrefix` | backend/main.py:119-148 | results and bookings are only appended: a later entry, a failed booking included, never removes or alters an earlier result |
| `Webhook.RunStopsAtFailure` | backend/main.py:105-115 | after an entry raises, no later entry is processed |
| `Webhook.NoBookingWithoutBookTool` | backend/main.py:143-148 | with no entry named "book_appointment", `create_event` is never called and the disk is unchanged |
| `Webhook.ToolCallList` | backend/main.py:100-105 | a list is iterated as it is; the loop gets through its entries without raising on the value itself exactly when it is a list, an empty string or an empty dict, and the last two give no entries |
| `Webhook.WebhookCalendar` | backend/main.py:89-150 | a non-dict body or message is a 500; any type but "tool-calls" (missing counts as "unknown") gives `{}`, no booking and no disk change; a missing `toolCallList` gives empty results; a `toolCallList` the loop cannot get through (null, a bool, a number, a non-empty string or dict) is a 500 with nothing booked or written; otherwise the reply is a 500 exactly when the loop failed and else the loop's results, and the disk and bookings are the loop's |
| `Webhook.OneResultPerCall` | backend/main.py:100-150 | for a list of tool calls that are all dicts of a readable shape, the reply is a 200 with exactly one result per entry, in order, each answering its entry |
| `Webhook.AnswerAll` | backend/main.py:103-149 | the `for` loop, with `results` appended to, ends as `Run` says and writes nothing when it books nothing |
| `Webhook.HandleWebhook` | backend/main.py:83-150 | the handler replies and leaves the disk as `WebhookCalendar` says, and writes no token when it books nothing |

## Left out

- FastAPI setup, CORS, the `/health` route, the uvicorn entrypoint and all logging (including the 3000-character payload dump). They are framework plumbing or diagnostics.
- A request body that is not JSON (`request.json()` raising) is not modelled. The body arrives already decoded. An uncaught exception is `InternalError`, without FastAPI's error body.
- JSON floats are not modelled; numbers are integers. Objects are maps, so key order is lost. `str()` of a list or dict is therefore the `showContainer` parameter rather than computed.
- The Google client library (`from_service_account_info/file`, `from_authorized_user_file`, `creds.refresh`, the consent flow, `to_json`), `build` and `events().insert().execute()` are foreign calls and network I/O. They are the oracle functions of `AuthLibrary` and `Runtime`. `build` is taken never to raise, and the Calendar's own state is not modelled: the model records the `create_event` calls instead of the events created.
- Environment access (`os.getenv`, `load_dotenv`) is a `Config` read once. `os.path.exists` is membership in the disk's map. `open(...).write` always succeeds: a failing write, for an empty token path for example, is not modelled.
- Token expiry depends on the clock, so `expired` and the access token's presence are given flags. The OAuth scopes are only passed to the library and are not modelled.
- ISO 8601 parsing and formatting are `TimeLibrary` oracles. The model keeps only the 30-minute addition and its overflow at `datetime.max`.
- Races on the token cache file between concurrent requests are not modelled. This is a concurrency concern that the code does not handle.
- `frontend/app.js` is not modelled. It is browser UI code.
- HandleWebhook: states the token-cache write log only for requests that never call `create_event`. The log of a request that books is not tied to a specification function; its effect on the files is.
