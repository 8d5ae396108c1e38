/** The calendar client: choosing where Google credentials come from (and when the OAuth token
    cache is rewritten), and building and inserting the event for one booking.

    Everything outside the program is a parameter: the environment variables are a `Config`
    read once, the file system is a `Disk` (or, in the specification functions, the map of
    paths to file texts it holds), and the Google client library, the ISO 8601 parser and
    formatter and the Calendar API insert are total functions given in an `AuthLibrary`, a
    `TimeLibrary` and a `Runtime`. A `Failure` carries the text of the exception raised. */
module CalendarUtils {
  import opened Wrappers
  import opened Json

  /** The file system as the client sees it: the paths that exist and the text each holds. */
  type Files = map<string, string>

  /** Environment variables, each `None` when unset. */
  datatype Config = Config(
    serviceAccountJson: Option<string>,  // GOOGLE_SERVICE_ACCOUNT_JSON: key material inline
    serviceAccountFile: Option<string>,  // GOOGLE_SERVICE_ACCOUNT_FILE: path to a key file
    credentialsFile: Option<string>,     // GOOGLE_CREDENTIALS_FILE: OAuth client secret path
    tokenFile: Option<string>,           // GOOGLE_TOKEN_FILE
    calendarId: Option<string>,          // GOOGLE_CALENDAR_ID
    timeZone: Option<string>)            // TIMEZONE
  {
    /** `os.getenv(name, default)` keeps a variable that is set to "" as "". */
    function TokenPath(): string { tokenFile.GetOr("token.json") }
    function CalendarId(): string { calendarId.GetOr("primary") }
    function TimeZone(): string { timeZone.GetOr("UTC") }
  }

  /** An optional string used as a condition: unset and "" are both false. */
  predicate IsSet(v: Option<string>) {
    v.Some? && v.value != ""
  }

  /** The part of an OAuth2 user token the client looks at. `Valid` is google-auth's
      `creds.valid`: an access token is held and it has not expired. */
  datatype Token = Token(accessToken: Option<string>, expired: bool, refreshToken: Option<string>) {
    predicate Valid() {
      accessToken.Some? && !expired
    }
  }

  /** Credentials handed to the Calendar API: a service account built from key JSON, or a
      user token. */
  datatype Credentials = ServiceAccount(keyInfo: string) | User(token: Token)

  /** The Google auth library. `keyError` is the exception, if any, raised when key JSON is
      parsed into service-account credentials; `loadToken` reads a token cache file's text;
      `refresh` is the refresh-token grant of section 6 of RFC 6749; `consent` runs the
      installed-app consent flow on a client-secret file; `tokenJson` is `creds.to_json()`. */
  datatype AuthLibrary = AuthLibrary(
    keyError: string -> Option<string>,
    loadToken: string -> Result<Token, string>,
    refresh: Token -> Result<Token, string>,
    consent: string -> Result<Token, string>,
    tokenJson: Token -> string)

  const MissingCredentials: string :=
    "No valid Google credentials found. Set GOOGLE_SERVICE_ACCOUNT_FILE or GOOGLE_CREDENTIALS_FILE in .env"

  /** The three credential sources, in priority order. */
  datatype Source = InlineKey(info: string) | KeyFile(path: string) | OAuth

  /** Inline key JSON wins whenever it is set; the key file is used only when its path is set
      and exists; otherwise the OAuth token cache is consulted. */
  function SelectSource(cfg: Config, files: Files): (s: Source)
    ensures s.InlineKey? <==> IsSet(cfg.serviceAccountJson)
    ensures s.InlineKey? ==> s.info == cfg.serviceAccountJson.value
    ensures s.KeyFile? <==>
      !IsSet(cfg.serviceAccountJson) && IsSet(cfg.serviceAccountFile) && cfg.serviceAccountFile.value in files
    ensures s.KeyFile? ==> s.path == cfg.serviceAccountFile.value && s.path in files
  {
    if IsSet(cfg.serviceAccountJson) then InlineKey(cfg.serviceAccountJson.value)
    else if IsSet(cfg.serviceAccountFile) && cfg.serviceAccountFile.value in files then
      KeyFile(cfg.serviceAccountFile.value)
    else OAuth
  }

  function FromServiceKey(auth: AuthLibrary, info: string): Result<Credentials, string> {
    match auth.keyError(info)
    case Some(e) => Failure(e)
    case None => Success(ServiceAccount(info))
  }

  /** The token loaded from the cache file: none when the file does not exist, an error
      when the library cannot read it. */
  function LoadedToken(cfg: Config, auth: AuthLibrary, files: Files): (r: Result<Option<Token>, string>)
    ensures r == Success(None) <==> cfg.TokenPath() !in files
    ensures cfg.TokenPath() in files ==>
      (r.Success? <==> auth.loadToken(files[cfg.TokenPath()]).Success?)
    ensures r.Success? && r.value.Some? ==> r.value.value == auth.loadToken(files[cfg.TokenPath()]).value
    ensures r.Failure? ==> r.error == auth.loadToken(files[cfg.TokenPath()]).error
  {
    var path := cfg.TokenPath();
    if path !in files then Success(None)
    else match auth.loadToken(files[path])
      case Failure(e) => Failure(e)
      case Success(t) => Success(Some(t))
  }

  /** A loaded token that is not valid but has expired and holds a refresh token. */
  predicate Refreshable(t: Option<Token>) {
    t.Some? && !t.value.Valid() && t.value.expired && IsSet(t.value.refreshToken)
  }

  /** Neither a valid token nor one that can be refreshed: only consent can help. */
  predicate NeedsConsent(t: Option<Token>) {
    (t.None? || !t.value.Valid()) && !Refreshable(t)
  }

  predicate HasClientSecret(cfg: Config, files: Files) {
    IsSet(cfg.credentialsFile) && cfg.credentialsFile.value in files
  }

  /** What resolving credentials returns, and the token it writes to the cache file, if any. */
  datatype CredentialStep = CredentialStep(result: Result<Credentials, string>, saved: Option<Token>)

  /** The OAuth branch: use a valid cached token as it is; refresh an expired one that has a
      refresh token; otherwise run the consent flow, which needs a client-secret file. A token
      that was refreshed or newly granted is written back to the cache, and is what is
      returned; a valid cached token is never rewritten, and no failure writes anything. */
  function OAuthStep(cfg: Config, auth: AuthLibrary, files: Files): (step: CredentialStep)
    ensures step.saved.Some? ==> step.result == Success(User(step.saved.value))
    ensures step.result.Failure? ==> step.saved.None?
    ensures var loaded := LoadedToken(cfg, auth, files);
      loaded.Failure? ==> step == CredentialStep(Failure(loaded.error), None)
    ensures var loaded := LoadedToken(cfg, auth, files);
      loaded.Success? && loaded.value.Some? && loaded.value.value.Valid() ==>
        step == CredentialStep(Success(User(loaded.value.value)), None)
    ensures var loaded := LoadedToken(cfg, auth, files);
      loaded.Success? && Refreshable(loaded.value) ==>
        step.result == (match auth.refresh(loaded.value.value)
                        case Success(t) => Success(User(t))
                        case Failure(e) => Failure(e))
    ensures var loaded := LoadedToken(cfg, auth, files);
      loaded.Success? && NeedsConsent(loaded.value) && !HasClientSecret(cfg, files) ==>
        step == CredentialStep(Failure(MissingCredentials), None)
    ensures var loaded := LoadedToken(cfg, auth, files);
      step.saved.Some? <==>
        loaded.Success? &&
        ((Refreshable(loaded.value) && auth.refresh(loaded.value.value).Success?) ||
         (NeedsConsent(loaded.value) && HasClientSecret(cfg, files) &&
          auth.consent(cfg.credentialsFile.value).Success?))
    ensures var loaded := LoadedToken(cfg, auth, files);
      loaded.Success? && NeedsConsent(loaded.value) && HasClientSecret(cfg, files) ==>
        step.result == (match auth.consent(cfg.credentialsFile.value)
                        case Success(t) => Success(User(t))
                        case Failure(e) => Failure(e))
  {
    match LoadedToken(cfg, auth, files)
    case Failure(e) => CredentialStep(Failure(e), None)
    case Success(creds) =>
      if creds.Some? && creds.value.Valid() then CredentialStep(Success(User(creds.value)), None)
      else
        var renewed :=
          if creds.Some? && creds.value.expired && IsSet(creds.value.refreshToken) then
            auth.refresh(creds.value)
          else if !HasClientSecret(cfg, files) then Failure(MissingCredentials)
          else auth.consent(cfg.credentialsFile.value);
        match renewed
        case Failure(e) => CredentialStep(Failure(e), None)
        case Success(t) => CredentialStep(Success(User(t)), Some(t))
  }

  /** `_get_credentials` as a value: the first applicable source decides, and only the OAuth
      branch can write the token cache. */
  function ResolveCredentials(cfg: Config, auth: AuthLibrary, files: Files): (step: CredentialStep)
    ensures step.saved.Some? ==>
      SelectSource(cfg, files).OAuth? && step.result == Success(User(step.saved.value))
    ensures SelectSource(cfg, files).InlineKey? ==>
      step == CredentialStep(FromServiceKey(auth, cfg.serviceAccountJson.value), None)
    ensures SelectSource(cfg, files).KeyFile? ==>
      step == CredentialStep(FromServiceKey(auth, files[cfg.serviceAccountFile.value]), None)
    ensures SelectSource(cfg, files).OAuth? ==> step == OAuthStep(cfg, auth, files)
  {
    match SelectSource(cfg, files)
    case InlineKey(info) => CredentialStep(FromServiceKey(auth, info), None)
    case KeyFile(path) => CredentialStep(FromServiceKey(auth, files[path]), None)
    case OAuth => OAuthStep(cfg, auth, files)
  }

  /** The file system after a credential step: the token cache holds the saved token's JSON. */
  function Persist(cfg: Config, auth: AuthLibrary, files: Files, step: CredentialStep): (r: Files)
    ensures step.saved.None? ==> r == files
    ensures step.saved.Some? ==>
      r.Keys == files.Keys + {cfg.TokenPath()} &&
      r[cfg.TokenPath()] == auth.tokenJson(step.saved.value)
    ensures forall path :: path in files && path != cfg.TokenPath() ==> path in r && r[path] == files[path]
  {
    if step.saved.Some? then files[cfg.TokenPath() := auth.tokenJson(step.saved.value)] else files
  }

  /** Inline key material is used without looking at the file system at all. */
  lemma InlineKeyIgnoresDisk(cfg: Config, auth: AuthLibrary, files1: Files, files2: Files)
    requires IsSet(cfg.serviceAccountJson)
    ensures ResolveCredentials(cfg, auth, files1) == ResolveCredentials(cfg, auth, files2)
    ensures Persist(cfg, auth, files1, ResolveCredentials(cfg, auth, files1)) == files1
  {
  }

  /** With no usable token and no client secret on disk, resolution fails with the
      missing-credentials error and leaves the file system as it was. */
  lemma MissingCredentialsWritesNothing(cfg: Config, auth: AuthLibrary, files: Files)
    requires SelectSource(cfg, files).OAuth?
    requires LoadedToken(cfg, auth, files).Success?
    requires NeedsConsent(LoadedToken(cfg, auth, files).value)
    requires !HasClientSecret(cfg, files)
    ensures ResolveCredentials(cfg, auth, files).result == Failure(MissingCredentials)
    ensures Persist(cfg, auth, files, ResolveCredentials(cfg, auth, files)) == files
  {
  }

  /** The file system, with a log of the paths written (ghost), in order. */
  class Disk {
    var files: Files
    ghost var writes: seq<string>

    constructor (files: Files)
      ensures this.files == files && writes == []
    {
      this.files := files;
      writes := [];
    }

    /** `open(path, "w").write(text)`. */
    method Write(path: string, text: string)
      modifies this
      ensures files == old(files)[path := text]
      ensures writes == old(writes) + [path]
    {
      files := files[path := text];
      writes := writes + [path];
    }
  }

  /** `_get_credentials`: `creds` is reassigned as the branches run, and the token cache is
      written once a token has been refreshed or granted. */
  method GetCredentials(cfg: Config, auth: AuthLibrary, disk: Disk) returns (r: Result<Credentials, string>)
    modifies disk
    ensures var step := ResolveCredentials(cfg, auth, old(disk.files));
      r == step.result &&
      disk.files == Persist(cfg, auth, old(disk.files), step) &&
      disk.writes == old(disk.writes) + (if step.saved.Some? then [cfg.TokenPath()] else [])
  {
    if IsSet(cfg.serviceAccountJson) {
      r := FromServiceKey(auth, cfg.serviceAccountJson.value);
      return;
    }
    if IsSet(cfg.serviceAccountFile) && cfg.serviceAccountFile.value in disk.files {
      r := FromServiceKey(auth, disk.files[cfg.serviceAccountFile.value]);
      return;
    }

    var tokenPath := cfg.TokenPath();
    var creds: Option<Token> := None;
    if tokenPath in disk.files {
      var loaded := auth.loadToken(disk.files[tokenPath]);
      if loaded.Failure? {
        r := Failure(loaded.error);
        return;
      }
      creds := Some(loaded.value);
    }

    if creds.None? || !creds.value.Valid() {
      if creds.Some? && creds.value.expired && IsSet(creds.value.refreshToken) {
        var refreshed := auth.refresh(creds.value);
        if refreshed.Failure? {
          r := Failure(refreshed.error);
          return;
        }
        creds := Some(refreshed.value);
      } else {
        if !IsSet(cfg.credentialsFile) || cfg.credentialsFile.value !in disk.files {
          r := Failure(MissingCredentials);
          return;
        }
        var granted := auth.consent(cfg.credentialsFile.value);
        if granted.Failure? {
          r := Failure(granted.error);
          return;
        }
        creds := Some(granted.value);
      }
      disk.Write(tokenPath, auth.tokenJson(creds.value));
    }
    r := Success(User(creds.value));
  }

  /** A `datetime`: wall-clock microseconds since 0001-01-01T00:00:00 and the UTC offset of an
      aware value, in minutes. */
  datatype DateTime = DateTime(micros: int, utcOffset: Option<int>)

  /** `datetime.fromisoformat` on a string (the error is the ValueError's text) and
      `datetime.isoformat`. */
  datatype TimeLibrary = TimeLibrary(
    parse: string -> Result<DateTime, string>,
    format: DateTime -> string)

  /** `timedelta(minutes=30)`, and `datetime.max` (9999-12-31T23:59:59.999999), in microseconds. */
  const HalfHour: int := 30 * 60 * 1_000_000
  const MaxMicros: int := 3_652_059 * 86_400 * 1_000_000 - 1

  /** `datetime.fromisoformat(v)`: only a string is accepted. */
  function FromIsoFormat(time: TimeLibrary, v: Json): (r: Result<DateTime, string>)
    ensures !v.JStr? ==> r == Failure("fromisoformat: argument must be str")
  {
    if v.JStr? then time.parse(v.s) else Failure("fromisoformat: argument must be str")
  }

  /** `d + timedelta(minutes=30)`: the same offset, 30 minutes later on the wall clock, and an
      OverflowError past `datetime.max`. */
  function PlusHalfHour(d: DateTime): (r: Result<DateTime, string>)
    ensures r.Success? <==> d.micros + HalfHour <= MaxMicros
    ensures r.Success? ==> r.value.micros - d.micros == HalfHour && r.value.utcOffset == d.utcOffset
    ensures r.Failure? ==> r.error == "date value out of range"
  {
    if d.micros + HalfHour <= MaxMicros then Success(d.(micros := d.micros + HalfHour))
    else Failure("date value out of range")
  }

  /** The arguments `create_event` is called with; an absent parameter is `JNull` (None). */
  datatype BookingRequest = BookingRequest(name: Json, startTime: Json, endTime: Json, title: Json)

  datatype EventTime = EventTime(dateTime: string, timeZone: string)

  /** The body sent to the Calendar API's insert. The summary is whatever `title` held when it
      was truthy, so it need not be a string. */
  datatype EventBody = EventBody(summary: Json, description: string, start: EventTime, end: EventTime)

  function DefaultTitle(name: Json, show: Json -> string): string {
    "Meeting with " + Str(name, show)
  }

  function Description(name: Json, show: Json -> string): string {
    "Scheduled by Voice AI Agent for " + Str(name, show) + "."
  }

  /** The event for a booking: the start is parsed first; the end is the parsed `end_time` when
      that is truthy and otherwise 30 minutes after the start; the summary is a truthy `title`
      or "Meeting with <name>"; start and end carry the same time zone. */
  function EventBodyFor(req: BookingRequest, timeZone: string, time: TimeLibrary, show: Json -> string)
    : (r: Result<EventBody, string>)
    ensures FromIsoFormat(time, req.startTime).Failure? ==>
      r == Failure(FromIsoFormat(time, req.startTime).error)
    ensures r.Success? <==>
      FromIsoFormat(time, req.startTime).Success? &&
      (if Truthy(req.endTime) then FromIsoFormat(time, req.endTime).Success?
       else PlusHalfHour(FromIsoFormat(time, req.startTime).value).Success?)
    ensures r.Success? ==>
      r.value.start == EventTime(time.format(FromIsoFormat(time, req.startTime).value), timeZone) &&
      r.value.end.timeZone == timeZone
    ensures r.Success? && !Truthy(req.endTime) ==>
      var start := FromIsoFormat(time, req.startTime).value;
      r.value.end.dateTime == time.format(DateTime(start.micros + HalfHour, start.utcOffset))
    ensures r.Success? && Truthy(req.endTime) ==>
      r.value.end.dateTime == time.format(FromIsoFormat(time, req.endTime).value)
    ensures r.Success? ==>
      r.value.summary == (if Truthy(req.title) then req.title else JStr(DefaultTitle(req.name, show))) &&
      r.value.description == Description(req.name, show)
    ensures FromIsoFormat(time, req.startTime).Success? && r.Failure? ==>
      r.error == (if Truthy(req.endTime) then FromIsoFormat(time, req.endTime).error
                  else PlusHalfHour(FromIsoFormat(time, req.startTime).value).error)
  {
    var start :- FromIsoFormat(time, req.startTime);
    var end :- if Truthy(req.endTime) then FromIsoFormat(time, req.endTime) else PlusHalfHour(start);
    var summary := if Truthy(req.title) then req.title else JStr(DefaultTitle(req.name, show));
    Success(EventBody(summary, Description(req.name, show),
                      EventTime(time.format(start), timeZone), EventTime(time.format(end), timeZone)))
  }

  /** Everything outside the program that a booking touches. `insert` is
      `events().insert(calendarId, body).execute()` with the given credentials; `showContainer`
      is `str()` of a list or dict. */
  datatype Runtime = Runtime(
    config: Config,
    auth: AuthLibrary,
    time: TimeLibrary,
    insert: (string, Credentials, EventBody) -> Result<Json, string>,
    showContainer: Json -> string)

  /** What `create_event` returns or raises, and the file system after it. */
  datatype Booked = Booked(outcome: Result<Json, string>, files: Files)

  /** `create_event`: credentials first, then the event body, then the insert, whose result is
      returned unchanged. A credential failure is reported before, and so hides, a bad or
      missing start time; only the credential step touches the file system. */
  function CreateEventSpec(rt: Runtime, files: Files, req: BookingRequest): (b: Booked)
    ensures var step := ResolveCredentials(rt.config, rt.auth, files);
      b.files == Persist(rt.config, rt.auth, files, step) &&
      (step.result.Failure? ==> b.outcome == Failure(step.result.error))
    ensures var step := ResolveCredentials(rt.config, rt.auth, files);
      var body := EventBodyFor(req, rt.config.TimeZone(), rt.time, rt.showContainer);
      step.result.Success? && body.Failure? ==> b.outcome == Failure(body.error)
    ensures var step := ResolveCredentials(rt.config, rt.auth, files);
      var body := EventBodyFor(req, rt.config.TimeZone(), rt.time, rt.showContainer);
      b.outcome.Success? ==>
        step.result.Success? && body.Success? &&
        b.outcome == rt.insert(rt.config.CalendarId(), step.result.value, body.value)
    ensures var step := ResolveCredentials(rt.config, rt.auth, files);
      var body := EventBodyFor(req, rt.config.TimeZone(), rt.time, rt.showContainer);
      step.result.Success? && body.Success? ==>
        b.outcome == rt.insert(rt.config.CalendarId(), step.result.value, body.value)
  {
    var step := ResolveCredentials(rt.config, rt.auth, files);
    var after := Persist(rt.config, rt.auth, files, step);
    match step.result
    case Failure(e) => Booked(Failure(e), after)
    case Success(creds) =>
      match EventBodyFor(req, rt.config.TimeZone(), rt.time, rt.showContainer)
      case Failure(e) => Booked(Failure(e), after)
      case Success(body) => Booked(rt.insert(rt.config.CalendarId(), creds, body), after)
  }

  /** When credentials cannot be resolved, the booking fails the same way whatever its start
      time, end time, title and name are: a missing or malformed start time is never reached. */
  lemma CredentialFailureMasksStartTime(rt: Runtime, files: Files, req1: BookingRequest, req2: BookingRequest)
    requires ResolveCredentials(rt.config, rt.auth, files).result.Failure?
    ensures CreateEventSpec(rt, files, req1) == CreateEventSpec(rt, files, req2)
    ensures CreateEventSpec(rt, files, req1).outcome ==
      Failure(ResolveCredentials(rt.config, rt.auth, files).result.error)
  {
  }

  /** `create_event`, reading and writing the disk. */
  method CreateEvent(rt: Runtime, disk: Disk, req: BookingRequest) returns (r: Result<Json, string>)
    modifies disk
    ensures var b := CreateEventSpec(rt, old(disk.files), req);
      r == b.outcome && disk.files == b.files
    ensures var step := ResolveCredentials(rt.config, rt.auth, old(disk.files));
      disk.writes == old(disk.writes) + (if step.saved.Some? then [rt.config.TokenPath()] else [])
  {
    var creds := GetCredentials(rt.config, rt.auth, disk);
    if creds.Failure? {
      return Failure(creds.error);
    }
    var body := EventBodyFor(req, rt.config.TimeZone(), rt.time, rt.showContainer);
    if body.Failure? {
      return Failure(body.error);
    }
    r := rt.insert(rt.config.CalendarId(), creds.value, body.value);
  }
}
