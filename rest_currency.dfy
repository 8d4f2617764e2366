/** The REST backend (app/Services/RestCurrencyService.php): every call is one
    GET against the exchange-rate API; a failed response is turned into an
    error by handleApiError, a successful one is copied into the result.

    The HTTP client is a parameter: `http` maps a request path to the decoded
    response the upstream would give for it. The backend keeps no state
    besides its configuration, so each operation is a function. */
module RestCurrency {
  import opened Wrappers
  import opened Contracts

  /** The two configuration values read once by the constructor. */
  datatype Config = Config(apiUrl: string, apiKey: string)

  /** The error categories handleApiError distinguishes. */
  datatype ApiError =
    | UnsupportedCode
    | MalformedRequest
    | InvalidKey
    | InactiveAccount
    | QuotaReached
    | UnknownError

  /** A decoded upstream response: a failed one (HTTP status 400 or above)
      with its optional "error-type" field, or a successful body. */
  datatype Response<T> = Failed(errorType: Option<string>) | Ok(body: T)

  /** The fields of a successful latest-rates body. */
  datatype LatestBody = LatestBody(
    conversionRates: map<string, real>,
    baseCode: string,
    timeLastUpdateUtc: string,
    timeNextUpdateUtc: string)

  /** The field of a successful pair-conversion body. */
  datatype PairBody = PairBody(conversionResult: real)

  /** The "error-type" value the upstream sends for each known category. */
  function WireName(e: ApiError): string
    requires e != UnknownError
  {
    match e
    case UnsupportedCode => "unsupported-code"
    case MalformedRequest => "malformed-request"
    case InvalidKey => "invalid-key"
    case InactiveAccount => "inactive-account"
    case QuotaReached => "quota-reached"
  }

  /** The five error types the upstream documents. */
  const KnownErrorTypes: set<string> :=
    {"unsupported-code", "malformed-request", "invalid-key", "inactive-account", "quota-reached"}

  /** handleApiError: the category of a failed response. A missing
      "error-type" is read as "unknown", which, like every unrecognised
      value, gives the generic category. */
  function HandleApiError(errorType: Option<string>): (e: ApiError)
    ensures e == UnknownError <==> errorType.None? || errorType.value !in KnownErrorTypes
    ensures e != UnknownError ==> errorType == Some(WireName(e))
  {
    var t := if errorType.Some? then errorType.value else "unknown";
    match t
    case "unsupported-code" => UnsupportedCode
    case "malformed-request" => MalformedRequest
    case "invalid-key" => InvalidKey
    case "inactive-account" => InactiveAccount
    case "quota-reached" => QuotaReached
    case _ => UnknownError
  }

  /** The message each category raises; the generic text is raised for the
      generic category only. */
  function Message(e: ApiError): (m: string)
    ensures m == "Неизвестная ошибка при получении курсов валют" <==> e == UnknownError
  {
    match e
    case UnsupportedCode => "Неподдерживаемый код валюты"
    case MalformedRequest => "Неверный формат запроса"
    case InvalidKey => "Неверный API ключ"
    case InactiveAccount => "Аккаунт не активирован"
    case QuotaReached => "Достигнут лимит запросов"
    case UnknownError => "Неизвестная ошибка при получении курсов валют"
  }

  /** The path of the latest-rates request: always against USD. */
  function LatestPath(cfg: Config): (p: string)
    ensures |p| == |cfg.apiUrl| + |cfg.apiKey| + 12
    ensures p[..|cfg.apiUrl| + 1] == cfg.apiUrl + "/"
    ensures p[|cfg.apiUrl| + 1..|cfg.apiUrl| + 1 + |cfg.apiKey|] == cfg.apiKey
    ensures p[|p| - 11..] == "/latest/USD"
  {
    cfg.apiUrl + "/" + cfg.apiKey + "/latest/USD"
  }

  /** The path of the pair-conversion request; `amountText` is the amount as
      PHP interpolates a float into a string. */
  function PairPath(cfg: Config, from: string, to: string, amountText: string): (p: string)
    ensures |p| == |cfg.apiUrl| + |cfg.apiKey| + |from| + |to| + |amountText| + 9
    ensures p[..|cfg.apiUrl| + 1] == cfg.apiUrl + "/"
    ensures p[|cfg.apiUrl| + 1..|cfg.apiUrl| + 1 + |cfg.apiKey|] == cfg.apiKey
    ensures p[|p| - |amountText| - 1..] == "/" + amountText
  {
    cfg.apiUrl + "/" + cfg.apiKey + "/pair/" + from + "/" + to + "/" + amountText
  }

  /** getLatestRates: one request to LatestPath; a failed response always
      raises the mapped error, a successful one is copied field for field. */
  function GetLatestRates(cfg: Config, http: string -> Response<LatestBody>): (r: Result<Snapshot, ApiError>)
    ensures r.Failure? <==> http(LatestPath(cfg)).Failed?
    ensures r.Failure? ==> r.error == HandleApiError(http(LatestPath(cfg)).errorType)
    ensures r.Success? ==> ToLatestBody(r.value) == http(LatestPath(cfg)).body
  {
    match http(LatestPath(cfg))
    case Failed(errorType) => Failure(HandleApiError(errorType))
    case Ok(body) =>
      Success(Snapshot(body.conversionRates, body.baseCode, body.timeLastUpdateUtc, body.timeNextUpdateUtc))
  }

  /** The upstream body a snapshot was copied from. */
  function ToLatestBody(s: Snapshot): LatestBody
  {
    LatestBody(s.rates, s.base, s.date, s.nextUpdate)
  }

  /** convertCurrency: one request to PairPath; a failed response always
      raises the mapped error, a successful one yields the upstream's own
      conversion_result, with no arithmetic done locally. */
  function ConvertCurrency(cfg: Config, amountText: string, from: string, to: string,
                           http: string -> Response<PairBody>): (r: Result<real, ApiError>)
    ensures r.Failure? <==> http(PairPath(cfg, from, to, amountText)).Failed?
    ensures r.Failure? ==> r.error == HandleApiError(http(PairPath(cfg, from, to, amountText)).errorType)
    ensures r.Success? ==> r.value == http(PairPath(cfg, from, to, amountText)).body.conversionResult
  {
    match http(PairPath(cfg, from, to, amountText))
    case Failed(errorType) => Failure(HandleApiError(errorType))
    case Ok(body) => Success(body.conversionResult)
  }

  // ---------------------------------------------------------------------
  // Path segments
  // ---------------------------------------------------------------------

  /** Helper for the path lemmas: splits a path at every '/'. */
  function Split(s: string): (parts: seq<string>)
    ensures |parts| >= 1
    decreases |s|
  {
    if s == [] then [""]
    else
      var rest := Split(s[1..]);
      if s[0] == '/' then [""] + rest
      else [[s[0]] + rest[0]] + rest[1..]
  }

  /** Helper for the path lemmas: joins segments with '/'. */
  function Join(parts: seq<string>): string
    requires |parts| >= 1
    decreases |parts|
  {
    if |parts| == 1 then parts[0] else parts[0] + "/" + Join(parts[1..])
  }

  /** Helper for SplitJoin: a '/'-free prefix extends the first segment. */
  lemma {:induction false} SplitSegment(p: string, rest: string)
    requires '/' !in p
    ensures Split(p + rest) == [p + Split(rest)[0]] + Split(rest)[1..]
    decreases |p|
  {
    if p == [] {
      assert p + rest == rest;
      assert p + Split(rest)[0] == Split(rest)[0];
      assert Split(rest) == [Split(rest)[0]] + Split(rest)[1..];
    } else {
      assert (p + rest)[1..] == p[1..] + rest;
      SplitSegment(p[1..], rest);
      assert [p[0]] + (p[1..] + Split(rest)[0]) == p + Split(rest)[0];
    }
  }

  /** Splitting undoes joining, for segments free of '/'. */
  lemma {:induction false} SplitJoin(parts: seq<string>)
    requires |parts| >= 1
    requires forall k :: 0 <= k < |parts| ==> '/' !in parts[k]
    ensures Split(Join(parts)) == parts
    decreases |parts|
  {
    if |parts| == 1 {
      SplitSegment(parts[0], "");
      assert parts[0] + "" == parts[0];
    } else {
      var tail := Join(parts[1..]);
      SplitJoin(parts[1..]);
      SplitSegment(parts[0], "/" + tail);
      assert ("/" + tail)[0] == '/' && ("/" + tail)[1..] == tail;
      assert Split("/" + tail) == [""] + parts[1..];
      assert parts[0] + "" == parts[0];
      assert parts[0] + "/" + tail == parts[0] + ("/" + tail);
      assert parts == [parts[0]] + parts[1..];
    }
  }

  /** The latest-rates path is the API URL followed by the key, "latest" and
      "USD" as separate segments, so the upstream reads the key back intact. */
  lemma LatestPathSegments(cfg: Config)
    requires '/' !in cfg.apiKey
    ensures LatestPath(cfg)[..|cfg.apiUrl| + 1] == cfg.apiUrl + "/"
    ensures Split(LatestPath(cfg)[|cfg.apiUrl| + 1..]) == [cfg.apiKey, "latest", "USD"]
  {
    var parts := [cfg.apiKey, "latest", "USD"];
    assert Join(parts[2..]) == "USD";
    assert Join(parts[1..]) == "latest" + "/" + "USD";
    assert Join(parts) == cfg.apiKey + "/" + ("latest" + "/" + "USD");
    assert "/latest/USD" == "/" + ("latest" + "/" + "USD");
    assert LatestPath(cfg) == cfg.apiUrl + "/" + Join(parts);
    SplitJoin(parts);
  }

  /** The pair path is the API URL followed by the key, "pair", the two codes
      and the amount as separate segments, so the upstream reads each back. */
  lemma PairPathSegments(cfg: Config, from: string, to: string, amountText: string)
    requires '/' !in cfg.apiKey && '/' !in from && '/' !in to && '/' !in amountText
    ensures PairPath(cfg, from, to, amountText)[..|cfg.apiUrl| + 1] == cfg.apiUrl + "/"
    ensures Split(PairPath(cfg, from, to, amountText)[|cfg.apiUrl| + 1..]) == [cfg.apiKey, "pair", from, to, amountText]
  {
    var parts := [cfg.apiKey, "pair", from, to, amountText];
    assert Join(parts[4..]) == amountText;
    assert Join(parts[3..]) == to + "/" + amountText;
    assert Join(parts[2..]) == from + "/" + (to + "/" + amountText);
    assert Join(parts[1..]) == "pair" + "/" + (from + "/" + (to + "/" + amountText));
    assert Join(parts) == cfg.apiKey + "/" + ("pair" + "/" + (from + "/" + (to + "/" + amountText)));
    assert PairPath(cfg, from, to, amountText) == cfg.apiUrl + "/" + Join(parts);
    SplitJoin(parts);
  }

  // ---------------------------------------------------------------------
  // Error mapping
  // ---------------------------------------------------------------------

  /** Each documented error type is recognised as its own category. */
  lemma HandleApiErrorRecognises(e: ApiError)
    requires e != UnknownError
    ensures WireName(e) in KnownErrorTypes
    ensures HandleApiError(Some(WireName(e))) == e
  {
  }

  /** A missing "error-type" is handled exactly like an unrecognised one. */
  lemma MissingErrorTypeIsUnknown(t: string)
    requires t !in KnownErrorTypes
    ensures HandleApiError(None) == HandleApiError(Some(t)) == UnknownError
  {
  }

  /** Different categories raise different messages, so, for one, a reached
      quota can be told apart from an invalid key. */
  lemma MessagesDistinct(e1: ApiError, e2: ApiError)
    requires e1 != e2
    ensures Message(e1) != Message(e2)
  {
  }

  /** A successful latest-rates response is copied without loss: the
      snapshot gives back exactly the body it came from. */
  lemma LatestRatesCopyBody(cfg: Config, http: string -> Response<LatestBody>)
    requires http(LatestPath(cfg)).Ok?
    ensures GetLatestRates(cfg, http) == Success(Snapshot(
              http(LatestPath(cfg)).body.conversionRates,
              http(LatestPath(cfg)).body.baseCode,
              http(LatestPath(cfg)).body.timeLastUpdateUtc,
              http(LatestPath(cfg)).body.timeNextUpdateUtc))
  {
  }
}
