# currency-visor rate services, modelled in Dafny

This project models the two currency backends of currency-visor. Both satisfy the
`ICurrencyService` contract: "get latest rates" and "convert an amount between two
currency codes".

- **Central-bank backend** (`SoapCurrencyService`, module `SoapCurrency`): a class
  with two pieces of state:
  - the supported-currency registry. It is filled once, when the service is opened.
    The model writes every kept upstream record in order, then writes the rouble's
    fixed entry.
  - a snapshot cache. The first successful `getLatestRates` fills it. Each quote is
    divided by its own lot size, and "RUB" is then forced to 1.0.

  `convertCurrency` first checks `from` and then `to` against the registry. It then
  obtains the snapshot, checks `from` and then `to` against the snapshot's rates, and
  converts through the rouble in three branches. A ghost counter `upstreamCalls`
  counts the SOAP operations invoked, so that memoisation can be stated.
- **REST backend** (`RestCurrency`): pure functions of the configuration and of the
  upstream's answer. A failed response always raises the category `handleApiError`
  maps its `error-type` to. A successful latest-rates body is copied field for field
  into the snapshot. A successful pair body yields the upstream's own
  `conversion_result`.
- **Helper modules.** `Contracts` holds the snapshot shape shared by both backends.
  `PhpStrings` holds PHP's `trim()` and `empty()` as the central-bank backend applies
  them to upstream codes. `Wrappers` holds `Option` and `Result`.
- **Lemmas.** `SoapProperties` proves the central-bank backend's properties about
  the functions that specify its loops, its cache and its arithmetic.

Upstream answers are inputs:
- the SOAP responses are `EnumResponse` and `RatesResponse`, already decoded from XML;
- the REST client is a function `http` from request path to decoded response.

Rates and amounts are `real`.

Points where the PHP code's behaviour is easy to misread:
- **Construction errors.** There is no single construction error. A failure to
  create the SOAP client raises the "connection" message (`ConnectionFailed`). A
  fault from `EnumValutes` raises the "currency list" message (`CurrencyListFailed`).
  The constructor's catch block does not re-wrap that second error.
- **Positive rates.** Nothing enforces strictly positive rates. The model handles a
  zero lot size the way PHP 8 does: `DivisionByZeroError`, which no catch block in
  the class handles, so the cache stays empty. A zero rate in the divisor of a
  conversion is handled the same way.
- **Error types.** Errors are the source's messages grouped into categories, not a
  typed error taxonomy. `SoapCurrency.Message` and `RestCurrency.Message` give the
  exact texts.
- **The code filter.** The filter is PHP `!empty(trim(code))`, so a code that trims
  to "0" is dropped as well as an empty one.
- **Which lot size is used.** Rate normalisation uses each quote's own `Vnom`, not
  the registry's nominal.
- **Codes inside REST paths.** `RestCurrencyService` interpolates the API key,
  `from` and `to` into the request path without escaping, and `ConvertCurrencyRequest`
  checks only that each code has exactly 3 characters. A code containing '/' would
  therefore add a path segment. This is why `LatestPathSegments` and
  `PairPathSegments` require their segments to be free of '/'.

## Model

| member | source | states |
|---|---|---|
| PhpStrings.Trim | app/Services/SoapCurrencyService.php:52 | the result is the middle slice of the input with no blank character at either end, and everything cut off on either side is blank (PHP trim's default character list) |
| PhpStrings.TrimStart | app/Services/SoapCurrencyService.php:52 | the result is a suffix of the input that does not start with a blank, and everything removed is blank |
| PhpStrings.TrimEnd | app/Services/SoapCurrencyService.php:52 | the result is a prefix of the input that does not end with a blank, and everything removed is blank |
| SoapCurrency.SoapFaultError | app/Services/SoapCurrencyService.php:163-172 | The result is the client error if and only if the fault code is "SOAP-ENV:Client", the server error if and only if it is "SOAP-ENV:Server", and otherwise the unknown-fault error, which carries the fault's message. |
| PhpStrings.IsEmpty | app/Services/SoapCurrencyService.php:53 | definition of PHP `empty()` on a string: true exactly for "" and for "0", so "00" and " " are not empty |
| SoapCurrency.Kept | app/Services/SoapCurrencyService.php:52-53 | definition of the code filter both loops apply: a code is kept exactly when its trimmed form is neither "" nor "0" |
| SoapCurrency.Message | app/Services/SoapCurrencyService.php:130-143 | definition of each error's text; the unsupported-currency and missing-rate texts contain the code at a fixed position, and the connection (line 36), currency-list (line 67) and unknown-fault (line 168) texts end with the upstream's message |
| SoapCurrency.Upsert | app/Services/SoapCurrencyService.php:51-59 | definition of the registry loop: each kept record, in order, writes its trimmed code's entry (what this keeps and adds is stated by UpsertKeeps, UpsertAdds, UpsertKeys and UpsertLastWins) |
| SoapCurrency.Registry | app/Services/SoapCurrencyService.php:51-65 | definition of the registry loadSupportedCurrencies builds from an empty one; it always holds "RUB" with the fixed entry |
| SoapCurrency.PerUnit | app/Services/SoapCurrencyService.php:98-102 | the per-unit rate times the quote's lot size gives back the quoted price |
| SoapCurrency.Normalize | app/Services/SoapCurrencyService.php:95-104 | definition of the rates loop: each kept quote, in order, writes Vcurs / Vnom under its trimmed code; a failure is always division by zero |
| SoapCurrency.NormalizeQuotes | app/Services/SoapCurrencyService.php:95-104 | the loop over the published quotes computes exactly the map Normalize describes from an empty one, or stops with its division-by-zero error |
| SoapCurrency.FetchSnapshot | app/Services/SoapCurrencyService.php:79-116 | a fetch succeeds only on a published answer, gives a snapshot with base "RUB" at rate 1.0 carrying the answer's dates, and turns a fault of either SOAP operation into handleSoapError's error |
| SoapCurrency.Latest | app/Services/SoapCurrencyService.php:79-119 | getLatestRates succeeds exactly when the cache holds a snapshot afterwards, and then returns that snapshot |
| SoapCurrency.CacheAfter | app/Services/SoapCurrencyService.php:79-119 | a cached snapshot is never replaced, and the cache is filled afterwards exactly when it was filled before or the fetch succeeded |
| SoapCurrency.CallsMade | app/Services/SoapCurrencyService.php:79-119 | getLatestRates makes no upstream call exactly when a snapshot is cached, and never more than two |
| SoapCurrency.Quotient | app/Services/SoapCurrencyService.php:148-157 | PHP 8 division: it succeeds exactly when the divisor is non-zero, the quotient times the divisor gives back the dividend, and otherwise the error is DivisionByZero |
| SoapCurrency.Cross | app/Services/SoapCurrencyService.php:138-157 | a conversion never yields a value unless both codes have a rate; a missing rate is always an error naming the missing code (`from` first, then `to`) |
| SoapCurrency.ThroughBase | app/Services/SoapCurrencyService.php:156-157 | the one-formula conversion amount * rate[from] / rate[to] succeeds exactly when rate[to] is non-zero, and its value times rate[to] is amount * rate[from] |
| SoapCurrency.CrossThroughBase | app/Services/SoapCurrencyService.php:146-157 | with rate["RUB"] = 1 the three branches coincide: the result is amount * rate[from] / rate[to], an error exactly when rate[to] is zero |
| SoapCurrency.SoapCurrencyService.Blank | app/Services/SoapCurrencyService.php:15-18 | a new object has an empty registry, an empty cache and no upstream calls |
| SoapCurrency.SoapCurrencyService.Open | app/Services/SoapCurrencyService.php:20-38 | a client creation fault raises the connection error; otherwise an EnumValutes fault raises the currency-list error; otherwise a fresh valid object whose registry is `Registry(valutes)`, whose cache is empty, and which has made one upstream call |
| SoapCurrency.SoapCurrencyService.LoadSupportedCurrencies | app/Services/SoapCurrencyService.php:40-69 | one upstream call; on a fault the registry is unchanged and the currency-list error is returned; otherwise the registry is the old one with every kept record written in order, then the rouble's fixed entry written on top; the cache is untouched |
| SoapCurrency.SoapCurrencyService.GetSupportedCurrencies | app/Services/SoapCurrencyService.php:71-74 | the registry as it stands, which always holds "RUB" with its fixed entry |
| SoapCurrency.SoapCurrencyService.GetLatestRates | app/Services/SoapCurrencyService.php:76-123 | with a snapshot cached, returns it and changes nothing; otherwise returns the fetched snapshot or the fetch's error, caches it only on success, adds the SOAP calls made (one or two), and keeps the object invariant (the cache holds only snapshots with base "RUB" at rate 1) |
| SoapCurrency.SoapCurrencyService.ConvertCurrency | app/Services/SoapCurrencyService.php:125-161 | an unregistered `from`, else an unregistered `to`, is rejected with an error naming it and with nothing changed, in particular no upstream call; otherwise the cache and call count evolve as in getLatestRates, and the result is the fetch's error or the conversion of the snapshot's rates; a value returned is always amount * rate[from] / rate[to] over the snapshot now cached |
| SoapProperties.UpsertKeeps | app/Services/SoapCurrencyService.php:51-59 | the registry loop never removes a code that is already present |
| SoapProperties.UpsertAdds | app/Services/SoapCurrencyService.php:51-59 | the trimmed code of every record that passes the filter ends up in the registry |
| SoapProperties.UpsertKeys | app/Services/SoapCurrencyService.php:51-59 | the registry loop adds exactly the trimmed codes of the records that pass the non-empty filter |
| SoapProperties.UpsertUntouched | app/Services/SoapCurrencyService.php:51-59 | a code no kept record carries keeps its previous entry, or stays absent |
| SoapProperties.UpsertLastWins | app/Services/SoapCurrencyService.php:51-59 | a code's entry is the trimmed name and lot size of the last kept record carrying it (a later duplicate overwrites) |
| SoapProperties.RegistryKeys | app/Services/SoapCurrencyService.php:51-65 | after loading, "RUB" is present with name "Российский рубль" and nominal 1 whatever the upstream sent under "RUB", and the keys are exactly "RUB" plus the kept trimmed upstream codes |
| SoapProperties.RegistryEntry | app/Services/SoapCurrencyService.php:51-65 | after loading, each code other than "RUB" maps to the entry of the last upstream record carrying it |
| SoapProperties.NormalizeFailsAt | app/Services/SoapCurrencyService.php:95-104 | a kept quote with lot size zero makes the rates loop fail, whatever comes before or after it |
| SoapProperties.NormalizeSucceeds | app/Services/SoapCurrencyService.php:95-104 | when no kept quote has lot size zero the rates loop succeeds |
| SoapProperties.NormalizeFails | app/Services/SoapCurrencyService.php:95-104 | the rates loop fails exactly when some kept quote has a zero lot size, and then with the division-by-zero error |
| SoapProperties.NormalizeKeeps | app/Services/SoapCurrencyService.php:95-104 | a successful rates loop never removes a code that is already present |
| SoapProperties.NormalizeAdds | app/Services/SoapCurrencyService.php:95-104 | after a successful rates loop the trimmed code of every kept quote is present |
| SoapProperties.NormalizeKeys | app/Services/SoapCurrencyService.php:95-104 | a successful rates loop adds exactly the trimmed codes of the kept quotes |
| SoapProperties.NormalizeUntouched | app/Services/SoapCurrencyService.php:95-104 | a code no kept quote carries keeps its previous rate, or stays absent |
| SoapProperties.NormalizeLastWins | app/Services/SoapCurrencyService.php:95-104 | a code's rate is Vcurs divided by Vnom of the last kept quote carrying it, and that Vnom is non-zero |
| SoapProperties.SnapshotKeys | app/Services/SoapCurrencyService.php:95-116 | a fetched snapshot has base "RUB" with rate 1.0, carries the given dates, and quotes exactly "RUB" plus the kept upstream codes |
| SoapProperties.SnapshotRate | app/Services/SoapCurrencyService.php:95-107 | in a fetched snapshot each code other than "RUB" has the per-unit rate Vcurs / Vnom of its last quote |
| SoapProperties.FetchFailure | app/Services/SoapCurrencyService.php:79-122 | a fetch fails exactly when GetLatestDateTime or GetCursOnDate faults (error given by handleSoapError) or a kept quote has a zero lot size (division by zero) |
| SoapProperties.NominalExample | app/Services/SoapCurrencyService.php:98-102 | a quote of 7550.25 for 100 units of "USD" gives the rate 75.5025 |
| SoapProperties.CacheIsSticky | app/Services/SoapCurrencyService.php:79-119 | once a fetch has filled the cache, every later getLatestRates returns the same snapshot, keeps the cache and makes no upstream call, whatever the upstream would answer |
| SoapProperties.FailedFetchLeavesCacheEmpty | app/Services/SoapCurrencyService.php:79-122 | a fetch that raises leaves the cache empty after at least one upstream call |
| SoapProperties.ReadTwice | app/Services/SoapCurrencyService.php:76-119 | a caller making two getLatestRates calls on one object gets the same snapshot twice once the first succeeds, and only the first call reaches the upstream |
| SoapProperties.ConvertAgainstBase | app/Services/SoapCurrencyService.php:147-153 | converting into "RUB" gives amount * rate[code]; converting out of "RUB" gives amount / rate[code] |
| SoapProperties.ConvertToSelf | app/Services/SoapCurrencyService.php:146-157 | converting a currency with a non-zero rate to itself returns the amount |
| SoapProperties.ConvertRoundTrip | app/Services/SoapCurrencyService.php:146-157 | over the reals, converting from a to b and back returns the original amount when both rates are non-zero |
| SoapProperties.UnsupportedMessageNamesCode | app/Services/SoapCurrencyService.php:129-134 | the unsupported-currency message determines the code it names |
| SoapProperties.RateMessageNamesCode | app/Services/SoapCurrencyService.php:139-144 | the missing-rate message determines the code it names |
| SoapProperties.UnknownFaultMessage | app/Services/SoapCurrencyService.php:165-168 | for an unrecognised fault code the message ends with the fault's own text |
| RestCurrency.HandleApiError | app/Services/RestCurrencyService.php:53-66 | the generic category is chosen exactly when the error type is missing or is not one of the five documented ones; any other category is chosen only by its own wire name |
| RestCurrency.HandleApiErrorRecognises | app/Services/RestCurrencyService.php:56-61 | each of the five documented error types maps to its own category |
| RestCurrency.MissingErrorTypeIsUnknown | app/Services/RestCurrencyService.php:55-62 | a missing error type is handled exactly like an unrecognised one |
| RestCurrency.Message | app/Services/RestCurrencyService.php:57-62 | definition of each category's text; the generic text is raised for the generic category and for no other |
| RestCurrency.LatestPath | app/Services/RestCurrencyService.php:24 | the latest-rates path is the API URL, "/", the key, then "/latest/USD" |
| RestCurrency.PairPath | app/Services/RestCurrencyService.php:42 | the pair path starts with the API URL, "/" and the key, has the length of its parts plus the separators, and ends with "/" and the amount |
| RestCurrency.MessagesDistinct | app/Services/RestCurrencyService.php:56-63 | distinct categories raise distinct messages ("quota-reached" and "invalid-key" can be told apart) |
| RestCurrency.GetLatestRates | app/Services/RestCurrencyService.php:22-38 | the request goes to the latest-rates path; the result is an error exactly when the response failed, and then the mapped category; otherwise the snapshot maps back to exactly the response body |
| RestCurrency.LatestRatesCopyBody | app/Services/RestCurrencyService.php:30-37 | conversion_rates, base_code, time_last_update_utc and time_next_update_utc become rates, base, date and next_update unchanged |
| RestCurrency.ConvertCurrency | app/Services/RestCurrencyService.php:40-51 | the request goes to the pair path for these arguments; the result is an error exactly when the response failed, and then the mapped category; otherwise the upstream's conversion_result itself |
| RestCurrency.SplitJoin | app/Services/RestCurrencyService.php:42 | splitting a '/'-joined path gives back its segments when none contains '/' |
| RestCurrency.LatestPathSegments | app/Services/RestCurrencyService.php:24 | the latest-rates path is the API URL, then the segments key, "latest", "USD" |
| RestCurrency.PairPathSegments | app/Services/RestCurrencyService.php:42 | the pair path is the API URL, then the segments key, "pair", from, to, amount |

## Left out

- Transport is left out: `SoapClient` and `Http::get`. Upstream answers are parameters.
- The `extension_loaded('soap')` check is left out. Its failure only raises a fixed message before any logic runs.
- XML decoding is left out: `SimpleXMLElement`, and the `(float) strval(...)` and `(int)` casts. Records arrive already decoded, and a malformed payload's parse exception is not modelled.
- Carbon date parsing and formatting are left out. The publication date and the start of the next day arrive as opaque, already formatted strings in `Published`.
- PHP float semantics are left out. Rates and amounts are reals.
- SoapProperties.ConvertRoundTrip: the round trip is exact only over the reals. With PHP floats it holds only up to rounding.
- The order of PHP arrays is left out. `getSupportedCurrencies` and the snapshot's `rates` return their entries in insertion order: a later duplicate code keeps its first position, and "RUB" comes last unless the upstream listed it earlier. The model's `map` has no order, so only which codes are present and what each maps to is modelled. No logic in the core depends on the order.
- PHP's conversion of numeric-string array keys to integers is left out. It does not change which lookups succeed, so codes stay strings.
- The REST backend's float-to-string interpolation of the amount is left out. It is the `amountText` parameter.
- REST: a failed response whose body does not decode to a PHP array is left out: invalid or empty JSON, or a JSON string, number, boolean or null. `handleApiError(array …)` would then fail with a TypeError. A JSON list does decode to an array, has no `error-type`, and gives the generic message, as `Failed(None)` does.
- REST: a successful body with missing fields is left out. The decoded body always has its fields.
- `ICurrencyService` becomes only the shared `Snapshot` datatype. The REST backend's operations are functions, and the central-bank backend's are methods of its class.
- `CurrencyController`, `AppServiceProvider`, `routes/api.php`, `ConvertCurrencyRequest` and `resources/js/bootstrap.js` are left out. They are HTTP plumbing, container wiring, declarative validation and browser setup.
- Backend selection is left out. It is a one-line `match` on a request string.
- Concurrency around the snapshot cache is left out. Each PHP request runs in its own process with a fresh service instance.
- The `catch (SoapFault)` in `convertCurrency` has no counterpart in the model. `getLatestRates` already turns its faults into errors, so that catch never fires, and errors simply propagate.
