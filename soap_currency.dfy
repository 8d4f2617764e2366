/** The central-bank backend (app/Services/SoapCurrencyService.php): a
    registry of supported currencies loaded once, a lazily cached snapshot of
    per-unit rates against the rouble, and conversion through the rouble.

    The SOAP operations EnumValutes, GetLatestDateTime and GetCursOnDate are
    not called: what each would answer is passed in, already decoded from XML. */
module SoapCurrency {
  import opened Wrappers
  import opened PhpStrings
  import opened Contracts

  /** The domestic pivot currency every quote is expressed against. */
  const Base: string := "RUB"

  /** The registry entry the service always adds for the rouble. */
  const RubEntry: Entry := Entry("Российский рубль", 1)

  /** One EnumValutes record of the upstream currency list. */
  datatype Valute = Valute(charCode: string, name: string, nom: int)

  /** One ValuteCursOnDate record: `curs` roubles for `nom` units of the currency. */
  datatype Quote = Quote(chCode: string, curs: real, nom: int)

  /** A registry entry: display name and the lot size the upstream lists. */
  datatype Entry = Entry(name: string, nominal: int)

  /** A SOAP fault: its fault code and its message text. */
  datatype Fault = Fault(faultCode: string, message: string)

  /** What EnumValutes answers. */
  datatype EnumResponse = EnumFault(fault: Fault) | EnumOk(valutes: seq<Valute>)

  /** What the two calls behind getLatestRates answer: GetLatestDateTime may
      fault, then GetCursOnDate may fault, or the rates arrive with the
      publication date and the start of the following day, both already
      formatted. */
  datatype RatesResponse =
    | LatestDateFault(fault: Fault)
    | CursFault(fault: Fault)
    | Published(date: string, nextUpdate: string, quotes: seq<Quote>)

  /** Everything the backend raises. All but DivisionByZero are PHP
      RuntimeExceptions; DivisionByZero is PHP 8's DivisionByZeroError,
      which no catch block in the class handles. */
  datatype Error =
    | ConnectionFailed(detail: string)
    | CurrencyListFailed(detail: string)
    | UnsupportedCurrency(code: string)
    | RateNotFound(code: string)
    | ClientFault
    | ServerFault
    | UnknownFault(detail: string)
    | DivisionByZero

  /** The message text each error carries. A message about a currency code
      holds that code at a fixed position; a message that passes on a fault's
      or exception's text ends with that text. */
  function Message(e: Error): (m: string)
    ensures e.UnsupportedCurrency? ==> |m| >= 7 + |e.code| && m[7..7 + |e.code|] == e.code
    ensures e.RateNotFound? ==> |m| >= 16 + |e.code| && m[16..16 + |e.code|] == e.code
    ensures e.ConnectionFailed? || e.CurrencyListFailed? || e.UnknownFault? ==>
              |m| >= |e.detail| && m[|m| - |e.detail|..] == e.detail
  {
    match e
    case ConnectionFailed(d) => "Ошибка подключения к SOAP сервису ЦБ РФ: " + d
    case CurrencyListFailed(d) => "Ошибка получения списка валют: " + d
    case UnsupportedCurrency(c) => "Валюта " + c + " не поддерживается ЦБ РФ"
    case RateNotFound(c) => "Курс для валюты " + c + " не найден в актуальных данных ЦБ РФ"
    case ClientFault => "Ошибка в параметрах запроса к API ЦБ РФ"
    case ServerFault => "Ошибка сервера ЦБ РФ"
    case UnknownFault(d) => "Неизвестная ошибка при работе с API ЦБ РФ: " + d
    case DivisionByZero => "Division by zero"
  }

  /** handleSoapError: the error a SOAP fault is turned into. It always
      yields an error; there is no value it could return instead. */
  function SoapFaultError(f: Fault): (e: Error)
    ensures e.ClientFault? <==> f.faultCode == "SOAP-ENV:Client"
    ensures e.ServerFault? <==> f.faultCode == "SOAP-ENV:Server"
    ensures e.UnknownFault? <==> f.faultCode != "SOAP-ENV:Client" && f.faultCode != "SOAP-ENV:Server"
    ensures e.UnknownFault? ==> e.detail == f.message
  {
    if f.faultCode == "SOAP-ENV:Client" then ClientFault
    else if f.faultCode == "SOAP-ENV:Server" then ServerFault
    else UnknownFault(f.message)
  }

  /** The filter both loops apply: the trimmed code is not PHP-empty. */
  predicate Kept(code: string)
  {
    !IsEmpty(Trim(code))
  }

  /** The registry loop: each kept record, in order, writes its trimmed code's
      entry, so a later duplicate replaces an earlier one. */
  function Upsert(acc: map<string, Entry>, vs: seq<Valute>): (r: map<string, Entry>)
    decreases |vs|
  {
    if vs == [] then acc
    else
      var v := vs[0];
      var acc' := if Kept(v.charCode) then acc[Trim(v.charCode) := Entry(Trim(v.name), v.nom)] else acc;
      Upsert(acc', vs[1..])
  }

  /** The registry loadSupportedCurrencies builds from an empty one. */
  function Registry(vs: seq<Valute>): (r: map<string, Entry>)
    ensures Base in r && r[Base] == RubEntry
  {
    Upsert(map[], vs)[Base := RubEntry]
  }

  /** The per-unit rate of a quote: the quoted price divided by the quote's own lot size. */
  function PerUnit(q: Quote): (r: real)
    requires q.nom != 0
    ensures r * q.nom as real == q.curs
  {
    q.curs / q.nom as real
  }

  /** The rates loop: each kept quote, in order, writes curs / nom under its
      trimmed code; the first kept quote with a zero lot size raises. */
  function Normalize(acc: map<string, real>, qs: seq<Quote>): (r: Result<map<string, real>, Error>)
    ensures r.Failure? ==> r.error == DivisionByZero
    decreases |qs|
  {
    if qs == [] then Success(acc)
    else
      var q := qs[0];
      if !Kept(q.chCode) then Normalize(acc, qs[1..])
      else if q.nom == 0 then Failure(DivisionByZero)
      else Normalize(acc[Trim(q.chCode) := PerUnit(q)], qs[1..])
  }

  /** The loop of getLatestRates over the published quotes, computing
      exactly the map Normalize describes, or its DivisionByZero. */
  method NormalizeQuotes(quotes: seq<Quote>) returns (r: Result<map<string, real>, Error>)
    ensures r == Normalize(map[], quotes)
  {
    var rates: map<string, real> := map[];
    for i := 0 to |quotes|
      invariant Normalize(rates, quotes[i..]) == Normalize(map[], quotes)
    {
      assert quotes[i..][1..] == quotes[i + 1..];
      var code := Trim(quotes[i].chCode);
      if !IsEmpty(code) {
        if quotes[i].nom == 0 {
          return Failure(DivisionByZero);
        }
        rates := rates[code := PerUnit(quotes[i])];
      }
    }
    assert quotes[|quotes|..] == [];
    return Success(rates);
  }

  /** What one uncached getLatestRates produces from the upstream's answers. */
  function FetchSnapshot(resp: RatesResponse): (r: Result<Snapshot, Error>)
    ensures r.Success? ==> resp.Published? && PivotedOnBase(r.value)
    ensures r.Success? ==> r.value.date == resp.date && r.value.nextUpdate == resp.nextUpdate
    ensures !resp.Published? ==> r == Failure(SoapFaultError(resp.fault))
  {
    match resp
    case LatestDateFault(f) => Failure(SoapFaultError(f))
    case CursFault(f) => Failure(SoapFaultError(f))
    case Published(date, nextUpdate, qs) =>
      match Normalize(map[], qs)
      case Failure(e) => Failure(e)
      case Success(m) => Success(Snapshot(m[Base := 1.0], Base, date, nextUpdate))
  }

  /** How many SOAP operations one uncached fetch invokes. */
  function FetchCalls(resp: RatesResponse): nat
  {
    if resp.LatestDateFault? then 1 else 2
  }

  /** getLatestRates as seen from a cache cell: the cached snapshot if there
      is one, otherwise a fresh fetch. */
  function Latest(cached: Option<Snapshot>, resp: RatesResponse): (r: Result<Snapshot, Error>)
    ensures r.Success? <==> CacheAfter(cached, resp).Some?
    ensures r.Success? ==> CacheAfter(cached, resp) == Some(r.value)
  {
    if cached.Some? then Success(cached.value) else FetchSnapshot(resp)
  }

  /** The cache cell after getLatestRates: set by a successful fetch, left
      empty by a failed one, never replaced once set. */
  function CacheAfter(cached: Option<Snapshot>, resp: RatesResponse): (r: Option<Snapshot>)
    ensures cached.Some? ==> r == cached
    ensures r.Some? <==> cached.Some? || FetchSnapshot(resp).Success?
  {
    if cached.Some? then cached
    else match FetchSnapshot(resp)
      case Success(s) => Some(s)
      case Failure(_) => None
  }

  /** How many SOAP operations getLatestRates invokes for a given cache cell. */
  function CallsMade(cached: Option<Snapshot>, resp: RatesResponse): (n: nat)
    ensures n == 0 <==> cached.Some?
    ensures n <= 2
  {
    if cached.Some? then 0 else FetchCalls(resp)
  }

  /** A snapshot of this backend: expressed against the rouble, whose rate is 1. */
  ghost predicate PivotedOnBase(s: Snapshot)
  {
    s.base == Base && Base in s.rates && s.rates[Base] == 1.0
  }

  /** x / y, with PHP 8's DivisionByZeroError for y == 0. */
  function Quotient(x: real, y: real): (r: Result<real, Error>)
    ensures r.Success? <==> y != 0.0
    ensures r.Success? ==> r.value * y == x
    ensures r.Failure? ==> r.error == DivisionByZero
  {
    if y == 0.0 then Failure(DivisionByZero) else Success(x / y)
  }

  /** The rate checks and the three arithmetic branches of convertCurrency,
      once both codes are known to be registered. Never yields a value for a
      code without a rate, and an error about a missing rate names that code. */
  function Cross(rates: map<string, real>, amount: real, from: string, to: string): (r: Result<real, Error>)
    ensures r.Success? ==> from in rates && to in rates
    ensures r.Failure? && r.error.RateNotFound? ==>
              (r.error.code == from && from !in rates) || (r.error.code == to && from in rates && to !in rates)
    ensures from !in rates || to !in rates ==> r.Failure? && r.error.RateNotFound?
  {
    if from !in rates then Failure(RateNotFound(from))
    else if to !in rates then Failure(RateNotFound(to))
    else if from == Base then Quotient(amount, rates[to])
    else if to == Base then Success(amount * rates[from])
    else Quotient(amount * rates[from], rates[to])
  }

  /** The single formula convertCurrency's three branches amount to when the
      rouble's rate is 1: amount * rate[from] / rate[to]. */
  function ThroughBase(rates: map<string, real>, amount: real, from: string, to: string): (r: Result<real, Error>)
    requires from in rates && to in rates
    ensures r.Success? <==> rates[to] != 0.0
    ensures r.Success? ==> r.value * rates[to] == amount * rates[from]
  {
    Quotient(amount * rates[from], rates[to])
  }

  /** With the rouble at rate 1, the three branches are one formula:
      amount * rate[from] / rate[to], failing only when rate[to] is zero. */
  lemma CrossThroughBase(rates: map<string, real>, amount: real, from: string, to: string)
    requires Base in rates && rates[Base] == 1.0
    requires from in rates && to in rates
    ensures Cross(rates, amount, from, to) == ThroughBase(rates, amount, from, to)
  {
  }

  /** The service object. Its registry is filled once, when it is opened; its
      snapshot cache starts empty and is set by the first successful fetch.
      upstreamCalls counts the SOAP operations invoked so far. */
  class SoapCurrencyService {
    var supportedCurrencies: map<string, Entry>
    var currentRates: Option<Snapshot>
    ghost var upstreamCalls: nat

    /** The registry always holds the rouble's fixed entry, and a cached
        snapshot is always expressed against the rouble at rate 1. */
    ghost predicate Valid()
      reads this
    {
      && Base in supportedCurrencies && supportedCurrencies[Base] == RubEntry
      && (currentRates.Some? ==> PivotedOnBase(currentRates.value))
    }

    /** The object before its registry is loaded. It exists only as the
        starting state for Open, which models the PHP constructor; it does
        not yet satisfy Valid(). */
    constructor Blank()
      ensures supportedCurrencies == map[] && currentRates == None && upstreamCalls == 0
    {
      supportedCurrencies := map[];
      currentRates := None;
      upstreamCalls := 0;
    }

    /** The PHP constructor: a SOAP client that could not be created (a fault
        while fetching the WSDL) raises a connection error; otherwise the
        registry is loaded, and a fault from EnumValutes raises the list error. */
    static method Open(wsdlFault: Option<Fault>, resp: EnumResponse) returns (r: Result<SoapCurrencyService, Error>)
      ensures wsdlFault.Some? ==> r == Failure(ConnectionFailed(wsdlFault.value.message))
      ensures wsdlFault.None? && resp.EnumFault? ==> r == Failure(CurrencyListFailed(resp.fault.message))
      ensures wsdlFault.None? && resp.EnumOk? ==>
                && r.Success? && fresh(r.value) && r.value.Valid()
                && r.value.supportedCurrencies == Registry(resp.valutes)
                && r.value.currentRates == None
                && r.value.upstreamCalls == 1
    {
      if wsdlFault.Some? {
        return Failure(ConnectionFailed(wsdlFault.value.message));
      }
      var service := new SoapCurrencyService.Blank();
      var err := service.LoadSupportedCurrencies(resp);
      if err.Some? {
        return Failure(err.value);
      }
      r := Success(service);
    }

    /** loadSupportedCurrencies, private in PHP and called only from the
        constructor, so here only Open calls it. One EnumValutes call; on
        success every kept record is written into the registry in order, then
        the rouble's entry is written over whatever the upstream listed under
        its code. The loop cannot fail, so building the registry in a local
        and storing it once leaves no intermediate state anyone could see. */
    method LoadSupportedCurrencies(resp: EnumResponse) returns (err: Option<Error>)
      modifies this
      ensures currentRates == old(currentRates)
      ensures upstreamCalls == old(upstreamCalls) + 1
      ensures resp.EnumFault? ==>
                err == Some(CurrencyListFailed(resp.fault.message)) && supportedCurrencies == old(supportedCurrencies)
      ensures resp.EnumOk? ==>
                err == None && supportedCurrencies == Upsert(old(supportedCurrencies), resp.valutes)[Base := RubEntry]
    {
      upstreamCalls := upstreamCalls + 1;
      match resp
      case EnumFault(f) =>
        err := Some(CurrencyListFailed(f.message));
      case EnumOk(vs) =>
        var registry := supportedCurrencies;
        for i := 0 to |vs|
          invariant Upsert(registry, vs[i..]) == Upsert(old(supportedCurrencies), vs)
        {
          assert vs[i..][1..] == vs[i + 1..];
          var code := Trim(vs[i].charCode);
          if !IsEmpty(code) {
            registry := registry[code := Entry(Trim(vs[i].name), vs[i].nom)];
          }
        }
        assert vs[|vs|..] == [];
        supportedCurrencies := registry[Base := RubEntry];
        err := None;
    }

    /** getSupportedCurrencies: the registry, read without any upstream call. */
    function GetSupportedCurrencies(): (m: map<string, Entry>)
      reads this
      requires Valid()
      ensures Base in m && m[Base] == RubEntry
    {
      supportedCurrencies
    }

    /** getLatestRates: a cached snapshot is returned as it is, with no
        upstream call; otherwise the rates are fetched and normalised, and a
        successful result is cached while a failure leaves the cache empty. */
    method GetLatestRates(resp: RatesResponse) returns (r: Result<Snapshot, Error>)
      requires Valid()
      modifies this
      ensures Valid()
      ensures supportedCurrencies == old(supportedCurrencies)
      ensures r == Latest(old(currentRates), resp)
      ensures currentRates == CacheAfter(old(currentRates), resp)
      ensures upstreamCalls == old(upstreamCalls) + CallsMade(old(currentRates), resp)
    {
      if currentRates.None? {
        match resp
        case LatestDateFault(f) =>
          upstreamCalls := upstreamCalls + 1;
          return Failure(SoapFaultError(f));
        case CursFault(f) =>
          upstreamCalls := upstreamCalls + 2;
          return Failure(SoapFaultError(f));
        case Published(date, nextUpdate, quotes) =>
          upstreamCalls := upstreamCalls + 2;
          var normalized := NormalizeQuotes(quotes);
          if normalized.Failure? {
            return Failure(normalized.error);
          }
          currentRates := Some(Snapshot(normalized.value[Base := 1.0], Base, date, nextUpdate));
      }
      r := Success(currentRates.value);
    }

    /** convertCurrency: `from`, then `to`, must be registered (checked before
        any rates are fetched); then the snapshot is obtained as by
        getLatestRates and the amount converted through the rouble. */
    method ConvertCurrency(amount: real, from: string, to: string, resp: RatesResponse) returns (r: Result<real, Error>)
      requires Valid()
      modifies this
      ensures Valid()
      ensures from !in old(supportedCurrencies) ==>
                r == Failure(UnsupportedCurrency(from)) && unchanged(this)
      ensures from in old(supportedCurrencies) && to !in old(supportedCurrencies) ==>
                r == Failure(UnsupportedCurrency(to)) && unchanged(this)
      ensures from in old(supportedCurrencies) && to in old(supportedCurrencies) ==>
                && supportedCurrencies == old(supportedCurrencies)
                && currentRates == CacheAfter(old(currentRates), resp)
                && upstreamCalls == old(upstreamCalls) + CallsMade(old(currentRates), resp)
                && r == match Latest(old(currentRates), resp)
                        case Failure(e) => Failure(e)
                        case Success(s) => Cross(s.rates, amount, from, to)
      ensures r.Success? ==>
                && currentRates.Some? && from in currentRates.value.rates && to in currentRates.value.rates
                && r == ThroughBase(currentRates.value.rates, amount, from, to)
    {
      if from !in supportedCurrencies {
        return Failure(UnsupportedCurrency(from));
      }
      if to !in supportedCurrencies {
        return Failure(UnsupportedCurrency(to));
      }
      var latest := GetLatestRates(resp);
      if latest.Failure? {
        return Failure(latest.error);
      }
      r := Cross(latest.value.rates, amount, from, to);
      if r.Success? {
        CrossThroughBase(latest.value.rates, amount, from, to);
      }
    }
  }
}
