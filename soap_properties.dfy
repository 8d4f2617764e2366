/** What the central-bank backend promises, proved about the functions that
    specify its loops, its cache and its arithmetic. */
module SoapProperties {
  import opened Wrappers
  import opened PhpStrings
  import opened Contracts
  import opened SoapCurrency

  /** Upstream record v lands in the registry under code c. */
  predicate Carries(v: Valute, c: string)
  {
    Kept(v.charCode) && Trim(v.charCode) == c
  }

  /** Upstream quote q lands in the rates under code c. */
  predicate Quoted(q: Quote, c: string)
  {
    Kept(q.chCode) && Trim(q.chCode) == c
  }

  /** Quote q passes the code filter and has a zero lot size. */
  predicate ZeroLot(q: Quote)
  {
    Kept(q.chCode) && q.nom == 0
  }

  // ---------------------------------------------------------------------
  // Registry (loadSupportedCurrencies)
  // ---------------------------------------------------------------------

  /** The registry loop never removes a code that is already present. */
  lemma {:induction false} UpsertKeeps(acc: map<string, Entry>, vs: seq<Valute>, c: string)
    requires c in acc
    ensures c in Upsert(acc, vs)
    decreases |vs|
  {
    if vs != [] {
      var v := vs[0];
      var acc' := if Kept(v.charCode) then acc[Trim(v.charCode) := Entry(Trim(v.name), v.nom)] else acc;
      UpsertKeeps(acc', vs[1..], c);
    }
  }

  /** Every kept record's trimmed code ends up in the registry. */
  lemma {:induction false} UpsertAdds(acc: map<string, Entry>, vs: seq<Valute>, i: nat)
    requires i < |vs| && Kept(vs[i].charCode)
    ensures Trim(vs[i].charCode) in Upsert(acc, vs)
    decreases |vs|
  {
    var v := vs[0];
    var acc' := if Kept(v.charCode) then acc[Trim(v.charCode) := Entry(Trim(v.name), v.nom)] else acc;
    if i == 0 {
      UpsertKeeps(acc', vs[1..], Trim(v.charCode));
    } else {
      assert vs[1..][i - 1] == vs[i];
      UpsertAdds(acc', vs[1..], i - 1);
    }
  }

  /** The registry loop adds exactly the codes of the kept records. */
  lemma UpsertKeys(acc: map<string, Entry>, vs: seq<Valute>, c: string)
    ensures c in Upsert(acc, vs) <==> c in acc || exists i :: 0 <= i < |vs| && Carries(vs[i], c)
  {
    if exists i :: 0 <= i < |vs| && Carries(vs[i], c) {
      var i :| 0 <= i < |vs| && Carries(vs[i], c);
      UpsertAdds(acc, vs, i);
    } else {
      UpsertUntouched(acc, vs, c);
    }
  }

  /** A code no kept record carries keeps whatever entry it had. */
  lemma {:induction false} UpsertUntouched(acc: map<string, Entry>, vs: seq<Valute>, c: string)
    requires forall j :: 0 <= j < |vs| ==> !Carries(vs[j], c)
    ensures c in Upsert(acc, vs) <==> c in acc
    ensures c in acc ==> Upsert(acc, vs)[c] == acc[c]
    decreases |vs|
  {
    if vs != [] {
      var v := vs[0];
      var acc' := if Kept(v.charCode) then acc[Trim(v.charCode) := Entry(Trim(v.name), v.nom)] else acc;
      assert !Carries(vs[0], c);
      forall j | 0 <= j < |vs[1..]| ensures !Carries(vs[1..][j], c) {
        assert vs[1..][j] == vs[j + 1];
      }
      UpsertUntouched(acc', vs[1..], c);
    }
  }

  /** The entry under a code is the one built from the last kept record
      carrying it: a later duplicate overwrites an earlier one. */
  lemma {:induction false} UpsertLastWins(acc: map<string, Entry>, vs: seq<Valute>, i: nat)
    requires i < |vs| && Kept(vs[i].charCode)
    requires forall j :: i < j < |vs| ==> !Carries(vs[j], Trim(vs[i].charCode))
    ensures Trim(vs[i].charCode) in Upsert(acc, vs)
    ensures Upsert(acc, vs)[Trim(vs[i].charCode)] == Entry(Trim(vs[i].name), vs[i].nom)
    decreases |vs|
  {
    var v := vs[0];
    var acc' := if Kept(v.charCode) then acc[Trim(v.charCode) := Entry(Trim(v.name), v.nom)] else acc;
    var c := Trim(vs[i].charCode);
    forall j | i <= j < |vs[1..]| ensures !Carries(vs[1..][j], c) {
      assert vs[1..][j] == vs[j + 1];
    }
    if i == 0 {
      UpsertUntouched(acc', vs[1..], c);
    } else {
      assert vs[1..][i - 1] == vs[i];
      UpsertLastWins(acc', vs[1..], i - 1);
    }
  }

  /** After loading, the registry's keys are the rouble plus exactly the
      trimmed, non-empty upstream codes, and the rouble's entry is the fixed
      one whatever the upstream listed under "RUB". */
  lemma RegistryKeys(vs: seq<Valute>, c: string)
    ensures Base in Registry(vs) && Registry(vs)[Base] == RubEntry
    ensures c in Registry(vs) <==> c == Base || exists i :: 0 <= i < |vs| && Carries(vs[i], c)
  {
    UpsertKeys(map[], vs, c);
  }

  /** After loading, every other code's entry is the trimmed name and lot size
      of the last upstream record carrying that code. */
  lemma RegistryEntry(vs: seq<Valute>, i: nat)
    requires i < |vs| && Kept(vs[i].charCode) && Trim(vs[i].charCode) != Base
    requires forall j :: i < j < |vs| ==> !Carries(vs[j], Trim(vs[i].charCode))
    ensures Trim(vs[i].charCode) in Registry(vs)
    ensures Registry(vs)[Trim(vs[i].charCode)] == Entry(Trim(vs[i].name), vs[i].nom)
  {
    UpsertLastWins(map[], vs, i);
  }

  // ---------------------------------------------------------------------
  // Rate normalisation (getLatestRates)
  // ---------------------------------------------------------------------

  /** A kept quote with a zero lot size makes normalisation fail. */
  lemma {:induction false} NormalizeFailsAt(acc: map<string, real>, qs: seq<Quote>, i: nat)
    requires i < |qs| && ZeroLot(qs[i])
    ensures Normalize(acc, qs).Failure?
    decreases |qs|
  {
    var q := qs[0];
    if i > 0 && !ZeroLot(q) {
      var acc' := if Kept(q.chCode) then acc[Trim(q.chCode) := PerUnit(q)] else acc;
      assert qs[1..][i - 1] == qs[i];
      NormalizeFailsAt(acc', qs[1..], i - 1);
    }
  }

  /** Without a kept zero-lot quote normalisation succeeds. */
  lemma {:induction false} NormalizeSucceeds(acc: map<string, real>, qs: seq<Quote>)
    requires forall j :: 0 <= j < |qs| ==> !ZeroLot(qs[j])
    ensures Normalize(acc, qs).Success?
    decreases |qs|
  {
    if qs != [] {
      var q := qs[0];
      var acc' := if Kept(q.chCode) then acc[Trim(q.chCode) := PerUnit(q)] else acc;
      assert !ZeroLot(qs[0]);
      forall j | 0 <= j < |qs[1..]| ensures !ZeroLot(qs[1..][j]) {
        assert qs[1..][j] == qs[j + 1];
      }
      NormalizeSucceeds(acc', qs[1..]);
    }
  }

  /** Normalisation fails exactly when some kept quote has a zero lot size,
      and then with PHP's division-by-zero error. */
  lemma NormalizeFails(acc: map<string, real>, qs: seq<Quote>)
    ensures Normalize(acc, qs).Failure? <==> exists i :: 0 <= i < |qs| && ZeroLot(qs[i])
    ensures Normalize(acc, qs).Failure? ==> Normalize(acc, qs).error == DivisionByZero
  {
    if exists i :: 0 <= i < |qs| && ZeroLot(qs[i]) {
      var i :| 0 <= i < |qs| && ZeroLot(qs[i]);
      NormalizeFailsAt(acc, qs, i);
    } else {
      NormalizeSucceeds(acc, qs);
    }
  }

  /** A successful normalisation never removes a code that is already present. */
  lemma {:induction false} NormalizeKeeps(acc: map<string, real>, qs: seq<Quote>, c: string)
    requires Normalize(acc, qs).Success? && c in acc
    ensures c in Normalize(acc, qs).value
    decreases |qs|
  {
    if qs != [] {
      var q := qs[0];
      var acc' := if Kept(q.chCode) then acc[Trim(q.chCode) := PerUnit(q)] else acc;
      NormalizeKeeps(acc', qs[1..], c);
    }
  }

  /** After a successful normalisation every kept quote's trimmed code is present. */
  lemma {:induction false} NormalizeAdds(acc: map<string, real>, qs: seq<Quote>, i: nat)
    requires Normalize(acc, qs).Success?
    requires i < |qs| && Kept(qs[i].chCode)
    ensures Trim(qs[i].chCode) in Normalize(acc, qs).value
    decreases |qs|
  {
    var q := qs[0];
    var acc' := if Kept(q.chCode) then acc[Trim(q.chCode) := PerUnit(q)] else acc;
    if i == 0 {
      NormalizeKeeps(acc', qs[1..], Trim(q.chCode));
    } else {
      assert qs[1..][i - 1] == qs[i];
      NormalizeAdds(acc', qs[1..], i - 1);
    }
  }

  /** A successful normalisation adds exactly the codes of the kept quotes. */
  lemma NormalizeKeys(acc: map<string, real>, qs: seq<Quote>, c: string)
    requires Normalize(acc, qs).Success?
    ensures c in Normalize(acc, qs).value <==> c in acc || exists i :: 0 <= i < |qs| && Quoted(qs[i], c)
  {
    if exists i :: 0 <= i < |qs| && Quoted(qs[i], c) {
      var i :| 0 <= i < |qs| && Quoted(qs[i], c);
      NormalizeAdds(acc, qs, i);
    } else {
      NormalizeUntouched(acc, qs, c);
    }
  }

  /** A code no kept quote carries keeps whatever rate it had. */
  lemma {:induction false} NormalizeUntouched(acc: map<string, real>, qs: seq<Quote>, c: string)
    requires Normalize(acc, qs).Success?
    requires forall j :: 0 <= j < |qs| ==> !Quoted(qs[j], c)
    ensures c in Normalize(acc, qs).value <==> c in acc
    ensures c in acc ==> Normalize(acc, qs).value[c] == acc[c]
    decreases |qs|
  {
    if qs != [] {
      var q := qs[0];
      var acc' := if Kept(q.chCode) then acc[Trim(q.chCode) := PerUnit(q)] else acc;
      assert !Quoted(qs[0], c);
      forall j | 0 <= j < |qs[1..]| ensures !Quoted(qs[1..][j], c) {
        assert qs[1..][j] == qs[j + 1];
      }
      NormalizeUntouched(acc', qs[1..], c);
    }
  }

  /** The rate under a code is the last kept quote's Vcurs divided by that
      quote's own Vnom. */
  lemma {:induction false} NormalizeLastWins(acc: map<string, real>, qs: seq<Quote>, i: nat)
    requires Normalize(acc, qs).Success?
    requires i < |qs| && Kept(qs[i].chCode)
    requires forall j :: i < j < |qs| ==> !Quoted(qs[j], Trim(qs[i].chCode))
    ensures qs[i].nom != 0
    ensures Trim(qs[i].chCode) in Normalize(acc, qs).value
    ensures Normalize(acc, qs).value[Trim(qs[i].chCode)] == PerUnit(qs[i])
    decreases |qs|
  {
    var q := qs[0];
    var acc' := if Kept(q.chCode) then acc[Trim(q.chCode) := PerUnit(q)] else acc;
    var c := Trim(qs[i].chCode);
    forall j | i <= j < |qs[1..]| ensures !Quoted(qs[1..][j], c) {
      assert qs[1..][j] == qs[j + 1];
    }
    assert Normalize(acc, qs) == Normalize(acc', qs[1..]) by {
      assert !(Kept(q.chCode) && q.nom == 0);
    }
    if i == 0 {
      NormalizeUntouched(acc', qs[1..], c);
    } else {
      assert qs[1..][i - 1] == qs[i];
      NormalizeLastWins(acc', qs[1..], i - 1);
    }
  }

  /** A fetched snapshot is expressed against the rouble at rate 1, carries
      the publication dates it was given, and quotes exactly the rouble and
      the kept upstream codes. */
  lemma SnapshotKeys(resp: RatesResponse, c: string)
    requires FetchSnapshot(resp).Success?
    ensures resp.Published?
    ensures PivotedOnBase(FetchSnapshot(resp).value)
    ensures FetchSnapshot(resp).value.date == resp.date
    ensures FetchSnapshot(resp).value.nextUpdate == resp.nextUpdate
    ensures c in FetchSnapshot(resp).value.rates <==>
              c == Base || exists i :: 0 <= i < |resp.quotes| && Quoted(resp.quotes[i], c)
  {
    NormalizeKeys(map[], resp.quotes, c);
  }

  /** In a fetched snapshot, every code other than the rouble is quoted per
      unit: Vcurs divided by Vnom of the last quote carrying it. */
  lemma SnapshotRate(resp: RatesResponse, i: nat)
    requires FetchSnapshot(resp).Success? && resp.Published?
    requires i < |resp.quotes| && Kept(resp.quotes[i].chCode) && Trim(resp.quotes[i].chCode) != Base
    requires forall j :: i < j < |resp.quotes| ==> !Quoted(resp.quotes[j], Trim(resp.quotes[i].chCode))
    ensures resp.quotes[i].nom != 0
    ensures Trim(resp.quotes[i].chCode) in FetchSnapshot(resp).value.rates
    ensures FetchSnapshot(resp).value.rates[Trim(resp.quotes[i].chCode)]
              == resp.quotes[i].curs / resp.quotes[i].nom as real
  {
    NormalizeLastWins(map[], resp.quotes, i);
  }

  /** A fetch fails exactly when one of the two SOAP calls faults (mapped by
      handleSoapError) or a kept quote has a zero lot size. */
  lemma FetchFailure(resp: RatesResponse)
    ensures FetchSnapshot(resp).Failure? <==>
              !resp.Published? || exists i :: 0 <= i < |resp.quotes| && ZeroLot(resp.quotes[i])
    ensures !resp.Published? ==> FetchSnapshot(resp) == Failure(SoapFaultError(resp.fault))
    ensures resp.Published? && FetchSnapshot(resp).Failure? ==> FetchSnapshot(resp).error == DivisionByZero
  {
    if resp.Published? {
      NormalizeFails(map[], resp.quotes);
    }
  }

  /** A quote of 7550.25 roubles per 100 dollars gives 75.5025 per dollar. */
  lemma NominalExample()
    ensures Normalize(map[], [Quote("USD", 7550.25, 100)]) == Success(map["USD" := 75.5025])
  {
    assert Trim("USD") == "USD";
    assert Kept("USD");
  }

  // ---------------------------------------------------------------------
  // Snapshot cache
  // ---------------------------------------------------------------------

  /** Once a fetch has filled the cache, every later getLatestRates returns
      that same snapshot, leaves the cache as it is and calls nothing upstream,
      whatever the upstream would now answer. */
  lemma CacheIsSticky(cached: Option<Snapshot>, first: RatesResponse, later: RatesResponse)
    requires CacheAfter(cached, first).Some?
    ensures Latest(cached, first) == Success(CacheAfter(cached, first).value)
    ensures Latest(CacheAfter(cached, first), later) == Latest(cached, first)
    ensures CacheAfter(CacheAfter(cached, first), later) == CacheAfter(cached, first)
    ensures CallsMade(CacheAfter(cached, first), later) == 0
  {
  }

  /** A fetch that raises leaves the cache empty. */
  lemma FailedFetchLeavesCacheEmpty(resp: RatesResponse)
    requires FetchSnapshot(resp).Failure?
    ensures CacheAfter(None, resp) == None
    ensures CallsMade(None, resp) > 0
  {
  }

  // ---------------------------------------------------------------------
  // Conversion (convertCurrency)
  // ---------------------------------------------------------------------

  /** Converting into roubles multiplies by the rate; converting out of
      roubles divides by it. */
  lemma ConvertAgainstBase(rates: map<string, real>, amount: real, code: string)
    requires Base in rates && rates[Base] == 1.0 && code in rates
    ensures Cross(rates, amount, code, Base) == Success(amount * rates[code])
    ensures Cross(rates, amount, Base, code) == Quotient(amount, rates[code])
  {
  }

  /** Converting a currency to itself returns the amount unchanged. */
  lemma ConvertToSelf(rates: map<string, real>, amount: real, code: string)
    requires Base in rates && rates[Base] == 1.0 && code in rates && rates[code] != 0.0
    ensures Cross(rates, amount, code, code) == Success(amount)
  {
  }

  /** Over the reals, converting there and back returns the original amount. */
  lemma ConvertRoundTrip(rates: map<string, real>, amount: real, a: string, b: string)
    requires Base in rates && rates[Base] == 1.0
    requires a in rates && b in rates && rates[a] != 0.0 && rates[b] != 0.0
    ensures Cross(rates, amount, a, b).Success?
    ensures Cross(rates, Cross(rates, amount, a, b).value, b, a) == Success(amount)
  {
    CrossThroughBase(rates, amount, a, b);
    var y := amount * rates[a] / rates[b];
    CrossThroughBase(rates, y, b, a);
    assert y * rates[b] == amount * rates[a];
    assert y * rates[b] / rates[a] == amount;
  }

  // ---------------------------------------------------------------------
  // Error messages
  // ---------------------------------------------------------------------

  /** The unsupported-currency message names the code: different codes give
      different messages. */
  lemma {:induction false} UnsupportedMessageNamesCode(a: string, b: string)
    requires Message(UnsupportedCurrency(a)) == Message(UnsupportedCurrency(b))
    ensures a == b
  {
    var pre, post := "Валюта ", " не поддерживается ЦБ РФ";
    var ma, mb := pre + a + post, pre + b + post;
    assert |a| == |b|;
    assert ma[|pre|..|pre| + |a|] == a;
    assert mb[|pre|..|pre| + |b|] == b;
  }

  /** The missing-rate message names the code: different codes give
      different messages. */
  lemma {:induction false} RateMessageNamesCode(a: string, b: string)
    requires Message(RateNotFound(a)) == Message(RateNotFound(b))
    ensures a == b
  {
    var pre, post := "Курс для валюты ", " не найден в актуальных данных ЦБ РФ";
    var ma, mb := pre + a + post, pre + b + post;
    assert |a| == |b|;
    assert ma[|pre|..|pre| + |a|] == a;
    assert mb[|pre|..|pre| + |b|] == b;
  }

  /** handleSoapError: an unrecognised fault code gives the generic message
      followed by the fault's own text. */
  lemma UnknownFaultMessage(f: Fault)
    requires f.faultCode != "SOAP-ENV:Client" && f.faultCode != "SOAP-ENV:Server"
    ensures |f.message| <= |Message(SoapFaultError(f))|
    ensures Message(SoapFaultError(f))[|Message(SoapFaultError(f))| - |f.message|..] == f.message
  {
  }

  // ---------------------------------------------------------------------
  // A caller's view of the service object
  // ---------------------------------------------------------------------

  /** Two getLatestRates calls on one object: once the first has succeeded,
      the second returns the same snapshot and makes no upstream call. */
  method ReadTwice(service: SoapCurrencyService, first: RatesResponse, second: RatesResponse)
    returns (r1: Result<Snapshot, Error>, r2: Result<Snapshot, Error>)
    requires service.Valid()
    modifies service
    ensures service.Valid()
    ensures r1.Success? ==> r2 == r1
    ensures r1.Success? ==> service.upstreamCalls == old(service.upstreamCalls) + CallsMade(old(service.currentRates), first)
    ensures r1.Success? ==> service.currentRates == Some(r1.value)
  {
    r1 := service.GetLatestRates(first);
    r2 := service.GetLatestRates(second);
  }

}
