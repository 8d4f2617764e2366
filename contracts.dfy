/** The shape shared by both backends (app/Contracts/ICurrencyService.php):
    what getLatestRates returns. */
module Contracts {

  /** A rate snapshot: per-unit rates keyed by currency code, the code the
      rates are expressed against, and two opaque date strings. */
  datatype Snapshot = Snapshot(
    rates: map<string, real>,
    base: string,
    date: string,
    nextUpdate: string)
}
