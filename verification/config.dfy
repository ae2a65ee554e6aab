/** The configuration the money.js conversion engine reads on every call: the
    rate table, the base currency and the default from/to currencies.

    The library keeps these on a process-wide object; here they are one
    immutable record that every operation takes and returns. Currency codes are
    strings, and the empty string stands for a code that was not given: in the
    library an absent code and an empty one are both falsy and are treated
    alike. */
module Config {

  type Code = string

  /** Default currencies used by `convert` when the options leave them out. */
  datatype Settings = Settings(from: Code, to: Code)

  /** The library object: rates relative to `base`, the base code, the defaults. */
  datatype Fx = Fx(rates: map<Code, real>, base: Code, settings: Settings)

  /** The options object handed to `convert`; "" means the field is missing. */
  datatype Opts = Opts(from: Code, to: Code)

  /** The library's only failure: the string it throws when a rate is unusable. */
  datatype Outcome<+T> = Ok(value: T) | Thrown

  /** The rate table with the base currency's own entry forced to 1. Nothing
      else in the record changes. */
  function Normalise(fx: Fx): (n: Fx)
    ensures n.base == fx.base && n.settings == fx.settings
    ensures n.rates.Keys == fx.rates.Keys + {fx.base}
    ensures n.rates[fx.base] == 1.0
    ensures forall c :: c in fx.rates && c != fx.base ==> c in n.rates && n.rates[c] == fx.rates[c]
  {
    fx.(rates := fx.rates[fx.base := 1.0])
  }

  /** Normalising twice is normalising once. */
  lemma NormaliseIdempotent(fx: Fx)
    ensures Normalise(Normalise(fx)) == Normalise(fx)
  {
    assert Normalise(Normalise(fx)).rates == Normalise(fx).rates;
  }

  /** A code can be converted from or to: after the base entry is forced to 1
      it has an entry, and that entry is not 0 (a zero rate is falsy). */
  predicate Known(fx: Fx, c: Code) {
    c == fx.base || (c in fx.rates && fx.rates[c] != 0.0)
  }

  /** The rate of a usable code relative to the base, reading the base as 1. */
  function Rate(fx: Fx, c: Code): (r: real)
    requires Known(fx, c)
    ensures r != 0.0
    ensures c == fx.base ==> r == 1.0
  {
    if c == fx.base then 1.0 else fx.rates[c]
  }

  /** Normalising changes neither which codes are usable nor their rates. */
  lemma NormalisePreservesRates(fx: Fx, c: Code)
    ensures Known(Normalise(fx), c) <==> Known(fx, c)
    ensures Known(fx, c) ==> Rate(Normalise(fx), c) == Rate(fx, c)
  {
  }

  /** The options after `convert` has filled in a missing `from` or `to` from
      the defaults. A code that was given is kept as it is. */
  function Resolve(s: Settings, o: Opts): (r: Opts)
    ensures o.from != "" ==> r.from == o.from
    ensures o.from == "" ==> r.from == s.from
    ensures o.to != "" ==> r.to == o.to
    ensures o.to == "" ==> r.to == s.to
  {
    Opts(if o.from != "" then o.from else s.from,
         if o.to != "" then o.to else s.to)
  }

  /** Filling in the defaults a second time changes nothing, so options that
      one call has written back behave the same on the next call. */
  lemma ResolveIdempotent(s: Settings, o: Opts)
    ensures Resolve(s, Resolve(s, o)) == Resolve(s, o)
  {
  }
}
