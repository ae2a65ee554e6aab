# money.js conversion engine in Dafny

money.js converts amounts between currencies. It uses one table of exchange
rates, and every rate is relative to a single base currency. The library object
(`fx`) holds three things:

- the rate table `fx.rates`;
- the base code `fx.base`;
- default source and target codes `fx.settings.from` / `fx.settings.to`.

The engine has two functions:

- `getRate(to, from)` first writes 1 as the base currency's rate in the shared
  table. It throws when either code has no rate or a zero rate. Otherwise it
  takes one of three branches: the source is the base, the target is the base,
  or the general case. The general case multiplies the target rate by the
  inverse of the source rate.
- `convert(val, opts)` fills in a missing `from`/`to` from the defaults and
  writes them back into `opts`. It then multiplies the value by
  `getRate(to, from)`. A non-empty array is converted element by element in
  place, with the same options object.

A thin object wrapper offers chained calls. `fx(v).from(a)` converts into the
base currency and tags the result with the base. `.to(b)` converts from that
tag into `b`. `.convert(opts)` is the same as `fx.convert`.

The model has four modules:

- `Config` (config.dfy) holds the configuration as an immutable record `Fx`.
  It also defines the options `Opts` and the `Outcome` datatype. `Thrown`
  stands for the library's thrown error.
- `Engine` (engine.dfy) has `GetRate`, the scalar and array paths of
  `convert`, and an in-place method over an `array<real>`.
- `Chaining` (chaining.dfy) has the wrapper's `convert`, `from` and `to`.
- `Scenarios` (scenarios.dfy) has worked conversions on a small USD-based
  table.

Every operation returns the configuration as the call leaves it. That makes the
base-rate write visible, including on calls that throw.

Rates and values are exact `real`s. A code is the empty string when it was not
given. JavaScript treats `undefined` and `""` the same way here, because both
are falsy.

The codes are usable exactly when `Known` holds: the code is the base, or it
has a non-zero rate. `CrossRate(fx, to, from)` is the independent reference
definition `Rate(to) / Rate(from)`, where `Rate` reads the base as 1. All three
branches of `getRate` are proved to agree with it.

## Model

| member | source | states |
|---|---|---|
| Config.Normalise | app/assets/javascripts/money.js:72-75 | the base entry becomes 1, the base becomes a key, every other entry, the base and the defaults stay as they were |
| Config.NormaliseIdempotent | app/assets/javascripts/money.js:75 | writing the base rate a second time changes nothing |
| Config.NormalisePreservesRates | app/assets/javascripts/money.js:72-78 | after the base write a code is usable exactly when it was usable before, with the same rate (the base reading as 1) |
| Config.Resolve | app/assets/javascripts/money.js:58-63 | a given `from`/`to` is kept; a missing or empty one is replaced by the default |
| Config.ResolveIdempotent | app/assets/javascripts/money.js:52-63 | options already filled in by one call are not changed by the next, so every array element sees the same codes |
| Engine.GetRate | app/assets/javascripts/money.js:70-93 | leaves the normalised table whether or not it throws; throws exactly when `to` or `from` has no rate or a zero rate; otherwise returns `Rate(to) / Rate(from)`, which is `rates[to]` when `from` is the base and `1 / rates[from]` when only `to` is the base |
| Engine.GetRateSelf | app/assets/javascripts/money.js:80-92 | a usable code's rate to itself is 1, the base included |
| Engine.GetRateInverse | app/assets/javascripts/money.js:80-92 | `getRate(a, b) * getRate(b, a) == 1` for usable codes |
| Engine.GetRateCompose | app/assets/javascripts/money.js:80-92 | `getRate(a, b) * getRate(b, c) == getRate(a, c)` for usable codes |
| Engine.GetRateRepeat | app/assets/javascripts/money.js:72-92 | a second lookup on the table the first left behind gives the same result and the same table |
| Engine.ConvertScalar | app/assets/javascripts/money.js:58-66 | writes the filled-in options back; throws exactly when the resolved `to` or `from` is unusable; otherwise the value times the cross rate from the resolved `from` to the resolved `to` (note the `getRate(to, from)` argument order) |
| Engine.ConvertScalarRepeat | app/assets/javascripts/money.js:58-92 | a conversion on the table an earlier call left behind gives the same value or throw, options and table as on the original table |
| Engine.ConvertRoundTrip | app/assets/javascripts/money.js:58-92 | converting `a`→`b`, then the result `b`→`a` on the table the first call left behind, returns the starting value and leaves that table as it was |
| Engine.ConvertElements | app/assets/javascripts/money.js:51-55 | the in-place loop keeps the length and the already-visited prefix; it throws only when the resolved codes are unusable, and then leaves the array exactly as it was; otherwise every element from the start index on becomes its value times the cross rate |
| Engine.Convert | app/assets/javascripts/money.js:49-67 | a non-empty array comes back with the same length, each element times the cross rate; a number comes back times the cross rate; an empty array takes the scalar path and yields 0; it throws exactly when a resolved code is unusable |
| Engine.ConvertArrayValue | app/assets/javascripts/money.js:50-56 | the array path returns the array as the loop leaves it (the in-place update of the caller's array is `Engine.ConvertArray`), with the same length and each element times the cross rate, or throws exactly when a resolved code is unusable |
| Engine.ConvertNumber | app/assets/javascripts/money.js:58-66 | the scalar path with its result seen as a number value |
| Engine.ConvertArrayElementwise | app/assets/javascripts/money.js:50-56 | converting a non-empty array throws exactly when converting its first element throws; it leaves the same table and options; otherwise element `j` equals the scalar conversion of element `j` with the same options |
| Engine.ConvertArray | app/assets/javascripts/money.js:50-56 | the imperative in-place loop over a JavaScript array ends with exactly the contents, table, options and throw flag of `Engine.ConvertElements` from index 0 (so each element becomes its old value times the cross rate); when it throws, the caller's array is unchanged |
| Chaining.WrappedConvert | app/assets/javascripts/money.js:112-117 | `fx(v).convert(opts)` leaves the normalised table, writes the filled-in options back into the caller's object, throws exactly when a resolved code is unusable, and otherwise gives `v` times the cross rate |
| Chaining.WrappedConvertIsConvert | app/assets/javascripts/money.js:112-117 | `fx(v).convert(opts)` and `fx.convert(v, opts)` leave the same table and options and give the same number or the same throw |
| Chaining.Wrap | app/assets/javascripts/money.js:16-18 | `fx(v)` on a number keeps the value and sets no currency tag, so a later `to` reads the default source |
| Chaining.WrapToIsConvert | app/assets/javascripts/money.js:127-130 | `fx(v).to(b)` with no `from` gives the same value or throw, and leaves the same table, as `convert(v, {to: b})` |
| Chaining.From | app/assets/javascripts/money.js:119-125 | converts into the base (or into the default target when the base code is empty), tags the result with the base, and gives `v / Rate(from)` when the base is non-empty |
| Chaining.To | app/assets/javascripts/money.js:127-130 | converts from the tag, or from the default source when there is no tag, into the given (or default) target |
| Chaining.Chain | app/assets/javascripts/money.js:119-130 | runs `from(a)` then `to(b)` on the table `from(a)` left; leaves the normalised table; throws exactly when the source, the base (or default target), the tag's source and the target are not all usable, a throw in `from` being the result |
| Chaining.ChainValue | app/assets/javascripts/money.js:119-130 | a successful chain means `from(a)` succeeded, and the result is what `from(a)` produced times the cross rate from the base (or the default source when the base is empty) into `b` |
| Chaining.ChainIsConvert | app/assets/javascripts/money.js:119-130 | `fx(v).from(a).to(b)` gives the same value or the same throw, and leaves the same table, as `convert(v, {from: a, to: b})`, for a non-empty base code |
| Scenarios.WorkedConversions | app/assets/javascripts/money.js:49-92 | with USD as base and GBP 0.64, EUR 0.85: 10 USD→GBP is 6.4, 10 GBP→EUR is 13.28125, [10, 20] USD→EUR is [8.5, 17], JPY throws, and missing codes fall back to the USD defaults |

## Left out

- Floating-point rounding, NaN and infinities: rates and values are exact reals. A NaN rate is falsy in JavaScript, and the model does not represent one.
- Coercion of string-valued rates such as `"0.64"` (source comment at line 33): rates are numbers.
- Keys inherited from `Object.prototype` (for example `"toString"`) that JavaScript would find in the rate object: the table is a plain map.
- Parsing a string in the wrapper constructor (lines 101-103): it relies on regular-expression replacement and `parseFloat`. The wrapper holds a number and a tag.
- Nested arrays, and wrapping an array: only a number or a one-level array of numbers is converted.
- Setting up the configuration from a global `fxSetup` (lines 26-43), including its mixed-up `fxSetup`/`@aSetup` references: the configuration is an explicit input record.
- The library version string, module export, AMD definition and `noConflict` (lines 21 and 133-166): loader plumbing with no computation.
- Calling `convert` with no options object at all (line 59) is modelled as `Opts("", "")`. The filled-in codes then go into a fresh local object that no caller sees. So the returned options describe an object only when the caller passed one. The value and the throw are the same either way.
- Chaining.ChainIsConvert: it holds only for a non-empty base code. An empty base is falsy, so `from` sends the value to the default target and `to` ignores the empty tag.
