/** The conversion engine of money.js: `getRate` and `convert`.

    Rates and values are exact reals; floating-point rounding is not modelled.
    Each operation returns the configuration as the call leaves it, because
    `getRate` writes the base currency's rate into the shared table. */
module Engine {
  import opened Config

  /** What a call leaves behind: the configuration and the result or the throw. */
  datatype Step<+T> = Step(fx: Fx, out: Outcome<T>)

  /** What a `convert` call leaves behind: the configuration, the options
      object as the call wrote it back, and the result or the throw. */
  datatype Call<+T> = Call(fx: Fx, opts: Opts, out: Outcome<T>)

  /** The value handed to `convert`: a number or an array of numbers. */
  datatype Value = Scalar(x: real) | Array(xs: seq<real>)

  /** The cross rate that turns one unit of `from` into `to`, read off the
      table relative to the base. */
  function CrossRate(fx: Fx, to: Code, from: Code): real
    requires Known(fx, to) && Known(fx, from)
  {
    Rate(fx, to) / Rate(fx, from)
  }

  /** Every element of `ys` from index `i` on is the matching element of
      `xs` times `rate`. */
  ghost predicate ScaledFrom(ys: seq<real>, xs: seq<real>, rate: real, i: nat)
    requires |ys| == |xs|
  {
    forall j :: i <= j < |xs| ==> ys[j] == xs[j] * rate
  }

  /** Writing `y = xs[i] * rate` at index `i` extends a scaling that holds
      from `i + 1` on to one that holds from `i` on. */
  lemma ScaledFromExtend(arr: seq<real>, xs: seq<real>, y: real, rate: real, i: nat)
    requires |arr| == |xs| && i < |xs|
    requires arr[i] == y && y == xs[i] * rate
    requires ScaledFrom(arr, xs[i := y], rate, i + 1)
    ensures ScaledFrom(arr, xs, rate, i)
  {
    forall j | i <= j < |xs|
      ensures arr[j] == xs[j] * rate
    {
      if j > i {
        assert xs[i := y][j] == xs[j];
      }
    }
  }

  /** The cross rate does not change when the table is normalised. */
  lemma CrossRateNormalise(fx: Fx, to: Code, from: Code)
    requires Known(fx, to) && Known(fx, from)
    ensures Known(Normalise(fx), to) && Known(Normalise(fx), from)
    ensures CrossRate(Normalise(fx), to, from) == CrossRate(fx, to, from)
  {
    NormalisePreservesRates(fx, to);
    NormalisePreservesRates(fx, from);
  }

  /** `getRate(to, from)`: force the base entry to 1, throw when either code
      has no usable rate, else take one of three branches. */
  function GetRate(fx: Fx, to: Code, from: Code): (r: Step<real>)
    ensures r.fx == Normalise(fx)
    ensures r.out.Ok? <==> Known(fx, to) && Known(fx, from)
    ensures r.out.Ok? ==> r.out.value == CrossRate(fx, to, from)
    ensures r.out.Ok? && from == fx.base ==> r.out.value == Rate(fx, to)
    ensures r.out.Ok? && to == fx.base && from != fx.base ==> r.out.value == 1.0 / fx.rates[from]
  {
    var n := Normalise(fx);
    var rates := n.rates;
    if to !in rates || rates[to] == 0.0 || from !in rates || rates[from] == 0.0 then
      Step(n, Thrown)
    else if from == fx.base then
      Step(n, Ok(rates[to]))
    else if to == fx.base then
      Step(n, Ok(1.0 / rates[from]))
    else
      Step(n, Ok(rates[to] * (1.0 / rates[from])))
  }

  /** Scaling by `t` and then by `k`, where `t * k == 1`, gives the value back. */
  lemma ScaleByInverse(v: real, t: real, k: real)
    requires t * k == 1.0
    ensures (v * t) * k == v
  {
    assert (v * t) * k == v * (t * k);
  }

  /** The cross rates in the two directions are reciprocal. */
  lemma CrossRateInverse(fx: Fx, a: Code, b: Code)
    requires Known(fx, a) && Known(fx, b)
    ensures CrossRate(fx, b, a) * CrossRate(fx, a, b) == 1.0
  {
    var x, y := Rate(fx, a), Rate(fx, b);
    assert (y / x) * (x / y) == 1.0;
  }

  /** A code's rate to itself is 1, including the base's. */
  lemma GetRateSelf(fx: Fx, c: Code)
    requires Known(fx, c)
    ensures GetRate(fx, c, c).out == Ok(1.0)
  {
  }

  /** Converting there and back multiplies by 1. */
  lemma GetRateInverse(fx: Fx, a: Code, b: Code)
    requires Known(fx, a) && Known(fx, b)
    ensures GetRate(fx, a, b).out.value * GetRate(fx, b, a).out.value == 1.0
  {
  }

  /** Going from `c` to `b` and then to `a` is going from `c` to `a`. */
  lemma GetRateCompose(fx: Fx, a: Code, b: Code, c: Code)
    requires Known(fx, a) && Known(fx, b) && Known(fx, c)
    ensures GetRate(fx, a, b).out.value * GetRate(fx, b, c).out.value == GetRate(fx, a, c).out.value
  {
  }

  /** A second lookup on the table the first one left behind gives the same
      rate and leaves the same table: the base write is idempotent. */
  lemma GetRateRepeat(fx: Fx, to: Code, from: Code)
    ensures GetRate(GetRate(fx, to, from).fx, to, from) == GetRate(fx, to, from)
  {
    NormaliseIdempotent(fx);
    NormalisePreservesRates(fx, to);
    NormalisePreservesRates(fx, from);
  }

  /** `convert` on a number: fill in missing codes from the defaults, write
      them back into the options, and multiply by `getRate(to, from)`. */
  function ConvertScalar(fx: Fx, v: real, opts: Opts): (r: Call<real>)
    ensures r.fx == Normalise(fx)
    ensures r.opts == Resolve(fx.settings, opts)
    ensures r.out.Ok? <==> Known(fx, r.opts.to) && Known(fx, r.opts.from)
    ensures r.out.Ok? ==> r.out.value == v * CrossRate(fx, r.opts.to, r.opts.from)
  {
    var o := Resolve(fx.settings, opts);
    var l := GetRate(fx, o.to, o.from);
    match l.out
    case Thrown => Call(l.fx, o, Thrown)
    case Ok(rate) => Call(l.fx, o, Ok(v * rate))
  }

  /** `convert` with two given, usable codes: the table is normalised, the
      options stay as given, and the value is scaled by the cross rate. */
  lemma ConvertScalarGiven(fx: Fx, v: real, from: Code, to: Code)
    requires from != "" && to != ""
    requires Known(fx, from) && Known(fx, to)
    ensures ConvertScalar(fx, v, Opts(from, to)) ==
            Call(Normalise(fx), Opts(from, to), Ok(v * CrossRate(fx, to, from)))
  {
    var c := ConvertScalar(fx, v, Opts(from, to));
    assert c.opts == Opts(from, to);
    assert c.out.Ok? && c.out.value == v * CrossRate(fx, to, from);
  }

  /** `convert` on the table an earlier call has normalised behaves as on
      the original table: the base write is idempotent. */
  lemma ConvertScalarRepeat(fx: Fx, w: real, opts: Opts)
    ensures ConvertScalar(Normalise(fx), w, opts) == ConvertScalar(fx, w, opts)
  {
    var n, o := Normalise(fx), Resolve(fx.settings, opts);
    var c, d := ConvertScalar(fx, w, opts), ConvertScalar(n, w, opts);
    assert d.fx == c.fx by { NormaliseIdempotent(fx); }
    assert d.opts == o;
    assert d.out.Ok? == c.out.Ok? by {
      NormalisePreservesRates(fx, o.to);
      NormalisePreservesRates(fx, o.from);
    }
    if c.out.Ok? {
      assert d.out.value == c.out.value by {
        CrossRateNormalise(fx, o.to, o.from);
      }
    }
  }

  /** Converting `w` from `b` back to `a` on the normalised table gives `v`
      when `v` is `w` scaled by the cross rate from `b` to `a`. */
  lemma ConvertBack(fx: Fx, w: real, v: real, a: Code, b: Code)
    requires a != "" && b != ""
    requires Known(fx, a) && Known(fx, b)
    requires w * CrossRate(fx, a, b) == v
    ensures ConvertScalar(Normalise(fx), w, Opts(b, a)) == Call(Normalise(fx), Opts(b, a), Ok(v))
  {
    ConvertScalarRepeat(fx, w, Opts(b, a));
    ConvertScalarGiven(fx, w, b, a);
  }

  /** Converting from `a` to `b` gives `v` times the cross rate and leaves the
      normalised table; converting that result back from `b` to `a` on the
      table the first call left behind gives `v` again and leaves the table
      as it was. */
  lemma ConvertRoundTrip(fx: Fx, v: real, a: Code, b: Code)
    requires a != "" && b != ""
    requires Known(fx, a) && Known(fx, b)
    ensures ConvertScalar(fx, v, Opts(a, b)) ==
            Call(Normalise(fx), Opts(a, b), Ok(v * CrossRate(fx, b, a)))
    ensures ConvertScalar(Normalise(fx), v * CrossRate(fx, b, a), Opts(b, a)) ==
            Call(Normalise(fx), Opts(b, a), Ok(v))
  {
    ConvertScalarGiven(fx, v, a, b);
    assert (v * CrossRate(fx, b, a)) * CrossRate(fx, a, b) == v by {
      CrossRateInverse(fx, a, b);
      ScaleByInverse(v, CrossRate(fx, b, a), CrossRate(fx, a, b));
    }
    ConvertBack(fx, v * CrossRate(fx, b, a), v, a, b);
  }

  /** What the array loop leaves behind: the configuration, the options, the
      array's contents when the loop ends or throws, and whether it threw. */
  datatype ArrayRun = ArrayRun(fx: Fx, opts: Opts, arr: seq<real>, thrown: bool)

  /** The loop over a non-empty array, from index `i` on: each element is
      replaced by its scalar conversion under the same options object, which
      the first call has already filled in. */
  function ConvertElements(fx: Fx, xs: seq<real>, opts: Opts, i: nat): (r: ArrayRun)
    requires i <= |xs|
    decreases |xs| - i
    ensures |r.arr| == |xs|
    ensures r.arr[..i] == xs[..i]
    ensures i < |xs| ==> r.fx == Normalise(fx) && r.opts == Resolve(fx.settings, opts)
    ensures var o := Resolve(fx.settings, opts);
            r.thrown <==> i < |xs| && !(Known(fx, o.to) && Known(fx, o.from))
    ensures r.thrown ==> r.arr == xs
    ensures !r.thrown && i < |xs| ==>
              var o := Resolve(fx.settings, opts);
              ScaledFrom(r.arr, xs, CrossRate(fx, o.to, o.from), i)
  {
    if i == |xs| then
      ArrayRun(fx, opts, xs, false)
    else
      var c := ConvertScalar(fx, xs[i], opts);
      match c.out
      case Thrown => ArrayRun(c.fx, c.opts, xs, true)
      case Ok(y) =>
        var ys := xs[i := y];
        var rest := ConvertElements(c.fx, ys, c.opts, i + 1);
        var o := c.opts;
        assert Resolve(c.fx.settings, o) == o by {
          ResolveIdempotent(fx.settings, opts);
        }
        assert c.fx == Normalise(c.fx) by {
          NormaliseIdempotent(fx);
        }
        CrossRateNormalise(fx, o.to, o.from);
        assert rest.arr[..i + 1] == ys[..i + 1];
        assert rest.arr[..i] == xs[..i] by {
          assert ys[..i] == xs[..i];
          assert rest.arr[..i] == rest.arr[..i + 1][..i];
        }
        assert rest.arr[i] == y by {
          assert rest.arr[i] == rest.arr[..i + 1][i];
        }
        ScaledFromExtend(rest.arr, xs, y, CrossRate(fx, o.to, o.from), i);
        rest
  }

  /** `convert(val, opts)`. A non-empty array is converted element by element
      in place and returned. Anything else takes the scalar path; an empty
      array has a falsy length, goes there too, and counts as the number 0. */
  function Convert(fx: Fx, val: Value, opts: Opts): (r: Call<Value>)
    ensures r.fx == Normalise(fx)
    ensures r.opts == Resolve(fx.settings, opts)
    ensures r.out.Ok? <==> Known(fx, r.opts.to) && Known(fx, r.opts.from)
    ensures r.out.Ok? && val.Scalar? ==>
              r.out.value == Scalar(val.x * CrossRate(fx, r.opts.to, r.opts.from))
    ensures r.out.Ok? && val.Array? && |val.xs| == 0 ==> r.out.value == Scalar(0.0)
    ensures r.out.Ok? && val.Array? && |val.xs| > 0 ==>
              && r.out.value.Array?
              && |r.out.value.xs| == |val.xs|
              && ScaledFrom(r.out.value.xs, val.xs, CrossRate(fx, r.opts.to, r.opts.from), 0)
  {
    match val
    case Array(xs) =>
      if |xs| > 0 then ConvertArrayValue(fx, xs, opts) else ConvertNumber(fx, 0.0, opts)
    case Scalar(x) =>
      ConvertNumber(fx, x, opts)
  }

  /** The array path of `convert`: the loop's result seen as a `Value`. */
  function ConvertArrayValue(fx: Fx, xs: seq<real>, opts: Opts): (r: Call<Value>)
    requires |xs| > 0
    ensures r.fx == Normalise(fx) && r.opts == Resolve(fx.settings, opts)
    ensures r.out.Ok? <==> Known(fx, r.opts.to) && Known(fx, r.opts.from)
    ensures r.out.Ok? ==>
              && r.out.value.Array?
              && |r.out.value.xs| == |xs|
              && ScaledFrom(r.out.value.xs, xs, CrossRate(fx, r.opts.to, r.opts.from), 0)
  {
    var run := ConvertElements(fx, xs, opts, 0);
    var o := Resolve(fx.settings, opts);
    assert run.fx == Normalise(fx) && run.opts == o;
    if run.thrown then
      Call(run.fx, run.opts, Thrown)
    else
      Call(run.fx, run.opts, Ok(Array(run.arr)))
  }

  /** The scalar path of `convert`, with its result seen as a `Value`. */
  function ConvertNumber(fx: Fx, x: real, opts: Opts): (r: Call<Value>)
    ensures r.fx == Normalise(fx) && r.opts == Resolve(fx.settings, opts)
    ensures r.out.Ok? <==> Known(fx, r.opts.to) && Known(fx, r.opts.from)
    ensures r.out.Ok? ==> r.out.value == Scalar(x * CrossRate(fx, r.opts.to, r.opts.from))
  {
    var c := ConvertScalar(fx, x, opts);
    match c.out
    case Thrown => Call(c.fx, c.opts, Thrown)
    case Ok(y) =>
      assert y == x * CrossRate(fx, c.opts.to, c.opts.from);
      var r := Call(c.fx, c.opts, Ok(Scalar(y)));
      assert r.out.value == Scalar(x * CrossRate(fx, r.opts.to, r.opts.from));
      r
  }

  /** Converting a non-empty array converts every element exactly as the
      scalar path would, with the same options, and leaves the same
      configuration and options behind; it throws exactly when the scalar
      conversion of its first element throws. */
  lemma ConvertArrayElementwise(fx: Fx, xs: seq<real>, opts: Opts)
    requires |xs| > 0
    ensures var r := Convert(fx, Array(xs), opts);
            var c := ConvertScalar(fx, xs[0], opts);
            && r.fx == c.fx && r.opts == c.opts
            && (r.out.Thrown? <==> c.out.Thrown?)
            && (r.out.Ok? ==>
                  forall j :: 0 <= j < |xs| ==>
                    ConvertScalar(fx, xs[j], opts).out == Ok(r.out.value.xs[j]))
  {
    var r := Convert(fx, Array(xs), opts);
    if r.out.Ok? {
      var ys := r.out.value.xs;
      forall j | 0 <= j < |xs|
        ensures ConvertScalar(fx, xs[j], opts).out == Ok(ys[j])
      {
        var c := ConvertScalar(fx, xs[j], opts);
        assert c.out.value == ys[j];
      }
    }
  }

  /** The loop of `convert` over a JavaScript array, written in place. A
      failed rate lookup throws on the first element, before anything is
      written, so the caller's array is left as it was. */
  method ConvertArray(fx: Fx, a: array<real>, opts: Opts) returns (fx': Fx, opts': Opts, thrown: bool)
    requires a.Length > 0
    modifies a
    ensures ConvertElements(fx, old(a[..]), opts, 0) == ArrayRun(fx', opts', a[..], thrown)
    ensures thrown ==> a[..] == old(a[..])
  {
    ghost var xs := a[..];
    fx', opts', thrown := fx, opts, false;
    var i := 0;
    while i < a.Length && !thrown
      invariant 0 <= i <= a.Length
      invariant !thrown ==> ConvertElements(fx, xs, opts, 0) == ConvertElements(fx', a[..], opts', i)
      invariant thrown ==> ConvertElements(fx, xs, opts, 0) == ArrayRun(fx', opts', a[..], true)
      decreases a.Length - i, if thrown then 0 else 1
    {
      var c := ConvertScalar(fx', a[i], opts');
      if c.out.Thrown? {
        fx', opts', thrown := c.fx, c.opts, true;
      } else {
        a[i] := c.out.value;
        fx', opts' := c.fx, c.opts;
        i := i + 1;
      }
    }
  }
}
