/** The object-style wrapper of money.js: `fx(v)` wraps a number, and the
    wrapper's `convert`, `from` and `to` route it through the engine.

    Only numbers are wrapped here; the wrapper's parsing of strings into a
    number and a currency code is not part of this model. */
module Chaining {
  import opened Config
  import opened Engine

  /** A wrapped value: the number and the currency tag that `from` sets
      ("" when there is none, which the library treats as falsy). */
  datatype Wrapped = Wrapped(v: real, tag: Code)

  /** `fx(v)` on a number: the value is kept and there is no tag yet, so a
      later `to` converts from the default source. */
  function Wrap(v: real): (r: Wrapped)
    ensures r.v == v
    ensures forall d :: OrDefault(r.tag, d) == d
  {
    Wrapped(v, "")
  }

  /** The code a given currency resolves to once an empty one is replaced by
      a default. */
  function OrDefault(c: Code, default: Code): Code {
    if c != "" then c else default
  }

  /** `fx(v).convert(opts)`: the wrapped number handed to the engine. */
  function WrappedConvert(fx: Fx, w: Wrapped, opts: Opts): (r: Call<real>)
    ensures r.fx == Normalise(fx)
    ensures r.opts == Resolve(fx.settings, opts)
    ensures var o := Resolve(fx.settings, opts);
            && (r.out.Ok? <==> Known(fx, o.to) && Known(fx, o.from))
            && (r.out.Ok? ==> r.out.value == w.v * CrossRate(fx, o.to, o.from))
  {
    ConvertScalar(fx, w.v, opts)
  }

  /** `fx(v).convert(opts)` does what `fx.convert(v, opts)` does: the same
      table, the same options written back, the same number or the same throw. */
  lemma WrappedConvertIsConvert(fx: Fx, w: Wrapped, opts: Opts)
    ensures var r := WrappedConvert(fx, w, opts);
            var c := Convert(fx, Scalar(w.v), opts);
            && r.fx == c.fx && r.opts == c.opts
            && (r.out.Ok? <==> c.out.Ok?)
            && (r.out.Ok? ==> c.out.value == Scalar(r.out.value))
  {
  }

  /** `fx(v).from(currency)`: convert the wrapped number from `currency` (or
      the default source) into the base currency and tag it with the base. */
  function From(fx: Fx, w: Wrapped, currency: Code): (r: Step<Wrapped>)
    ensures r.fx == Normalise(fx)
    ensures var src := OrDefault(currency, fx.settings.from);
            var dst := OrDefault(fx.base, fx.settings.to);
            && (r.out.Ok? <==> Known(fx, src) && Known(fx, dst))
            && (r.out.Ok? ==> r.out.value == Wrapped(w.v * CrossRate(fx, dst, src), fx.base))
    ensures fx.base != "" && r.out.Ok? ==>
              r.out.value.v == w.v / Rate(fx, OrDefault(currency, fx.settings.from))
  {
    var c := ConvertScalar(fx, w.v, Opts(currency, fx.base));
    match c.out
    case Thrown => Step(c.fx, Thrown)
    case Ok(x) => Step(c.fx, Ok(Wrapped(x, c.fx.base)))
  }

  /** `fx(v).to(currency)`: convert the wrapped number from its tag (or from
      the default source when it has none) into `currency`. */
  function To(fx: Fx, w: Wrapped, currency: Code): (r: Step<real>)
    ensures r.fx == Normalise(fx)
    ensures var src := OrDefault(w.tag, fx.settings.from);
            var dst := OrDefault(currency, fx.settings.to);
            && (r.out.Ok? <==> Known(fx, src) && Known(fx, dst))
            && (r.out.Ok? ==> r.out.value == w.v * CrossRate(fx, dst, src))
  {
    var c := ConvertScalar(fx, w.v, Opts(OrDefault(w.tag, fx.settings.from), currency));
    Step(c.fx, c.out)
  }

  /** Two products of equal factors are equal. */
  lemma SameScale(x: real, y: real, u: real, w: real, k: real, c: real)
    requires x == u * k && y == w * c
    requires u == w && k == c
    ensures x == y
  {
  }

  /** `fx(v).to(b)` without a `from`: the untagged value is converted from
      the default source, as `convert(v, {to: b})` does. */
  lemma WrapToIsConvert(fx: Fx, v: real, b: Code)
    ensures var direct := ConvertScalar(fx, v, Opts("", b));
            To(fx, Wrap(v), b) == Step(direct.fx, direct.out)
  {
    var t, d := To(fx, Wrap(v), b), ConvertScalar(fx, v, Opts("", b));
    assert d.opts == Opts(fx.settings.from, OrDefault(b, fx.settings.to));
    assert t.fx == d.fx;
    assert t.out.Ok? == d.out.Ok?;
    if d.out.Ok? {
      SameScale(t.out.value, d.out.value, Wrap(v).v, v,
                CrossRate(fx, OrDefault(b, fx.settings.to), OrDefault(Wrap(v).tag, fx.settings.from)),
                CrossRate(fx, d.opts.to, d.opts.from));
    }
  }

  /** After a successful `from` the value `w` is tagged with the base.
      `to(b)` on the table `from` left gives what it gives on the original
      table, and scales the value on from the base into `b`. */
  lemma ChainThroughBase(fx: Fx, w: Wrapped, b: Code)
    requires w.tag == fx.base
    ensures To(Normalise(fx), w, b) == To(fx, w, b)
    ensures To(fx, w, b).out.Ok? <==>
              Known(fx, OrDefault(fx.base, fx.settings.from)) && Known(fx, OrDefault(b, fx.settings.to))
    ensures To(fx, w, b).out.Ok? ==>
              To(fx, w, b).out.value ==
              w.v * CrossRate(fx, OrDefault(b, fx.settings.to), OrDefault(fx.base, fx.settings.from))
  {
    ConvertScalarRepeat(fx, w.v, Opts(OrDefault(w.tag, fx.settings.from), b));
  }

  /** `fx(v).from(a).to(b)`: a throw in `from` skips `to`. The value goes
      from `a` into the base (or the default target when the base is empty),
      then from the tag (or the default source) into `b`; it throws exactly
      when one of those four codes is unusable. */
  function Chain(fx: Fx, v: real, a: Code, b: Code): (r: Step<real>)
    ensures r.fx == Normalise(fx)
    ensures var src, mid := OrDefault(a, fx.settings.from), OrDefault(fx.base, fx.settings.to);
            var back, dst := OrDefault(fx.base, fx.settings.from), OrDefault(b, fx.settings.to);
            r.out.Ok? <==> Known(fx, src) && Known(fx, mid) && Known(fx, back) && Known(fx, dst)
  {
    var f := From(fx, Wrap(v), a);
    match f.out
    case Thrown => Step(f.fx, Thrown)
    case Ok(w) =>
      ChainThroughBase(fx, w, b);
      To(f.fx, w, b)
  }

  /** The chained value is what `from(a)` produced, scaled by the cross rate
      from the base (or the default source when the base is empty) into `b`. */
  lemma ChainValue(fx: Fx, v: real, a: Code, b: Code)
    ensures var r, f := Chain(fx, v, a, b), From(fx, Wrap(v), a);
            r.out.Ok? ==>
              && f.out.Ok?
              && r.out.value ==
                 f.out.value.v * CrossRate(fx, OrDefault(b, fx.settings.to), OrDefault(fx.base, fx.settings.from))
  {
    var f := From(fx, Wrap(v), a);
    if f.out.Ok? {
      ChainThroughBase(fx, f.out.value, b);
    }
  }

  /** Going through the base with `from(a).to(b)` gives exactly what
      `convert(v, {from: a, to: b})` gives: the same throw, or the same
      value, and the same table left behind. */
  lemma ChainIsConvert(fx: Fx, v: real, a: Code, b: Code)
    requires fx.base != ""
    ensures var direct := ConvertScalar(fx, v, Opts(a, b));
            Chain(fx, v, a, b) == Step(direct.fx, direct.out)
  {
    var direct := ConvertScalar(fx, v, Opts(a, b));
    var src := OrDefault(a, fx.settings.from);
    var dst := OrDefault(b, fx.settings.to);
    var n := Normalise(fx);
    NormaliseIdempotent(fx);
    NormalisePreservesRates(fx, src);
    NormalisePreservesRates(fx, dst);
    var f := From(fx, Wrap(v), a);
    if f.out.Ok? {
      var t := To(n, f.out.value, b);
      assert f.out.value.tag == n.base;
      if Known(fx, dst) {
        var x := v / Rate(fx, src);
        assert t.out.value == x * CrossRate(n, dst, n.base);
        assert CrossRate(n, dst, n.base) == Rate(fx, dst);
        assert t.out.value == direct.out.value;
      }
    }
  }
}
