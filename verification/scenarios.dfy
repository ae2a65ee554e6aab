/** Worked conversions against a small table with US dollars as the base. */
module Scenarios {
  import opened Config
  import opened Engine

  function Table(): Fx {
    Fx(map["USD" := 1.0, "GBP" := 0.64, "EUR" := 0.85], "USD", Settings("USD", "USD"))
  }

  /** From the base the rate is read directly, between two other currencies
      it goes through the base, arrays are converted element by element, and
      a currency without a rate throws. */
  lemma WorkedConversions()
    ensures ConvertScalar(Table(), 10.0, Opts("USD", "GBP")).out == Ok(6.4)
    ensures ConvertScalar(Table(), 10.0, Opts("GBP", "EUR")).out == Ok(13.28125)
    ensures Convert(Table(), Array([10.0, 20.0]), Opts("USD", "EUR")).out == Ok(Array([8.5, 17.0]))
    ensures ConvertScalar(Table(), 10.0, Opts("USD", "JPY")).out == Thrown
    ensures Convert(Table(), Array([10.0, 20.0]), Opts("USD", "JPY")).out == Thrown
    ensures ConvertScalar(Table(), 10.0, Opts("", "")).out == Ok(10.0)
  {
    var fx := Table();
    var a := Convert(fx, Array([10.0, 20.0]), Opts("USD", "EUR"));
    assert ConvertScalar(fx, 10.0, Opts("USD", "EUR")).out == Ok(8.5);
    assert ConvertScalar(fx, 20.0, Opts("USD", "EUR")).out == Ok(17.0);
    ConvertArrayElementwise(fx, [10.0, 20.0], Opts("USD", "EUR"));
    assert a.out.value.xs == [8.5, 17.0];
  }
}
