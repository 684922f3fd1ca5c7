/**
 * The fixed-point converters of the LTC3350 monitor: raw register codes
 * ("LSB") to millivolts, degrees Celsius, farads and milliohms, and back.
 * Every conversion is one C integer expression over 64-bit intermediates,
 * truncated toward zero and then passed through `meas_trunc`'s
 * "last digit 9 rounds up" bias (except `farads_to_LSB`, which only truncates).
 * Each forward contract says how far the result lies from the exact
 * rational value; the lemmas bound the error of a round trip.
 */
module Converter {
  import opened CInt

  /** Resistors of the reference circuit, in ohms. */
  const RT: int := 86600
  const RTST: int := 121
  /** Charge-current sense resistor. */
  const RSNSC: int := 5

  /** The three voltage scales, in tenths of a microvolt per LSB. */
  const VCELL_FACTOR: int := 1835
  const VCAP_FACTOR: int := 14760
  const VIN_FACTOR: int := 22100

  predicate IsVoltageFactor(factor: int) {
    factor == VCELL_FACTOR || factor == VCAP_FACTOR || factor == VIN_FACTOR
  }

  /**
   * `meas_trunc`: narrow to `int`, then add one when the C remainder by 10
   * is 9. Only non-negative values can end in 9 under C's `%`, so negative
   * values pass unchanged.
   */
  function MeasTrunc(n: int): (r: int)
    requires IsInt(n)
    ensures IsInt(r)
    ensures n <= r <= n + 1
    ensures r == n + 1 <==> n >= 0 && n % 10 == 9
    ensures CMod(r, 10) != 9
  {
    if CMod(n, 10) == 9 then n + 1 else n
  }

  /** Applying the bias twice changes nothing. */
  lemma MeasTruncIdempotent(n: int)
    requires IsInt(n)
    ensures MeasTrunc(MeasTrunc(n)) == MeasTrunc(n)
  {
  }

  lemma MeasTruncExamples()
    ensures MeasTrunc(9) == 10 && MeasTrunc(10) == 10 && MeasTrunc(-1) == -1
    ensures MeasTrunc(-9) == -9 && MeasTrunc(2209) == 2210
  {
  }

  /**
   * `LSB_to_millivolts`: `units * factor` is a 32-bit product (formed
   * before it is widened), then divided by 1000 * 10. The result is within
   * one millivolt of the exact `units * factor / 10000`.
   */
  function LsbToMillivolts(units: int, factor: int): (mv: int)
    requires IsInt(units) && IsInt(factor) && IsInt(units * factor)
    ensures -10000 <= mv * 10000 - units * factor <= 10000
    ensures units * factor >= 0 ==> mv >= 0
  {
    var scaleFactor := 10;
    MeasTrunc(CDiv(units * factor, 1000 * scaleFactor))
  }

  /** What `millivolts_to_LSB` needs to stay free of overflow. */
  predicate MillivoltsToLsbDefined(mv: int, factor: int) {
    IsLongLong(mv) && IsInt(factor) && factor > 0
    && IsLongLong(mv * 10000) && IsInt(CDiv(mv * 10000, factor))
  }

  /**
   * `millivolts_to_LSB`: millivolts to microvolts, times the scale 10,
   * over the factor. The result is within one LSB of the exact
   * `mv * 10000 / factor`.
   */
  function MillivoltsToLsb(mv: int, factor: int): (units: int)
    requires MillivoltsToLsbDefined(mv, factor)
    ensures -factor <= units * factor - mv * 10000 <= factor
    ensures mv >= 0 ==> units >= 0
  {
    var scaleFactor := 10;
    var microvolts := mv * 1000;
    var q := CDiv(microvolts * scaleFactor, factor);
    assert (q + 1) * factor == q * factor + factor;
    MeasTrunc(q)
  }

  /** What `LSB_to_celsius` needs: its products and the discarded adjustment fit 64 bits. */
  predicate LsbToCelsiusDefined(dtemp: int) {
    IsLongLong(dtemp) && IsLongLong(28 * dtemp)
    && IsLongLong(28 * dtemp - 251400) && IsLongLong(28 * dtemp - 251400 + 100)
    && IsInt(CDiv(28 * dtemp - 251400, 1000))
  }

  /**
   * `LSB_to_celsius`: degrees = 0.028 * code - 251.4, scaled by 1000.
   * The source computes a "+100" adjustment of the scaled value and then
   * recomputes the result without it, so the adjustment has no effect.
   * The result is within one degree of the exact value.
   */
  function LsbToCelsius(dtemp: int): (c: int)
    requires LsbToCelsiusDefined(dtemp)
    ensures -1000 <= c * 1000 - (28 * dtemp - 251400) <= 1000
  {
    var scaledResult := 28 * dtemp - 251400;
    var adjusted := CelsiusAdjusted(scaledResult);
    MeasTrunc(CDiv(28 * dtemp - 251400, 1000))
  }

  /**
   * The "+100" adjustment of a scaled temperature: add a tenth of a degree
   * when that carries the truncated quotient to the next degree.
   */
  function CelsiusAdjusted(scaled: int): (a: int)
    ensures a == scaled || a == scaled + 100
    ensures a == scaled + 100 <==> CDiv(scaled + 100, 1000) != CDiv(scaled, 1000)
  {
    if CDiv(scaled + 100, 1000) != CDiv(scaled, 1000) then scaled + 100 else scaled
  }

  /** What the adjusted reading needs beyond `LsbToCelsiusDefined`. */
  predicate LsbToCelsiusAdjustedDefined(dtemp: int) {
    LsbToCelsiusDefined(dtemp) && IsInt(CDiv(CelsiusAdjusted(28 * dtemp - 251400), 1000))
  }

  /**
   * The reading the comment before the adjustment describes: the adjusted
   * scaled value, divided and then passed to `meas_trunc`. The source
   * returns `LsbToCelsius` instead. For a non-negative scaled value `s`
   * the reading lies less than 0.9 °C below `s` and at most 1.1 °C above
   * it, and a tenths digit of 9 rounds it up past `s`.
   */
  function LsbToCelsiusAdjusted(dtemp: int): (c: int)
    requires LsbToCelsiusAdjustedDefined(dtemp)
    ensures var s := 28 * dtemp - 251400;
      s >= 0 ==> -900 < c * 1000 - s <= 1100
    ensures var s := 28 * dtemp - 251400;
      s >= 0 && s % 1000 >= 900 ==> c * 1000 > s
  {
    AdjustedQuotient(28 * dtemp - 251400);
    MeasTrunc(CDiv(CelsiusAdjusted(28 * dtemp - 251400), 1000))
  }

  /** A non-negative scaled value, adjusted and truncated, keeps under 0.9 °C and gains at most 0.1 °C. */
  lemma AdjustedQuotient(s: int)
    ensures s >= 0 ==> -900 < CDiv(CelsiusAdjusted(s), 1000) * 1000 - s <= 100
  {
    if s >= 0 {
      assert CDiv(s, 1000) == s / 1000 && CDiv(s + 100, 1000) == (s + 100) / 1000;
    }
  }

  /**
   * Where the discarded adjustment would have changed the reading: for a
   * non-negative scaled value `s`, exactly when its tenths digit is 9 and
   * the degree is not one `meas_trunc` already rounds up; for a negative
   * one, exactly when `s` is at or below -1000 and within a tenth of a
   * degree below a whole degree (so -2.004 degrees would read -1). The adjusted
   * reading is never below the code's, and at most two degrees above it.
   */
  lemma CelsiusIgnoresAdjustment(dtemp: int)
    requires LsbToCelsiusAdjustedDefined(dtemp)
    ensures var s := 28 * dtemp - 251400;
      var code := LsbToCelsius(dtemp);
      var meant := LsbToCelsiusAdjusted(dtemp);
      (s >= 0 ==> (meant != code <==> s % 1000 >= 900 && (s / 1000) % 10 != 9))
      && (s < 0 ==> (meant != code <==> s <= -1000 && (-s) % 1000 < 100))
      && 0 <= meant - code <= 2
  {
    AdjustmentEffect(28 * dtemp - 251400);
  }

  lemma AdjustmentEffect(s: int)
    requires IsInt(CDiv(s, 1000)) && IsInt(CDiv(CelsiusAdjusted(s), 1000))
    ensures var code := MeasTrunc(CDiv(s, 1000));
      var meant := MeasTrunc(CDiv(CelsiusAdjusted(s), 1000));
      (s >= 0 ==> (meant != code <==> s % 1000 >= 900 && (s / 1000) % 10 != 9))
      && (s < 0 ==> (meant != code <==> s <= -1000 && (-s) % 1000 < 100))
      && 0 <= meant - code <= 2
  {
    var q := CDiv(s, 1000);
    var q2 := CDiv(s + 100, 1000);
    if s >= 0 {
      assert q == s / 1000;
      assert q2 == (s + 100) / 1000;
      assert q2 == q + 1 <==> s % 1000 >= 900;
      assert q2 == q || q2 == q + 1;
    } else if s > -100 {
      assert q == 0 && q2 == 0;
    } else {
      assert q == -((-s) / 1000);
      assert q2 == -((-s - 100) / 1000);
      assert q2 == q + 1 <==> s <= -1000 && (-s) % 1000 < 100;
      assert q2 == q || q2 == q + 1;
    }
  }

  /** A code worth 0.908 degrees reads 0, where the adjustment would give 1. */
  lemma CelsiusAdjustmentExample()
    ensures LsbToCelsiusAdjustedDefined(9011)
    ensures LsbToCelsius(9011) == 0 && LsbToCelsiusAdjusted(9011) == 1
  {
  }

  /** A code worth -2.004 degrees reads -2, where the adjustment would give -1. */
  lemma CelsiusAdjustmentNegative()
    ensures LsbToCelsiusAdjustedDefined(8907)
    ensures LsbToCelsius(8907) == -2 && LsbToCelsiusAdjusted(8907) == -1
  {
    assert 28 * 8907 - 251400 == -2004;
    assert CDiv(-2004, 1000) == -2 && CDiv(-1904, 1000) == -1;
  }

  lemma CelsiusExamples()
    ensures LsbToCelsius(0) == -251 && LsbToCelsius(1) == -251
    ensures LsbToCelsius(9871) == 24
  {
  }

  predicate CelsiusToLsbDefined(degrees: int) {
    IsInt(degrees) && IsInt(CDiv(degrees * 1000 + 251400, 28))
  }

  /** `celsius_to_LSB`: code = (1000 * degrees + 251400) / 28, within one LSB. */
  function CelsiusToLsb(degrees: int): (units: int)
    requires CelsiusToLsbDefined(degrees)
    ensures -28 <= units * 28 - (degrees * 1000 + 251400) <= 28
  {
    MeasTrunc(CDiv(degrees * 1000 + 251400, 28))
  }

  predicate FaradsToLsbDefined(cap: int) {
    IsLongLong(cap) && IsLongLong(1000000 * cap * RTST)
    && IsInt(CDiv(CDiv(1000000 * cap * RTST, RT), 336))
  }

  /**
   * `farads_to_LSB`: 10^6 * cap * RTST / RT / 336, two truncating divisions
   * and no bias: the whole number of LSB in `cap` farads, rounded toward zero.
   */
  function FaradsToLsb(cap: int): (units: int)
    requires FaradsToLsbDefined(cap)
    ensures cap >= 0 ==> 0 <= 1000000 * cap * RTST - units * (RT * 336) < RT * 336
    ensures cap < 0 ==> -(RT * 336) < 1000000 * cap * RTST - units * (RT * 336) <= 0
  {
    CDiv(CDiv(1000000 * cap * RTST, RT), 336)
  }

  /**
   * `LSB_to_farads`: code * 336 * RT / RTST / 10^6 in 64 bits, then the bias.
   * The result is within one farad of the exact value.
   */
  function LsbToFarads(units: int): (cap: int)
    requires IsInt(units)
    ensures -(RTST * 1000000) <= cap * (RTST * 1000000) - units * (336 * RT) <= RTST * 1000000
  {
    var result := CDiv(CDiv(units * 336 * RT, RTST), 1000000);
    MeasTrunc(result)
  }

  predicate MilliohmsToLsbDefined(esr: int) {
    IsLongLong(esr) && IsLongLong(esr * 64) && IsInt(CDiv(esr * 64, RSNSC))
  }

  /** `milliohms_to_LSB`: esr * 64 / RSNSC, within one LSB. */
  function MilliohmsToLsb(esr: int): (units: int)
    requires MilliohmsToLsbDefined(esr)
    ensures -RSNSC <= units * RSNSC - esr * 64 <= RSNSC
  {
    MeasTrunc(CDiv(esr * 64, RSNSC))
  }

  /** `LSB_to_milliohms`: code * RSNSC / 64, within one milliohm. */
  function LsbToMilliohms(units: int): (esr: int)
    requires IsInt(units)
    ensures -64 <= esr * 64 - units * RSNSC <= 64
  {
    var result := CDiv(units * RSNSC, 64);
    MeasTrunc(result)
  }

  // Round trips. The bias and the truncations lose at most a bounded amount,
  // so reading a code and writing the reading back lands near the code, and
  // writing a physical value and reading it back lands near the value.

  /** Code -> millivolts -> code: within 6 LSB on the cell scale, within 1 on the others. */
  lemma MillivoltsRoundTrip(units: int, factor: int)
    requires IsVoltageFactor(factor) && IsInt(units) && IsInt(units * factor)
    ensures MillivoltsToLsbDefined(LsbToMillivolts(units, factor), factor)
    ensures factor == VCELL_FACTOR ==>
      -6 <= MillivoltsToLsb(LsbToMillivolts(units, factor), factor) - units <= 6
    ensures factor != VCELL_FACTOR ==>
      -1 <= MillivoltsToLsb(LsbToMillivolts(units, factor), factor) - units <= 1
  {
    var mv := LsbToMillivolts(units, factor);
    assert -10000 <= mv * 10000 - units * factor <= 10000;
    assert MillivoltsToLsbDefined(mv, factor);
    var back := MillivoltsToLsb(mv, factor);
    assert -factor - 10000 <= back * factor - units * factor <= factor + 10000;
    if factor == VCELL_FACTOR {
      assert -11835 <= (back - units) * 1835 <= 11835;
    } else if factor == VCAP_FACTOR {
      assert -24760 <= (back - units) * 14760 <= 24760;
    } else {
      assert -32100 <= (back - units) * 22100 <= 32100;
    }
  }

  /** Millivolts -> code -> millivolts: within 1, 2 or 3 mV on the cell, stack and input scales. */
  lemma MillivoltsWriteRead(mv: int, factor: int)
    requires IsVoltageFactor(factor) && -100000 <= mv <= 100000
    ensures MillivoltsToLsbDefined(mv, factor)
    ensures IsInt(MillivoltsToLsb(mv, factor) * factor)
    ensures factor == VCELL_FACTOR ==> -1 <= LsbToMillivolts(MillivoltsToLsb(mv, factor), factor) - mv <= 1
    ensures factor == VCAP_FACTOR ==> -2 <= LsbToMillivolts(MillivoltsToLsb(mv, factor), factor) - mv <= 2
    ensures factor == VIN_FACTOR ==> -3 <= LsbToMillivolts(MillivoltsToLsb(mv, factor), factor) - mv <= 3
  {
    assert MillivoltsToLsbDefined(mv, factor);
    var units := MillivoltsToLsb(mv, factor);
    assert -factor <= units * factor - mv * 10000 <= factor;
    var back := LsbToMillivolts(units, factor);
    assert -10000 - factor <= (back - mv) * 10000 <= 10000 + factor;
  }

  /** Code -> degrees -> code: within 36 LSB, the size of one degree. */
  lemma CelsiusRoundTrip(dtemp: int)
    requires -1000000000 <= dtemp <= 1000000000
    ensures LsbToCelsiusDefined(dtemp)
    ensures CelsiusToLsbDefined(LsbToCelsius(dtemp))
    ensures -36 <= CelsiusToLsb(LsbToCelsius(dtemp)) - dtemp <= 36
  {
    assert LsbToCelsiusDefined(dtemp);
    var c := LsbToCelsius(dtemp);
    assert CelsiusToLsbDefined(c);
    var back := CelsiusToLsb(c);
    assert -1028 <= (back - dtemp) * 28 <= 1028;
  }

  /** Degrees -> code -> degrees: within one degree. */
  lemma CelsiusWriteRead(degrees: int)
    requires -1000000 <= degrees <= 1000000
    ensures CelsiusToLsbDefined(degrees)
    ensures LsbToCelsiusDefined(CelsiusToLsb(degrees))
    ensures -1 <= LsbToCelsius(CelsiusToLsb(degrees)) - degrees <= 1
  {
    assert CelsiusToLsbDefined(degrees);
    var units := CelsiusToLsb(degrees);
    assert LsbToCelsiusDefined(units);
    var back := LsbToCelsius(units);
    assert -1028 <= (back - degrees) * 1000 <= 1028;
  }

  /** Writing 25 degrees and reading it back shows 24: the bias does not undo the truncations. */
  lemma CelsiusWriteReadLoses()
    ensures CelsiusToLsb(25) == 9871 && LsbToCelsius(9871) == 24
  {
  }

  /** Code -> farads -> code: within 5 LSB. */
  lemma FaradsRoundTrip(units: int)
    requires IsInt(units)
    ensures FaradsToLsbDefined(LsbToFarads(units))
    ensures -5 <= FaradsToLsb(LsbToFarads(units)) - units <= 5
  {
    var cap := LsbToFarads(units);
    assert FaradsToLsbDefined(cap);
    var back := FaradsToLsb(cap);
    var read := cap * 121000000 - units * 29097600;
    var written := 1000000 * cap * RTST - back * (RT * 336);
    assert -121000000 <= read <= 121000000;
    assert -29097600 < written < 29097600;
    assert (back - units) * 29097600 == read - written;
  }

  /** Farads -> code -> farads: within one farad. */
  lemma FaradsWriteRead(cap: int)
    requires -100000000 <= cap <= 100000000
    ensures FaradsToLsbDefined(cap)
    ensures -1 <= LsbToFarads(FaradsToLsb(cap)) - cap <= 1
  {
    assert FaradsToLsbDefined(cap);
    var units := FaradsToLsb(cap);
    var back := LsbToFarads(units);
    assert -150097600 < (back - cap) * 121000000 < 150097600;
  }

  /** Code -> milliohms -> code: within 13 LSB, the size of one milliohm. */
  lemma MilliohmsRoundTrip(units: int)
    requires -1000000000 <= units <= 1000000000
    ensures MilliohmsToLsbDefined(LsbToMilliohms(units))
    ensures -13 <= MilliohmsToLsb(LsbToMilliohms(units)) - units <= 13
  {
    var esr := LsbToMilliohms(units);
    assert MilliohmsToLsbDefined(esr);
    var back := MilliohmsToLsb(esr);
    assert -69 <= (back - units) * 5 <= 69;
  }

  /** Milliohms -> code -> milliohms: within one milliohm. */
  lemma MilliohmsWriteRead(esr: int)
    requires -100000000 <= esr <= 100000000
    ensures MilliohmsToLsbDefined(esr)
    ensures -1 <= LsbToMilliohms(MilliohmsToLsb(esr)) - esr <= 1
  {
    assert MilliohmsToLsbDefined(esr);
    var units := MilliohmsToLsb(esr);
    var back := LsbToMilliohms(units);
    assert -69 <= (back - esr) * 64 <= 69;
  }
}
