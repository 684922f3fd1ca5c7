/**
 * The conversion facade: `convert_from_LSB` (text read from an attribute ->
 * "<value> <unit>") and `convert_to_LSB` (a physical value with its unit
 * label -> the raw code to write). Both compose the classifier with the
 * converters.
 */
module Facade {
  import opened CInt
  import opened Wrappers
  import opened Converter
  import opened Classifier
  import opened Decimal

  /** `EINVAL` of <errno.h> on Linux, which `convert_to_LSB` returns in band. */
  const EINVAL: int := 22

  /** The one error of the core: a unit label that is not recognised (`EINVAL`). */
  datatype Errno = InvalidUnit

  /**
   * What the forward law of `q` needs of a code `v` read as `long long`:
   * no signed overflow and no out-of-range narrowing to `int` (the
   * voltage, capacitance, resistance and raw paths pass `v` as an `int`).
   */
  predicate ForwardDefined(q: Quantity, v: int) {
    match q
    case Voltage(f) => IsInt(v) && IsInt(v * Factor(f))
    case Temperature => LsbToCelsiusDefined(v)
    case _ => IsInt(v)
  }

  /** The forward law of each quantity, the branches of `convert_from_LSB`. */
  function FromLsb(q: Quantity, v: int): (x: int)
    requires ForwardDefined(q, v)
    ensures IsInt(x)
  {
    match q
    case Voltage(f) => LsbToMillivolts(v, Factor(f))
    case Capacitance => LsbToFarads(v)
    case Temperature => LsbToCelsius(v)
    case Resistance => LsbToMilliohms(v)
    case Raw => v
  }

  /** The text holds no overflowing code for `name`'s conversion. */
  predicate FromLsbDefined(buf: string, name: string) {
    ParseDecimal(buf).None? || ForwardDefined(Classify(name), ParseDecimal(buf).value)
  }

  /**
   * `convert_from_LSB`: `None` (the C NULL) exactly when the text holds no
   * digits, so "0" is accepted; otherwise the `%d %s` text of the converted
   * value and the unit of the attribute's quantity. The text ends with a
   * space and the unit label; what comes before is the `%d` spelling of the
   * converted value (a minus sign exactly when it is negative, then digits
   * with no leading zero), which `DecimalSpellingUnique` shows is one text.
   */
  function ConvertFromLsb(buf: string, name: string): (r: Option<string>)
    requires FromLsbDefined(buf, name)
    ensures r.None? <==> ParseDecimal(buf).None?
    ensures r.Some? ==> ParseDecimal(r.value) == Some(FromLsb(Classify(name), ParseDecimal(buf).value))
    ensures r.Some? ==> (|r.value| > |Unit(Classify(name))|
      && r.value[|r.value| - |Unit(Classify(name))| - 1..] == " " + Unit(Classify(name)))
    ensures r.Some? ==>
      var number := r.value[..|r.value| - |Unit(Classify(name))| - 1];
      var x := FromLsb(Classify(name), ParseDecimal(buf).value);
      IsDecimalSpelling(number) && ParseDecimal(number) == Some(x) && (number[0] == '-' <==> x < 0)
  {
    match ParseDecimal(buf)
    case None => None
    case Some(value) =>
      var q := Classify(name);
      var x := FromLsb(q, value);
      var text := FormatInt(x) + (" " + Unit(q));
      ParseFormat(x, " " + Unit(q));
      ParseFormat(x, "");
      FormatIntSpelling(x);
      assert FormatInt(x) + "" == FormatInt(x);
      assert text[..|text| - |Unit(q)| - 1] == FormatInt(x);
      Some(text)
  }

  /**
   * The quantity `convert_to_LSB` converts to for a unit label and a name,
   * if any: one whose unit is exactly the label, the voltage scale taken
   * from the name's family.
   */
  function WriteQuantity(unit: string, name: string): (r: Option<Quantity>)
    ensures r.Some? ==> Unit(r.value) == unit && r.value != Raw
    ensures unit == "F" || unit == "C" || unit == "mR" ==> r.Some?
    ensures unit == "mV" ==> (r.Some? <==> WriteFamily(name).Some?)
    ensures r.Some? && r.value.Voltage? ==> WriteFamily(name) == Some(r.value.family)
  {
    if unit == "mV" then
      match WriteFamily(name)
      case Some(f) => Some(Voltage(f))
      case None => None
    else if unit == "F" then Some(Capacitance)
    else if unit == "C" then Some(Temperature)
    else if unit == "mR" then Some(Resistance)
    else None
  }

  /** What the inverse law of `q` needs of a `long` value (raw text is never converted). */
  predicate InverseDefined(q: Quantity, value: int) {
    match q
    case Voltage(f) => MillivoltsToLsbDefined(value, Factor(f))
    case Capacitance => FaradsToLsbDefined(value)
    case Temperature => CelsiusToLsbDefined(value)
    case Resistance => MilliohmsToLsbDefined(value)
    case Raw => false
  }

  /**
   * The inverse law of each quantity, the branches of `convert_to_LSB`:
   * the code times the law's step lies within one step of the scaled value.
   */
  function ToLsb(q: Quantity, value: int): (x: int)
    requires InverseDefined(q, value)
    ensures IsInt(x)
    ensures q.Voltage? ==> -Factor(q.family) <= x * Factor(q.family) - value * 10000 <= Factor(q.family)
    ensures q == Capacitance && value >= 0 ==> 0 <= 1000000 * value * RTST - x * (RT * 336) < RT * 336
    ensures q == Capacitance && value < 0 ==> -(RT * 336) < 1000000 * value * RTST - x * (RT * 336) <= 0
    ensures q == Temperature ==> -28 <= x * 28 - (value * 1000 + 251400) <= 28
    ensures q == Resistance ==> -RSNSC <= x * RSNSC - value * 64 <= RSNSC
  {
    match q
    case Voltage(f) => MillivoltsToLsb(value, Factor(f))
    case Capacitance => FaradsToLsb(value)
    case Temperature => CelsiusToLsb(value)
    case Resistance => MilliohmsToLsb(value)
  }

  /** What the inverse law chosen for `unit` and `name` needs of a `long` value. */
  predicate ToLsbDefined(value: int, unit: string, name: string) {
    IsLongLong(value)
    && (WriteQuantity(unit, name).Some? ==> InverseDefined(WriteQuantity(unit, name).value, value))
  }

  /**
   * `convert_to_LSB`: dispatch on the unit label first. "F", "C" and "mR"
   * name their law outright; "mV" takes the scale from the name. An
   * unknown label (the empty one included), or "mV" for a name no voltage
   * rule matches, is `InvalidUnit`; a success is the code the inverse law
   * of the label's quantity gives, an `int`.
   */
  function ConvertToLsb(value: int, unit: string, name: string): (r: Result<int, Errno>)
    requires ToLsbDefined(value, unit, name)
    ensures r.Failure? <==> !(unit == "mV" || unit == "F" || unit == "C" || unit == "mR")
                            || (unit == "mV" && WriteFamily(name).None?)
    ensures r.Success? ==> WriteQuantity(unit, name).Some? && Unit(WriteQuantity(unit, name).value) == unit
    ensures r.Success? ==> r.value == ToLsb(WriteQuantity(unit, name).value, value)
    ensures r.Success? ==> IsInt(r.value)
  {
    if unit == "mV" then
      match WriteFamily(name)
      case Some(f) => Success(MillivoltsToLsb(value, Factor(f)))
      case None => Failure(InvalidUnit)
    else if unit == "F" then Success(FaradsToLsb(value))
    else if unit == "C" then Success(CelsiusToLsb(value))
    else if unit == "mR" then Success(MilliohmsToLsb(value))
    else Failure(InvalidUnit)
  }

  /** "F", "C" and "mR" ignore the attribute name. */
  lemma NonVoltageUnitsIgnoreName(value: int, unit: string, name: string, other: string)
    requires unit == "F" || unit == "C" || unit == "mR"
    requires ToLsbDefined(value, unit, name)
    ensures ToLsbDefined(value, unit, other)
    ensures ConvertToLsb(value, unit, name) == ConvertToLsb(value, unit, other)
  {
  }

  /** `convert_to_LSB` as written: the error is the ordinary `int` value `EINVAL`. */
  function ConvertToLsbReturn(value: int, unit: string, name: string): (code: int)
    requires ToLsbDefined(value, unit, name)
    ensures ConvertToLsb(value, unit, name).Failure? ==> code == EINVAL
    ensures ConvertToLsb(value, unit, name).Success? ==> code == ConvertToLsb(value, unit, name).value
  {
    match ConvertToLsb(value, unit, name)
    case Success(c) => c
    case Failure(_) => EINVAL
  }

  /** 33 mV on the stack scale, written to a stack threshold, is the code 22. */
  lemma StackThirtyThree()
    ensures ToLsbDefined(33, "mV", "vcap_ov_lvl")
    ensures ConvertToLsb(33, "mV", "vcap_ov_lvl") == Success(22)
  {
    StackThresholdPrefix();
    StackVoltageNames("vcap_ov_lvl");
    StackCode33();
  }

  lemma StackThresholdPrefix()
    ensures StartsWith("vcap_ov_lvl", "vcap_")
  {
  }

  lemma StackCode33()
    ensures MillivoltsToLsbDefined(33, VCAP_FACTOR) && MillivoltsToLsb(33, VCAP_FACTOR) == 22
  {
  }

  /**
   * The in-band error cannot be told apart from a real code: 33 mV on the
   * stack scale converts to 22, which is also what an unknown unit returns.
   */
  lemma EinvalIsAmbiguous()
    ensures ToLsbDefined(33, "mV", "vcap_ov_lvl") && ToLsbDefined(5, "Z", "vin_something")
    ensures ConvertToLsb(33, "mV", "vcap_ov_lvl") == Success(EINVAL)
    ensures ConvertToLsb(5, "Z", "vin_something") == Failure(InvalidUnit)
    ensures ConvertToLsbReturn(33, "mV", "vcap_ov_lvl") == ConvertToLsbReturn(5, "Z", "vin_something")
  {
    StackThirtyThree();
  }

  /** The largest distance, in LSB, between a code and the code its reading writes back. */
  function RoundTripSlack(q: Quantity): int {
    match q
    case Voltage(Cell) => 6
    case Voltage(_) => 1
    case Capacitance => 5
    case Temperature => 36
    case Resistance => 13
    case Raw => 0
  }

  /**
   * Reading a code and writing the reading back with the unit it was
   * printed with lands within `RoundTripSlack` of the code, for every
   * converted attribute; a raw attribute's empty unit is refused by
   * `convert_to_LSB` (the caller writes raw text itself).
   */
  lemma ReadWriteRoundTrip(name: string, raw: int)
    requires ForwardDefined(Classify(name), raw) && -1000000000 <= raw <= 1000000000
    ensures var q := Classify(name);
      var x := FromLsb(q, raw);
      ToLsbDefined(x, Unit(q), name)
      && (q == Raw <==> ConvertToLsb(x, Unit(q), name).Failure?)
      && (q != Raw ==> -RoundTripSlack(q) <= ConvertToLsb(x, Unit(q), name).value - raw <= RoundTripSlack(q))
  {
    var q := Classify(name);
    match q
    case Voltage(f) =>
      VoltageRulesAgree(name);
      MillivoltsRoundTrip(raw, Factor(f));
    case Capacitance =>
      FaradsRoundTrip(raw);
    case Temperature =>
      CelsiusRoundTrip(raw);
    case Resistance =>
      MilliohmsRoundTrip(raw);
    case Raw =>
  }

  /** The text of a reading, spelled out. */
  lemma TextOfReading(buf: string, name: string, value: int)
    requires ParseDecimal(buf) == Some(value) && ForwardDefined(Classify(name), value)
    ensures FromLsbDefined(buf, name)
    ensures ConvertFromLsb(buf, name)
      == Some(FormatInt(FromLsb(Classify(name), value)) + (" " + Unit(Classify(name))))
  {
  }

  /** Code 1000 of "meas_vin" reads as 2210 mV. */
  lemma MeasVinReading(buf: string, name: string)
    requires buf == "1000" && name == "meas_vin"
    ensures FromLsbDefined(buf, name)
    ensures ConvertFromLsb(buf, name) == Some("2210 mV")
  {
    ParseThousand();
    MeasVinIsInputVoltage();
    InputThousand();
    TextOf2210();
    TextOfReading(buf, name, 1000);
  }

  lemma TextOf2210()
    ensures FormatInt(2210) + (" " + "mV") == "2210 mV"
  {
    assert FormatInt(2210) == "2210";
  }

  lemma InputThousand()
    ensures ForwardDefined(Voltage(Input), 1000)
    ensures FromLsb(Voltage(Input), 1000) == 2210 && Unit(Voltage(Input)) == "mV"
  {
  }

  /**
   * Every reading fits the 15-byte buffer `convert_from_LSB` allocates:
   * at most 11 characters of `%d`, a space and a unit of at most two letters.
   */
  lemma ReadingFitsBuffer(buf: string, name: string)
    requires FromLsbDefined(buf, name)
    ensures ConvertFromLsb(buf, name).Some? ==> |ConvertFromLsb(buf, name).value| <= 14
  {
    if ParseDecimal(buf).Some? {
      var q := Classify(name);
      FormatIntLength(FromLsb(q, ParseDecimal(buf).value));
    }
  }
}
