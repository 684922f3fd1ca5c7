# LTC3350 monitor: conversion and status-decoding core

The monitor CLI talks to the LTC3350 supercapacitor charger through sysfs
attributes that hold raw register codes ("LSB"). Its core is the integer
arithmetic of `files/main.c`:

- the fixed-point converters between codes and physical units (millivolts
  on three voltage scales, degrees Celsius, farads, milliohms) and the
  `meas_trunc` rounding bias;
- the attribute-name classifier (`starts_with` and the prefix rules) that
  picks a conversion law in each direction;
- `convert_from_LSB` (a code read as decimal text becomes `"<value> <unit>"`)
  and `convert_to_LSB` (a value with its unit label becomes the code to
  write, or `EINVAL`);
- the bit tables of the alarm register, the monitor status and the charger
  status, and the decoding `status_report` performs on the three words.

Everything is pure computation on values, so the model is written as
datatypes, functions and lemmas:

| module | file | models |
|---|---|---|
| `CInt` | cint.dfy | `int`/`long long` ranges, C's truncating `/` and `%` |
| `Converter` | converter.dfy | `meas_trunc`, the `LSB_to_*` and `*_to_LSB` converters, round-trip bounds |
| `Classifier` | classifier.dfy | `starts_with`, the read-side and write-side prefix rules |
| `Decimal` | decimal.dfy | the part of `strtoll` the code relies on, `%d` formatting |
| `Facade` | facade.dfy | `convert_from_LSB`, `convert_to_LSB` |
| `Status` | status.dfy | the bit tables, `log_monitor`/`log_alarm`/`log_chrg`, `status_report` |
| `Wrappers` | wrappers.dfy | `Option`, `Result` |

Integer semantics. C's `/` and `%` truncate toward zero; they are
`CInt.CDiv` and `CInt.CMod`. Every divisor in the core is positive. Signed
overflow, which is undefined in C, and every narrowing to `int` (`meas_trunc`'s
cast, an implicit return conversion, a `long long` argument passed as `int`)
are preconditions. The contracts therefore hold exactly on the inputs for
which the C code computes without wrapping. The data model is assumed LP64:
`int` is 32 bits, `long` and `long long` are 64 bits.

A status word is read as a C `int`. Its bits are examined through
`BIT(n) = 1UL << n`, so a negative word is seen in two's complement:
`Status.WordOfInt` maps it to `0 .. 2^32 - 1`. `Status.BitSet` is bit `b`,
defined by halving; `Status.BitSetByDivision` ties it to the C mask test.

Each table is a sequence of `Condition(bit, flag)` in the order
`status_report` tests the bits. `Status.Description` and `Status.Attributes`
hold the exact texts and the related attribute names of every flag.
`Status.Decode` keeps the entries whose bit is in a set of bit indices, and
`Status.SetBits` is the set of bits of a word.

Behaviour of the code that departs from its documented intent, followed by
this model:

- `LSB_to_celsius` computes a "+100" rounding adjustment and then discards
  it: the result is recomputed from the unadjusted value. `Converter.LsbToCelsiusAdjusted`
  is the reading the adjustment's comment describes. `Converter.CelsiusIgnoresAdjustment`
  states exactly which codes the two readings disagree on. A code worth 0.908 °C reads 0
  where the adjusted reading is 1. Below zero the adjustment would move a reading up a
  whole degree: -2.004 °C would read -1.
- Monitor bit 7 and charger bit 10 are the only gaps in those tables. Alarm
  bits 16 and up are undefined (`Status.GapBitIgnored`).
- The stack-voltage rule differs between the two directions:
  - reading matches "vcap_", while writing matches "vcap";
  - so "vcap" alone reads raw but writes on the stack scale (`Classifier.VoltageRulesDiffer`).
- The shunt rule has no "meas_" form (`Classifier.ShuntHasNoMeasForm`).
- Alarm bits 0 and 1 compare "meas_cap", a capacitance, with
  "cap_uv_lvl"/"cap_ov_lvl", thresholds on the cell voltage scale.
- The VIN alarms reuse the GPI threshold labels.
- Alarm bits 6 and 7 reuse the descriptions of bits 0 and 1.
- Writing 25 °C and reading it back gives 24 °C (`Converter.CelsiusWriteReadLoses`).

`convert_from_LSB` prints raw attributes with the empty unit, and
`convert_to_LSB` has no rule for the empty unit, so `Facade.ConvertToLsb`
fails on it (`Facade.ReadWriteRoundTrip`). Raw values are still written:
`write_value` writes a value given with the empty unit as text, without
converting it. `main` passes the empty unit when the write command names no
unit.

## Model

| member | source | states |
|---|---|---|
| CInt.CDiv | files/main.c:493 | C's `/` by a positive divisor: the remainder `a - q*b` lies in `[0, b)` for `a >= 0` and in `(-b, 0]` for `a < 0`, and `q` lies between 0 and `a` |
| CInt.CMod | files/main.c:435 | C's `%`: equals the Euclidean remainder for `a >= 0`, lies in `(-b, 0]` for `a < 0`, and is `a - CDiv(a, b) * b` |
| CInt.NegativeDividends | files/main.c:435 | on -1 and -251399 the truncating and the Euclidean operators give different results (`-1 % 10` is -1 in C, 9 in Dafny) |
| CInt.CDivOdd | files/main.c:453 | truncating division and remainder are odd in the dividend |
| Converter.MeasTrunc | files/main.c:432-439 | the result is `n` or `n + 1`; it is `n + 1` exactly when `n >= 0` ends in 9; the result never ends in 9 under C's `%` |
| Converter.MeasTruncIdempotent | files/main.c:432-439 | applying `meas_trunc` twice equals applying it once |
| Converter.MeasTruncExamples | files/main.c:432-439 | 9 and 2209 round up to 10 and 2210; 10, -1 and -9 are unchanged |
| Converter.LsbToMillivolts | files/main.c:482-488 | the result is within 1 mV of `units * factor / 10000`, and non-negative when the product is |
| Converter.MillivoltsToLsb | files/main.c:471-477 | the result is within one LSB of `mv * 10000 / factor`, and non-negative for non-negative `mv` |
| Converter.LsbToCelsius | files/main.c:446-454 | the result is within 1 °C of `0.028 * code - 251.4` |
| Converter.CelsiusAdjusted | files/main.c:451-452 | the "+100" adjustment: 100 is added exactly when it carries the truncated quotient by 1000 to another value |
| Converter.LsbToCelsiusAdjusted | files/main.c:449-453 | the reading the adjustment's comment describes: for a non-negative scaled value it lies less than 0.9 °C below and at most 1.1 °C above that value, and a tenths digit of 9 rounds it up past the value |
| Converter.CelsiusIgnoresAdjustment | files/main.c:448-453 | the code and the adjusted reading differ exactly when the tenths digit of a non-negative scaled value is 9 and the degree does not already end in 9, or when a negative scaled value lies at or below -1000 and within 0.1 °C below a whole degree; the adjusted reading is 0 to 2 °C above the code's |
| Converter.CelsiusAdjustmentExample | files/main.c:448-453 | code 9011 (0.908 °C) reads 0 °C; the adjusted reading is 1 °C |
| Converter.CelsiusAdjustmentNegative | files/main.c:448-453 | code 8907 (-2.004 °C) reads -2 °C; the adjusted reading is -1 °C |
| Converter.CelsiusExamples | files/main.c:446-454 | codes 0 and 1 read -251 °C; code 9871 reads 24 °C |
| Converter.CelsiusToLsb | files/main.c:460-463 | the result is within one LSB of `(1000 * degrees + 251400) / 28` |
| Converter.FaradsToLsb | files/main.c:491-494 | the whole number of LSB in `cap` farads, truncated toward zero, with no bias |
| Converter.LsbToFarads | files/main.c:497-501 | the result is within 1 F of `units * 336 * RT / (RTST * 10^6)` |
| Converter.MilliohmsToLsb | files/main.c:503-506 | the result is within one LSB of `esr * 64 / RSNSC` |
| Converter.LsbToMilliohms | files/main.c:508-512 | the result is within 1 mΩ of `units * RSNSC / 64` |
| Converter.MillivoltsRoundTrip | files/main.c:471-488 | code → mV → code lands within 6 LSB on the cell scale and within 1 on the stack and input scales |
| Converter.MillivoltsWriteRead | files/main.c:471-488 | mV → code → mV lands within 1, 2 and 3 mV on the cell, stack and input scales |
| Converter.CelsiusRoundTrip | files/main.c:446-463 | code → °C → code lands within 36 LSB |
| Converter.CelsiusWriteRead | files/main.c:446-463 | °C → code → °C lands within 1 °C |
| Converter.CelsiusWriteReadLoses | files/main.c:446-463 | 25 °C writes as 9871 and reads back as 24 °C |
| Converter.FaradsRoundTrip | files/main.c:491-501 | code → F → code lands within 5 LSB |
| Converter.FaradsWriteRead | files/main.c:491-501 | F → code → F lands within 1 F |
| Converter.MilliohmsRoundTrip | files/main.c:503-512 | code → mΩ → code lands within 13 LSB |
| Converter.MilliohmsWriteRead | files/main.c:503-512 | mΩ → code → mΩ lands within 1 mΩ |
| Classifier.StartsWith | files/main.c:576-585 | `starts_with`, by recursion on both strings; `Classifier.StartsWithSpec` states what it means |
| Classifier.StartsWithSpec | files/main.c:576-585 | `starts_with` holds iff the prefix is no longer than the string and equals its first characters, iff the string is the prefix followed by something |
| Classifier.StartsWithEdges | files/main.c:581-582 | the empty prefix always matches; a prefix longer than the string never does; a string begins with itself |
| Classifier.StartsWithTransitive | files/main.c:576-585 | a prefix of a prefix of a name is a prefix of the name |
| Classifier.PrefixesClash | files/main.c:576-585 | two prefixes that differ at some position never both begin the same name |
| Classifier.IsCellName | files/main.c:534-540 | the cell-voltage prefixes, shared by both directions |
| Classifier.IsInputName | files/main.c:548-549 | the input-voltage prefixes used when reading; writing tests the same ones |
| Classifier.Classify | files/main.c:534-569 | the read-side rules in the order of the `if` chain: cell, stack, input voltage, capacitance, temperature, resistance, otherwise raw |
| Classifier.WriteFamily | files/main.c:402-418 | the voltage scale of an "mV" write: cell, then stack ("vcap"), then input prefixes, otherwise none |
| Classifier.CellRuleTakesPrecedence | files/main.c:534-544 | a "meas_vcap1…" name also matches "meas_vcap", yet reads and writes on the cell scale |
| Classifier.CellThresholdsAreVoltages | files/main.c:534-554 | "cap_uv…" and "cap_ov…" names also match "cap", yet are cell-scale voltages in both directions |
| Classifier.CapThresholdPrefixes | files/main.c:611-612 | the capacitor threshold attributes carry the "cap_uv" and "cap_ov" prefixes |
| Classifier.CapEsrIsRaw | files/main.c:553 | a "cap_esr…" name is raw when read and has no "mV" rule when written |
| Classifier.VoltageRulesAgree | files/main.c:534-552 | every name read as a voltage writes in "mV" on the same scale |
| Classifier.VcapIsNoInputName | files/main.c:412-416 | a name matching an input-voltage prefix matches neither "vcap" nor "meas_vcap" |
| Classifier.VoltageRulesDiffer | files/main.c:412 | the directions disagree iff the name begins "vcap", not "vcap_", and is no cell name; such a name reads raw and writes on the stack scale |
| Classifier.StackVoltageNames | files/main.c:544-545 | "vcap_…" names use the stack scale in both directions |
| Classifier.MeasVinIsInputVoltage | files/main.c:548-550 | "meas_vin" reads on the input scale |
| Classifier.BareVcapAsymmetry | files/main.c:412-413 | "vcap" reads raw and writes on the stack scale |
| Classifier.ShuntHasNoMeasForm | files/main.c:534-566 | every "meas_vs…" name, "meas_vshunt" included, reads raw |
| Classifier.MeasCapIsCapacitance | files/main.c:553-555 | every "meas_cap…" name reads as a capacitance |
| Decimal.LeadingDigits | files/main.c:526 | the longest run of digits at the start of the text: a digit-only prefix, followed by a non-digit or the end |
| Decimal.ParseDecimal | files/main.c:526-531 | `None` (the NULL return) exactly when no digit follows the optional sign |
| Decimal.FormatNat | files/main.c:570 | at least one digit, all digits, no leading zero, and its value is `n` |
| Decimal.FormatInt | files/main.c:570 | `%d`: a minus sign before the digits of the magnitude of a negative value |
| Decimal.FormatIntSpelling | files/main.c:570 | the `%d` text is an optional minus sign, present exactly for a negative value, then digits with no leading zero and no "-0" |
| Decimal.DecimalSpellingUnique | files/main.c:570 | a text of that shape that reads as `n` is exactly the `%d` text of `n` |
| Decimal.ParseFormat | files/main.c:570 | parsing the `%d` text of `n`, followed by any text not starting with a digit, gives `n` back |
| Decimal.FormatNatLength | files/main.c:517 | a value below 10^k prints in at most k digits |
| Decimal.FormatIntLength | files/main.c:570 | an `int` prints in at most 11 characters |
| Decimal.ParseThousand | files/main.c:526 | "1000" reads as 1000 |
| Decimal.ParseZero | files/main.c:527 | "0" is a value, not the error case |
| Decimal.ParseSignedPrefix | files/main.c:526 | "-12x" reads as -12: the sign is read and trailing text is ignored |
| Decimal.ParseNothing | files/main.c:527-530 | "", "-" and "x1" read nothing |
| Facade.FromLsb | files/main.c:533-569 | each forward law returns an `int` |
| Facade.ConvertFromLsb | files/main.c:514-573 | `None` exactly when the text holds no digits; otherwise a space and the quantity's unit end the text, and what precedes them is the `%d` spelling of the converted value (a minus sign exactly for a negative value, digits without a leading zero) and reads back as that value |
| Facade.WriteQuantity | files/main.c:402-428 | the quantity chosen for a unit label: its unit is the label; "F", "C" and "mR" always have one; "mV" has one exactly when the name has a voltage scale, and the scale is that one |
| Facade.ToLsb | files/main.c:410-428 | the inverse laws: the code times the law's step is within one step of `10000 * mV`, `1000 * °C + 251400` or `64 * mΩ`; for farads, the code is `10^6 * RTST * F / (336 * RT)` truncated toward zero |
| Facade.ConvertToLsb | files/main.c:400-430 | fails exactly on an unknown unit (the empty unit included) or on "mV" for a name no voltage rule matches; a success is the `int` code the inverse law of the label's quantity gives |
| Facade.NonVoltageUnitsIgnoreName | files/main.c:420-428 | with "F", "C" or "mR" the attribute name does not affect the result |
| Facade.ConvertToLsbReturn | files/main.c:429 | the C return value: `EINVAL` (22) on failure, the code on success |
| Facade.StackCode33 | files/main.c:471-477 | 33 mV on the stack scale is the code 22 |
| Facade.StackThresholdPrefix | files/main.c:544 | "vcap_ov_lvl" begins "vcap_" |
| Facade.StackThirtyThree | files/main.c:412-413 | writing 33 mV to "vcap_ov_lvl" succeeds with the code 22 |
| Facade.EinvalIsAmbiguous | files/main.c:429 | a successful write and a rejected unit return the same `int` |
| Facade.ReadWriteRoundTrip | files/main.c:514-573 | writing a reading back with its printed unit lands within `RoundTripSlack` LSB of the code; only raw attributes fail |
| Facade.InputThousand | files/main.c:550 | code 1000 on the input scale is 2210 mV |
| Facade.TextOf2210 | files/main.c:570 | 2210 in "mV" prints as "2210 mV" |
| Facade.MeasVinReading | files/main.c:548-551 | code 1000 of "meas_vin" reads as "2210 mV" |
| Facade.ReadingFitsBuffer | files/main.c:517 | every reading has at most 14 characters, so it fits the 15-byte buffer with its terminator |
| Status.WordOfInt | files/main.c:60 | a non-negative `int` keeps its value; a negative one wraps modulo 2^32 |
| Status.BitSet | files/main.c:14 | bit `b` of a word, by halving |
| Status.BitSetByDivision | files/main.c:14 | bit `b` is set exactly when `n / 2^b` is odd, which is the test `n & (1UL << b)` |
| Status.SetBits | files/main.c:60 | the bits below 32 that are set in the word |
| Status.Description | files/main.c:598-640 | the text printed for each flag |
| Status.Attributes | files/main.c:611-626 | for each alarm, the measured attribute, the threshold attribute and their two labels passed to `log_alarm` |
| Status.MonitorTable | files/main.c:35-43 | the monitor status bits in the order `status_report` tests them |
| Status.AlarmTable | files/main.c:17-32 | the alarm register bits in the order `status_report` tests them |
| Status.ChargerTable | files/main.c:46-56 | the charger status bits in the order `status_report` tests them |
| Status.Decode | files/main.c:598-640 | the entries of a table whose bit is in a set, in table order; `Status.DecodeMembers` states what it keeps |
| Status.DecodeStatus | files/main.c:598-640 | one word decoded against its table: the conditions `status_report` prints for it |
| Status.DecodeMembers | files/main.c:59-62 | decoding keeps exactly the entries whose bit is set, and adds none |
| Status.DecodeAscending | files/main.c:598-606 | on an ascending table, the decoded conditions ascend |
| Status.DecodeAppend | files/main.c:598-640 | decoding distributes over concatenated tables |
| Status.DecodeAllSet | files/main.c:598-640 | when every table bit is set, the whole table is reported |
| Status.DecodeNoneSet | files/main.c:598-640 | when no table bit is set, nothing is reported |
| Status.DecodeMasked | files/main.c:598-640 | bit sets that agree on the table's bits decode alike |
| Status.SetClearBit | files/main.c:14 | adding `2^k` to a word with bit `k` clear sets bit `k` and changes no other bit |
| Status.FailedReadSetsAllBits | files/main.c:592 | the word of -1 has all 32 bits set |
| Status.MonitorInOrder | files/main.c:35-43 | the monitor table ascends and lies within the word |
| Status.AlarmInOrder | files/main.c:17-32 | the alarm table ascends and lies within the word |
| Status.ChargerInOrder | files/main.c:46-56 | the charger table ascends and lies within the word |
| Status.TablesInOrder | files/main.c:17-56 | every table ascends and lies within the word |
| Status.UndefinedBitIgnored | files/main.c:59-62 | setting a bit that no entry names leaves the report unchanged |
| Status.GapBitIgnored | files/main.c:34-56 | setting monitor bit 7, charger bit 10 or an alarm bit of 16 or above leaves that word's report unchanged |
| Status.FailedReadReportsAll | files/main.c:589-592 | a word read as -1 reports every condition of its table |
| Status.ZeroReportsNothing | files/main.c:598-640 | a zero word reports nothing |
| Status.CapacitorAlarms | files/main.c:611-612 | an alarm word with bits 0 and 1 set and bits 2-15 clear reports exactly the capacitor under- and overvoltage alarms, with "meas_cap" and their own thresholds |
| Status.DecodeWordMembers | files/main.c:59-62 | on a table whose bits lie below 32, a word keeps exactly the entries whose bit is set in it |
| Status.DecodeStatusMembers | files/main.c:598-640 | a word reports exactly the conditions of its table whose bit is set |
| Status.StatusReport | files/main.c:587-643 | the warning is raised iff any of the three reads returned -1; each list is the decoding of that word's two's-complement bits |
| Status.FailedReadReport | files/main.c:589-606 | a failed monitor read warns and reports every monitor condition |
| Status.StatusAscending | files/main.c:598-640 | each decoded word lists its conditions in ascending bit order |
| Status.ReportAscending | files/main.c:596-640 | all three lists of a report ascend |
| Status.CapacitorAlarmsMeasureFarads | files/main.c:611-612 | the measured attribute of alarm bits 0 and 1 reads as a capacitance |
| Status.CapacitorAlarmThresholdsAreVolts | files/main.c:611-612 | the thresholds of alarm bits 0 and 1 read as cell-scale voltages |

## Left out

- Sysfs I/O is not modelled. This covers `main`, `show`, `await_alerts`,
  `write_value`, `read_file`, `read_integer_value`, `clear_all`, the signal
  handler and the file descriptors. The words and texts they read are
  parameters of the model.
- `printf`/`perror` output is not modelled. `status_report`'s result holds
  the conditions it prints, and `Status.Description` holds their texts.
- Status.StatusReport: does not model the two attribute values `log_alarm`
  reads for each set alarm, nor its "values may be wrong" warning. Both are
  reads done by the caller. `Status.Attributes` names those attributes.
- Status.StatusReport: the constant return value 0 is not modelled.
- Facade.ConvertFromLsb: the `buf == NULL` check is not modelled, because a
  Dafny string cannot be NULL.
- Facade.ConvertFromLsb: a failed `malloc` and the leak of the returned
  buffer are not modelled, since allocation is outside the model.
  `Facade.ReadingFitsBuffer` shows that `snprintf` never truncates.
- Decimal.ParseDecimal: does not skip leading white space. It also does not
  saturate on overflow as `strtoll` does. The two differ only on a text whose
  value lies outside `long long`, and every forward law's precondition excludes
  such a value: the temperature law requires `28 * code` to fit a `long long`,
  and the other laws require the code to fit an `int`. The temperature law
  does admit codes above the `int` range.
- Converter.MillivoltsToLsb: requires a positive factor. Every caller passes
  one of the three positive constants.
- Converter.MeasTrunc: signed overflow and out-of-range narrowing casts are
  preconditions, applied here and to every converter. gcc's wrap-around on
  such inputs is not modelled.
- The data model is assumed LP64. Other data models are not covered.
- ltcsensors/ltcsensors.py, a separate reader of the same attributes, is not
  part of this model.

## Findings

| source | as written | input that shows it | evidently intended | confidence | as-written member | corrected member |
|---|---|---|---|---|---|---|
| files/main.c:429 | `convert_to_LSB` returns the error code `EINVAL` (22) in the same `int` as a valid code | 33 mV for "vcap_ov_lvl" returns 22, the same value an unknown unit returns | the error is reported apart from the code, so the caller can tell them apart | medium, not executed | Facade.ConvertToLsbReturn (exhibited by Facade.EinvalIsAmbiguous) | Facade.ConvertToLsb |
