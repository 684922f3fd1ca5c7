/**
 * The status decoder behind `status_report`: three fixed bit tables (alarm
 * register, monitor status, charger status) and one filter that keeps, in
 * table order, the entries whose bit is set in a status word. The caller
 * reads the words, reads the two attributes an alarm names, and prints.
 */
module Status {
  import opened CInt
  import opened Wrappers
  import Classifier

  const WORD_SPAN := 0x1_0000_0000

  /** A status word as the bitmask tests see it: the 32 bits of a C `int`, read unsigned. */
  type Word = w: int | 0 <= w < WORD_SPAN

  /** The attributes an alarm names, with the labels `log_alarm` prints for them. */
  datatype Related = Related(measured: string, threshold: string, measuredLabel: string, thresholdLabel: string)

  /** The status bits the program knows, named after its bit macros. */
  datatype Flag =
    | MON_CAPSR_ACTIVE | MON_CAPESR_SCHEDULED | MON_CAPESR_PENDING | MON_CAP_DONE | MON_ESR_DONE
    | MON_CAP_FAILED | MON_ESR_FAILED | MON_POWER_FAILED | MON_POWER_RETURNED
    | ALARM_CAP_UV | ALARM_CAP_OV | ALARM_GPI_UV | ALARM_GPI_OV | ALARM_VIN_UV | ALARM_VIN_OV
    | ALARM_VCAP_UV | ALARM_VCAP_OV | ALARM_VOUT_UV | ALARM_VOUT_OV | ALARM_IIN_OC | ALARM_ICHG_UC
    | ALARM_DTEMP_COLD | ALARM_DTEMP_HOT | ALARM_ESR_HI | ALARM_CAP_LO
    | CHRG_STEPDOWN | CHRG_STEPUP | CHRG_CV | CHRG_UVLO | CHRG_INPUT_ILIM | CHRG_CAPPG
    | CHRG_SHNT | CHRG_BAL | CHRG_DIS | CHRG_CI | CHRG_PFO

  /** A table entry: the bit index of a macro `BIT(n)` and the flag it stands for. */
  datatype Condition = Condition(bit: nat, flag: Flag)

  datatype WordKind = MonitorStatus | AlarmRegister | ChargerStatus

  /** Bit `b` of `n` is set: the C test `n & BIT(b)`, by halving. */
  predicate BitSet(n: nat, b: nat) {
    if b == 0 then n % 2 == 1 else BitSet(n / 2, b - 1)
  }

  /** The two's-complement bits of a C `int`: a negative value wraps modulo 2^32. */
  function WordOfInt(x: int): (w: Word)
    requires IsInt(x)
    ensures x >= 0 ==> w == x
    ensures x < 0 ==> w == x + WORD_SPAN
  {
    x % WORD_SPAN
  }

  /** The line `status_report` prints for a set bit. */
  function Description(f: Flag): string {
    match f
    case MON_CAPSR_ACTIVE => "Capacitance/ESR measurement is in progress."
    case MON_CAPESR_SCHEDULED => "Waiting programmed time to begin a capacitance/ESR measurement."
    case MON_CAPESR_PENDING => "Waiting for satisfactory conditions to begin a capacitance/ESR measurement."
    case MON_CAP_DONE => "Capacitance measurement has completed."
    case MON_ESR_DONE => "ESR Measurement has completed."
    case MON_CAP_FAILED => "The last attempted capacitance measurement was unable to complete."
    case MON_ESR_FAILED => "The last attempted ESR measurement was unable to complete."
    case MON_POWER_FAILED => "The device is no longer connected to power outlet."
    case MON_POWER_RETURNED => "The device is connected to power outlet."
    case ALARM_CAP_UV => "Capacitor undervoltage alarm"
    case ALARM_CAP_OV => "Capacitor overvoltage alarm"
    case ALARM_GPI_UV => "General purpose Undervoltage alarm"
    case ALARM_GPI_OV => "General purpose Overvoltage alarm"
    case ALARM_VIN_UV => "Input Undervoltage alarm"
    case ALARM_VIN_OV => "Input Overvoltage alarm"
    case ALARM_VCAP_UV => "Capacitor undervoltage alarm"
    case ALARM_VCAP_OV => "Capacitor overvoltage alarm"
    case ALARM_VOUT_UV => "Output Undervoltage alarm"
    case ALARM_VOUT_OV => "Output Overvoltage alarm"
    case ALARM_IIN_OC => "Input overcurrent alarm"
    case ALARM_ICHG_UC => "Charge Undercurrent alarm"
    case ALARM_DTEMP_COLD => "Temperature Cold alarm"
    case ALARM_DTEMP_HOT => "Temperature hot alarm"
    case ALARM_ESR_HI => "stack ESR high alarm"
    case ALARM_CAP_LO => "stack capacitance low alarm"
    case CHRG_STEPDOWN => "The synchronous controller is in step-down mode (charging)"
    case CHRG_STEPUP => "The synchronous controller is in step-up mode (backup)"
    case CHRG_CV => "The charger is in constant voltage mode"
    case CHRG_UVLO => "The charger is in undervoltage lockout"
    case CHRG_INPUT_ILIM => "The charger is in input current limit"
    case CHRG_CAPPG => "The capacitor voltage is above power good threshold"
    case CHRG_SHNT => "The capacitor manager is shunting"
    case CHRG_BAL => "The capacitor manager is balancing"
    case CHRG_DIS => "The charger is temporarily disabled for capacitance measurement"
    case CHRG_CI => "The charger is in constant current mode"
    case CHRG_PFO => "Input voltage is below pfi threshold"
  }

  /** The measured and threshold attributes `log_alarm` reads for an alarm; none for the other words. */
  function Attributes(f: Flag): Option<Related> {
    match f
    case ALARM_CAP_UV =>
      Some(Related("meas_cap", "cap_uv_lvl", "meas_cap", "Capacitor Undervoltage Level"))
    case ALARM_CAP_OV =>
      Some(Related("meas_cap", "cap_ov_lvl", "meas_cap", "Capacitor Overvoltage Level"))
    case ALARM_GPI_UV =>
      Some(Related("meas_gpi", "gpi_uv_lvl", "Measured GPI pin voltage", "General Purpose Input Undervoltage Level"))
    case ALARM_GPI_OV =>
      Some(Related("meas_gpi", "gpi_ov_lvl", "Measured GPI pin voltage", "General Purpose Input Overvoltage Level"))
    case ALARM_VIN_UV =>
      Some(Related("meas_vin", "vin_uv_lvl", "Measured VIN voltage", "General Purpose Input Undervoltage Level"))
    case ALARM_VIN_OV =>
      Some(Related("meas_vin", "vin_ov_lvl", "Measured VIN voltage", "General Purpose Input Overvoltage Level"))
    case ALARM_VCAP_UV =>
      Some(Related("meas_vcap", "vcap_uv_lvl", "Measured VCAP voltage", "VCAP Undervoltage Level"))
    case ALARM_VCAP_OV =>
      Some(Related("meas_vcap", "vcap_ov_lvl", "Measured VCAP voltage", "VCAP Overvoltage Level"))
    case ALARM_VOUT_UV =>
      Some(Related("meas_vout", "vout_uv_lvl", "Measured VOUT voltage", "VOUT Undervoltage Level"))
    case ALARM_VOUT_OV =>
      Some(Related("meas_vout", "vout_ov_lvl", "Measured VOUT voltage", "VOUT Overvoltage Level"))
    case ALARM_IIN_OC =>
      Some(Related("meas_iin", "iin_oc_lvl", "Measured IIN current", "Input Overcurrent Level"))
    case ALARM_ICHG_UC =>
      Some(Related("meas_ichg", "ichg_uc_lvl", "Measured ICHG current", "Charge Undercurrent Level"))
    case ALARM_DTEMP_COLD =>
      Some(Related("meas_dtemp", "dtemp_cold_lvl", "Measured die temperature", "Die temperature Cold level"))
    case ALARM_DTEMP_HOT =>
      Some(Related("meas_dtemp", "dtemp_hot_lvl", "Measured die temperature", "Die Temperature Hot Level"))
    case ALARM_ESR_HI =>
      Some(Related("meas_esr", "esr_hi_lvl", "Measured ESR value", "ESR High Level"))
    case ALARM_CAP_LO =>
      Some(Related("meas_cap", "cap_lo_lvl", "Measured capacitance value", "Capacitance Low Level"))
    case _ => None
  }

  /** MON_* bits: 0 to 6, 8 and 9 (bit 7 is not defined). */
  const MonitorTable: seq<Condition> := [
    Condition(0, MON_CAPSR_ACTIVE),
    Condition(1, MON_CAPESR_SCHEDULED),
    Condition(2, MON_CAPESR_PENDING),
    Condition(3, MON_CAP_DONE),
    Condition(4, MON_ESR_DONE),
    Condition(5, MON_CAP_FAILED),
    Condition(6, MON_ESR_FAILED),
    Condition(8, MON_POWER_FAILED),
    Condition(9, MON_POWER_RETURNED)
  ]

  /** ALARM_* bits 0 to 15, in the order `status_report` tests them. */
  const AlarmTable: seq<Condition> := [
    Condition(0, ALARM_CAP_UV),
    Condition(1, ALARM_CAP_OV),
    Condition(2, ALARM_GPI_UV),
    Condition(3, ALARM_GPI_OV),
    Condition(4, ALARM_VIN_UV),
    Condition(5, ALARM_VIN_OV),
    Condition(6, ALARM_VCAP_UV),
    Condition(7, ALARM_VCAP_OV),
    Condition(8, ALARM_VOUT_UV),
    Condition(9, ALARM_VOUT_OV),
    Condition(10, ALARM_IIN_OC),
    Condition(11, ALARM_ICHG_UC),
    Condition(12, ALARM_DTEMP_COLD),
    Condition(13, ALARM_DTEMP_HOT),
    Condition(14, ALARM_ESR_HI),
    Condition(15, ALARM_CAP_LO)
  ]

  /** CHRG_* bits: 0 to 9 and 11 (bit 10 is not defined). */
  const ChargerTable: seq<Condition> := [
    Condition(0, CHRG_STEPDOWN),
    Condition(1, CHRG_STEPUP),
    Condition(2, CHRG_CV),
    Condition(3, CHRG_UVLO),
    Condition(4, CHRG_INPUT_ILIM),
    Condition(5, CHRG_CAPPG),
    Condition(6, CHRG_SHNT),
    Condition(7, CHRG_BAL),
    Condition(8, CHRG_DIS),
    Condition(9, CHRG_CI),
    Condition(11, CHRG_PFO)
  ]

  function Table(kind: WordKind): seq<Condition> {
    match kind
    case MonitorStatus => MonitorTable
    case AlarmRegister => AlarmTable
    case ChargerStatus => ChargerTable
  }

  /** Bits strictly ascend along the table, so each bit appears once. */
  predicate Ascending(table: seq<Condition>) {
    forall i, j :: 0 <= i < j < |table| ==> table[i].bit < table[j].bit
  }

  /** Each entry's bit is below the next one's. */
  predicate NeighboursAscend(table: seq<Condition>) {
    forall i :: 0 <= i < |table| - 1 ==> table[i].bit < table[i + 1].bit
  }

  /** Every entry names a bit of the 32-bit word. */
  predicate InWord(table: seq<Condition>) {
    forall i :: 0 <= i < |table| ==> table[i].bit < 32
  }

  lemma {:induction false} NeighboursBetween(table: seq<Condition>, i: int, j: int)
    requires NeighboursAscend(table) && 0 <= i < j < |table|
    ensures table[i].bit < table[j].bit
    decreases j - i
  {
    if j > i + 1 {
      NeighboursBetween(table, i + 1, j);
    }
  }

  /** Ascending neighbours make an ascending table; a last bit below 32 keeps it in the word. */
  lemma NeighboursAscending(table: seq<Condition>)
    requires NeighboursAscend(table)
    requires |table| > 0 ==> table[|table| - 1].bit < 32
    ensures Ascending(table) && InWord(table)
  {
    forall i, j | 0 <= i < j < |table|
      ensures table[i].bit < table[j].bit
    {
      NeighboursBetween(table, i, j);
    }
  }

  /** The indices of the bits set in `w`. */
  function SetBits(w: Word): set<nat> {
    set b: nat | b < 32 && BitSet(w, b)
  }

  /**
   * The conditions of `table` whose bit is in `bits`, in table order:
   * the sequence of `log_monitor`, `log_alarm` or `log_chrg` tests.
   */
  function Decode(table: seq<Condition>, bits: set<nat>): seq<Condition>
  {
    if |table| == 0 then []
    else
      var rest := Decode(table[1..], bits);
      if table[0].bit in bits then [table[0]] + rest else rest
  }

  /** Decoding keeps exactly the entries whose bit is set, and never adds one. */
  lemma {:induction false} DecodeMembers(table: seq<Condition>, bits: set<nat>)
    ensures forall c :: c in Decode(table, bits) <==> c in table && c.bit in bits
    ensures |Decode(table, bits)| <= |table|
  {
    if |table| > 0 {
      DecodeMembers(table[1..], bits);
      assert table == [table[0]] + table[1..];
    }
  }

  /** The conditions one status word reports. */
  function DecodeStatus(kind: WordKind, w: Word): seq<Condition>
  {
    Decode(Table(kind), SetBits(w))
  }

  /** The report keeps the table's order: on an ascending table, bits ascend. */
  lemma {:induction false} DecodeAscending(table: seq<Condition>, bits: set<nat>)
    requires Ascending(table)
    ensures Ascending(Decode(table, bits))
  {
    if |table| > 0 {
      assert forall i :: 1 <= i < |table| ==> table[1..][i - 1] == table[i];
      DecodeAscending(table[1..], bits);
      DecodeMembers(table[1..], bits);
      var rest := Decode(table[1..], bits);
      forall c | c in rest
        ensures table[0].bit < c.bit
      {
        var i :| 0 <= i < |table[1..]| && table[1..][i] == c;
      }
    }
  }

  /** Decoding distributes over a table split in two. */
  lemma {:induction false} DecodeAppend(a: seq<Condition>, b: seq<Condition>, bits: set<nat>)
    ensures Decode(a + b, bits) == Decode(a, bits) + Decode(b, bits)
  {
    if |a| > 0 {
      assert (a + b)[1..] == a[1..] + b;
      DecodeAppend(a[1..], b, bits);
    } else {
      assert a + b == b;
    }
  }

  /** When every table bit is set, the whole table is reported. */
  lemma {:induction false} DecodeAllSet(table: seq<Condition>, bits: set<nat>)
    requires forall i :: 0 <= i < |table| ==> table[i].bit in bits
    ensures Decode(table, bits) == table
  {
    if |table| > 0 {
      assert forall i :: 1 <= i < |table| ==> table[1..][i - 1] == table[i];
      DecodeAllSet(table[1..], bits);
    }
  }

  /** When no table bit is set, nothing is reported. */
  lemma {:induction false} DecodeNoneSet(table: seq<Condition>, bits: set<nat>)
    requires forall i :: 0 <= i < |table| ==> table[i].bit !in bits
    ensures Decode(table, bits) == []
  {
    if |table| > 0 {
      assert forall i :: 1 <= i < |table| ==> table[1..][i - 1] == table[i];
      DecodeNoneSet(table[1..], bits);
    }
  }

  /** Two bit sets that agree on every table bit decode alike. */
  lemma {:induction false} DecodeMasked(table: seq<Condition>, bits: set<nat>, other: set<nat>)
    requires forall i :: 0 <= i < |table| ==> (table[i].bit in bits <==> table[i].bit in other)
    ensures Decode(table, bits) == Decode(table, other)
  {
    if |table| > 0 {
      assert forall i :: 1 <= i < |table| ==> table[1..][i - 1] == table[i];
      DecodeMasked(table[1..], bits, other);
    }
  }

  function Pow2(k: nat): (p: nat)
    ensures p >= 1
  {
    if k == 0 then 1 else 2 * Pow2(k - 1)
  }

  lemma {:induction false} Pow2Sum(a: nat, b: nat)
    ensures Pow2(a + b) == Pow2(a) * Pow2(b)
  {
    if a > 0 {
      Pow2Sum(a - 1, b);
    }
  }

  /** Halving then testing the low bit is the C mask test: bit `b` is the parity of `n / 2^b`. */
  lemma {:induction false} BitSetByDivision(n: nat, b: nat)
    ensures BitSet(n, b) <==> (n / Pow2(b)) % 2 == 1
  {
    if b > 0 {
      BitSetByDivision(n / 2, b - 1);
      HalveThenDivide(n, Pow2(b - 1));
    }
  }

  lemma HalveThenDivide(n: nat, m: nat)
    requires m >= 1
    ensures (n / 2) / m == n / (2 * m)
  {
    var q, r := n / (2 * m), n % (2 * m);
    assert n == (2 * m) * q + r && 0 <= r < 2 * m;
    assert n == 2 * (m * q + r / 2) + r % 2;
    DivUnique(n, 2, m * q + r / 2, r % 2);
    DivUnique(n / 2, m, q, r / 2);
  }

  /** A quotient and remainder in range are the quotient and remainder. */
  lemma DivUnique(a: int, d: int, q: int, r: int)
    requires d > 0 && a == d * q + r && 0 <= r < d
    ensures a / d == q
  {
    var q', r' := a / d, a % d;
    assert a == d * q' + r' && 0 <= r' < d;
    assert (q' - q) * d == r - r';
    if q' > q {
      MulMonotone(1, q' - q, d);
      assert false;
    }
    if q' < q {
      MulMonotone(1, q - q', d);
      assert false;
    }
  }

  lemma Pow2Word()
    ensures Pow2(32) == WORD_SPAN
  {
    assert Pow2(4) == 16;
    Pow2Sum(4, 4);
    Pow2Sum(8, 8);
    Pow2Sum(16, 16);
  }

  /** No bit of zero is set. */
  lemma {:induction false} ZeroHasNoBits(b: nat)
    ensures !BitSet(0, b)
  {
    if b > 0 {
      ZeroHasNoBits(b - 1);
    }
  }

  /** Every bit below `k` of 2^k - 1 is set. */
  lemma {:induction false} OnesBelow(k: nat, b: nat)
    requires b < k
    ensures BitSet(Pow2(k) - 1, b)
  {
    if b > 0 {
      assert (Pow2(k) - 1) / 2 == Pow2(k - 1) - 1;
      OnesBelow(k - 1, b - 1);
    }
  }

  /** Setting a clear bit `k` changes bit `k` and no other. */
  lemma {:induction false} SetClearBit(n: nat, k: nat, b: nat)
    requires !BitSet(n, k)
    ensures BitSet(n + Pow2(k), b) <==> b == k || BitSet(n, b)
  {
    if k == 0 {
      if b > 0 {
        assert (n + 1) / 2 == n / 2;
      }
    } else if b > 0 {
      assert (n + Pow2(k)) / 2 == n / 2 + Pow2(k - 1);
      SetClearBit(n / 2, k - 1, b - 1);
    }
  }

  /** The two's-complement word of a failed read, -1, has every bit of the word set. */
  lemma FailedReadSetsAllBits(b: nat)
    requires b < 32
    ensures BitSet(WordOfInt(-1), b)
  {
    Pow2Word();
    OnesBelow(32, b);
  }

  lemma MonitorInOrder() ensures Ascending(MonitorTable) && InWord(MonitorTable) {
    var t := MonitorTable;
    forall i | 0 <= i < |t| - 1
      ensures t[i].bit < t[i + 1].bit
    {
      assert t[i].bit == if i < 7 then i else i + 1;
    }
    NeighboursAscending(t);
  }

  lemma AlarmInOrder() ensures Ascending(AlarmTable) && InWord(AlarmTable) {
    var t := AlarmTable;
    forall i | 0 <= i < |t| - 1
      ensures t[i].bit < t[i + 1].bit
    {
      assert t[i].bit == i;
    }
    NeighboursAscending(t);
  }

  lemma ChargerInOrder() ensures Ascending(ChargerTable) && InWord(ChargerTable) {
    var t := ChargerTable;
    forall i | 0 <= i < |t| - 1
      ensures t[i].bit < t[i + 1].bit
    {
      assert t[i].bit == if i < 10 then i else i + 1;
    }
    NeighboursAscending(t);
  }

  /** Each table lists its bits once each, ascending, all inside the word. */
  lemma TablesInOrder(kind: WordKind)
    ensures Ascending(Table(kind)) && InWord(Table(kind))
  {
    match kind {
      case MonitorStatus => MonitorInOrder();
      case AlarmRegister => AlarmInOrder();
      case ChargerStatus => ChargerInOrder();
    }
  }

  /** Setting a bit that no entry of the table names changes nothing in the report. */
  lemma UndefinedBitIgnored(table: seq<Condition>, w: Word, k: nat)
    requires forall i :: 0 <= i < |table| ==> table[i].bit != k
    requires !BitSet(w, k) && w + Pow2(k) < WORD_SPAN
    ensures Decode(table, SetBits(w + Pow2(k))) == Decode(table, SetBits(w))
  {
    forall i | 0 <= i < |table|
      ensures table[i].bit in SetBits(w + Pow2(k)) <==> table[i].bit in SetBits(w)
    {
      SetClearBit(w, k, table[i].bit);
    }
    DecodeMasked(table, SetBits(w + Pow2(k)), SetBits(w));
  }

  /** A bit strictly between two neighbouring entries, or above the last, names no entry. */
  lemma NoEntryFor(table: seq<Condition>, j: int, k: nat)
    requires Ascending(table) && 0 <= j < |table|
    requires table[j].bit < k
    requires j + 1 < |table| ==> k < table[j + 1].bit
    ensures forall i :: 0 <= i < |table| ==> table[i].bit != k
  {
    forall i | 0 <= i < |table|
      ensures table[i].bit != k
    {
      if i > j + 1 {
        assert table[j + 1].bit < table[i].bit;
      }
    }
  }

  /**
   * The bits no table defines (monitor bit 7, charger bit 10, alarm bits 16
   * and above) are ignored: setting one leaves the decoded word unchanged.
   */
  lemma GapBitIgnored(kind: WordKind, w: Word, k: nat)
    requires match kind
      case MonitorStatus => k == 7
      case ChargerStatus => k == 10
      case AlarmRegister => k >= 16
    requires !BitSet(w, k) && w + Pow2(k) < WORD_SPAN
    ensures DecodeStatus(kind, w + Pow2(k)) == DecodeStatus(kind, w)
  {
    TablesInOrder(kind);
    match kind {
      case MonitorStatus => NoEntryFor(MonitorTable, 6, k);
      case ChargerStatus => NoEntryFor(ChargerTable, 9, k);
      case AlarmRegister => NoEntryFor(AlarmTable, 15, k);
    }
    UndefinedBitIgnored(Table(kind), w, k);
  }

  /** A failed read (-1) of a status word reports every condition of its table. */
  lemma FailedReadReportsAll(kind: WordKind)
    ensures DecodeStatus(kind, WordOfInt(-1)) == Table(kind)
  {
    TablesInOrder(kind);
    var table, bits := Table(kind), SetBits(WordOfInt(-1));
    forall i | 0 <= i < |table|
      ensures table[i].bit in bits
    {
      FailedReadSetsAllBits(table[i].bit);
    }
    DecodeAllSet(table, bits);
  }

  /** A word of zero reports nothing. */
  lemma ZeroReportsNothing(kind: WordKind)
    ensures DecodeStatus(kind, 0) == []
  {
    var table, bits := Table(kind), SetBits(0);
    forall i | 0 <= i < |table|
      ensures table[i].bit !in bits
    {
      ZeroHasNoBits(table[i].bit);
    }
    DecodeNoneSet(table, bits);
  }

  /** On a table that starts with bits 0 and 1, a set holding those two and no later table bit keeps just them. */
  lemma DecodeLowPair(table: seq<Condition>, bits: set<nat>)
    requires |table| >= 2 && table[0].bit in bits && table[1].bit in bits
    requires forall i :: 2 <= i < |table| ==> table[i].bit !in bits
    ensures Decode(table, bits) == table[..2]
  {
    var low, high := table[..2], table[2..];
    assert table == low + high;
    DecodeAppend(low, high, bits);
    DecodeAllSet(low, bits);
    DecodeNoneSet(high, bits);
  }

  /**
   * An alarm word with bits 0 and 1 set and bits 2 to 15 clear reports
   * exactly the capacitor undervoltage and overvoltage alarms, whatever its
   * upper bits; both name `meas_cap` and their own threshold attribute.
   */
  lemma CapacitorAlarms(w: Word)
    requires BitSet(w, 0) && BitSet(w, 1)
    requires forall b :: 2 <= b < 16 ==> !BitSet(w, b)
    ensures DecodeStatus(AlarmRegister, w) == [Condition(0, ALARM_CAP_UV), Condition(1, ALARM_CAP_OV)]
    ensures Attributes(ALARM_CAP_UV).value.measured == Attributes(ALARM_CAP_OV).value.measured == "meas_cap"
    ensures Attributes(ALARM_CAP_UV).value.threshold == "cap_uv_lvl"
    ensures Attributes(ALARM_CAP_OV).value.threshold == "cap_ov_lvl"
  {
    var t, bits := AlarmTable, SetBits(w);
    forall i | 2 <= i < |t|
      ensures t[i].bit !in bits
    {
      assert t[i].bit == i;
    }
    DecodeLowPair(t, bits);
    assert t[..2] == [Condition(0, ALARM_CAP_UV), Condition(1, ALARM_CAP_OV)];
  }

  /** The conditions a word reports: the entries of its table whose bit is set. */
  lemma DecodeStatusMembers(kind: WordKind, w: Word)
    ensures forall c :: c in DecodeStatus(kind, w) <==> c in Table(kind) && BitSet(w, c.bit)
  {
    TablesInOrder(kind);
    DecodeWordMembers(Table(kind), w);
  }

  lemma DecodeWordMembers(table: seq<Condition>, w: Word)
    requires InWord(table)
    ensures forall c :: c in Decode(table, SetBits(w)) <==> c in table && BitSet(w, c.bit)
  {
    DecodeMembers(table, SetBits(w));
  }

  /** The three decoded words, in the order `status_report` prints them. */
  datatype Report = Report(warning: bool, monitor: seq<Condition>, alarms: seq<Condition>, charger: seq<Condition>)

  /**
   * `status_report` given the three words it read: a warning when any read
   * returned -1, then the set bits of each word. The attribute values an
   * alarm prints are read by the caller.
   */
  function StatusReport(alarms: int, monitor: int, chrg: int): (r: Report)
    requires IsInt(alarms) && IsInt(monitor) && IsInt(chrg)
    ensures r.warning <==> alarms == -1 || monitor == -1 || chrg == -1
    ensures r.monitor == DecodeStatus(MonitorStatus, WordOfInt(monitor))
    ensures r.alarms == DecodeStatus(AlarmRegister, WordOfInt(alarms))
    ensures r.charger == DecodeStatus(ChargerStatus, WordOfInt(chrg))
  {
    Report(alarms == -1 || monitor == -1 || chrg == -1,
           DecodeStatus(MonitorStatus, WordOfInt(monitor)),
           DecodeStatus(AlarmRegister, WordOfInt(alarms)),
           DecodeStatus(ChargerStatus, WordOfInt(chrg)))
  }

  /**
   * A failed read warns and reports every condition of that word's table,
   * since -1 has all 32 bits set.
   */
  lemma FailedReadReport(alarms: int, monitor: int, chrg: int)
    requires IsInt(alarms) && IsInt(monitor) && IsInt(chrg)
    requires monitor == -1
    ensures StatusReport(alarms, monitor, chrg).warning
    ensures StatusReport(alarms, monitor, chrg).monitor == MonitorTable
  {
    FailedReadReportsAll(MonitorStatus);
  }

  /** Any decoded word lists its conditions in ascending bit order. */
  lemma StatusAscending(kind: WordKind, w: Word)
    ensures Ascending(DecodeStatus(kind, w))
  {
    TablesInOrder(kind);
    DecodeAscending(Table(kind), SetBits(w));
  }

  /** Every report lists its conditions in ascending bit order. */
  lemma ReportAscending(alarms: int, monitor: int, chrg: int)
    requires IsInt(alarms) && IsInt(monitor) && IsInt(chrg)
    ensures Ascending(StatusReport(alarms, monitor, chrg).monitor)
    ensures Ascending(StatusReport(alarms, monitor, chrg).alarms)
    ensures Ascending(StatusReport(alarms, monitor, chrg).charger)
  {
    StatusAscending(MonitorStatus, WordOfInt(monitor));
    StatusAscending(AlarmRegister, WordOfInt(alarms));
    StatusAscending(ChargerStatus, WordOfInt(chrg));
  }

  /** The measured attribute of the capacitor voltage alarms is read as farads. */
  lemma CapacitorAlarmsMeasureFarads()
    ensures Classifier.Classify(Attributes(ALARM_CAP_UV).value.measured) == Classifier.Capacitance
    ensures Classifier.Classify(Attributes(ALARM_CAP_OV).value.measured) == Classifier.Capacitance
  {
    var uv, ov := Attributes(ALARM_CAP_UV).value.measured, Attributes(ALARM_CAP_OV).value.measured;
    Classifier.StartsWithEdges(uv, uv);
    Classifier.StartsWithEdges(ov, ov);
    Classifier.MeasCapIsCapacitance(uv);
    Classifier.MeasCapIsCapacitance(ov);
  }

  /**
   * Their thresholds are read on the cell voltage scale: bits 0 and 1
   * compare a capacitance with a voltage.
   */
  lemma CapacitorAlarmThresholdsAreVolts()
    ensures Classifier.Classify(Attributes(ALARM_CAP_UV).value.threshold) == Classifier.Voltage(Classifier.Cell)
    ensures Classifier.Classify(Attributes(ALARM_CAP_OV).value.threshold) == Classifier.Voltage(Classifier.Cell)
  {
    var uv, ov := Attributes(ALARM_CAP_UV).value.threshold, Attributes(ALARM_CAP_OV).value.threshold;
    Classifier.CapThresholdPrefixes();
    Classifier.CellThresholdsAreVoltages(uv);
    Classifier.CellThresholdsAreVoltages(ov);
  }
}
