/**
 * The attribute classifier: which conversion law applies to an attribute,
 * decided from its name alone by ordered prefix rules (first match wins).
 * The read direction (`convert_from_LSB`) and the voltage rules of the
 * write direction (`convert_to_LSB`) use slightly different prefix lists;
 * both are modelled, and the lemmas say exactly where they disagree.
 */
module Classifier {
  import opened Wrappers
  import Converter

  /**
   * `starts_with`: 1 exactly when `prefix` is an initial segment of `s`,
   * compared character by character as `strncmp` does (StartsWithSpec).
   */
  function StartsWith(s: string, prefix: string): bool {
    |prefix| == 0 || (|s| > 0 && s[0] == prefix[0] && StartsWith(s[1..], prefix[1..]))
  }

  /**
   * The source's formulation (the prefix is no longer than `s` and equals
   * its first `|prefix|` characters) and the algebraic one.
   */
  lemma {:induction false} StartsWithSpec(s: string, prefix: string)
    ensures StartsWith(s, prefix) <==> |prefix| <= |s| && s[..|prefix|] == prefix
    ensures StartsWith(s, prefix) <==> exists rest :: s == prefix + rest
  {
    if |prefix| == 0 {
      assert s == prefix + s;
    } else if |s| > 0 {
      StartsWithSpec(s[1..], prefix[1..]);
      if StartsWith(s, prefix) {
        var rest :| s[1..] == prefix[1..] + rest;
        assert s == prefix + rest;
      }
      if |prefix| <= |s| && s[..|prefix|] == prefix {
        assert s[1..][..|prefix| - 1] == prefix[1..];
      }
      forall rest | s == prefix + rest
        ensures s[1..] == prefix[1..] + rest
      {
        assert s[1..] == (prefix + rest)[1..];
      }
    }
  }

  lemma StartsWithEdges(s: string, prefix: string)
    ensures StartsWith(s, "")
    ensures |prefix| > |s| ==> !StartsWith(s, prefix)
    ensures StartsWith(s, s)
  {
    StartsWithSpec(s, s);
    StartsWithSpec(s, "");
    StartsWithSpec(s, prefix);
  }

  /** The three voltage scales of the LTC3350. */
  datatype Family = Cell | Stack | Input

  function Factor(f: Family): int {
    match f
    case Cell => Converter.VCELL_FACTOR
    case Stack => Converter.VCAP_FACTOR
    case Input => Converter.VIN_FACTOR
  }

  /** The kind of quantity an attribute holds, each with one conversion law. */
  datatype Quantity = Voltage(family: Family) | Capacitance | Temperature | Resistance | Raw

  /** The unit label printed after a converted value and accepted when writing. */
  function Unit(q: Quantity): string {
    match q
    case Voltage(_) => "mV"
    case Capacitance => "F"
    case Temperature => "C"
    case Resistance => "mR"
    case Raw => ""
  }

  /** The cell-scale rule, shared by both directions: cells, GPI, shunt and the cell thresholds. */
  predicate IsCellName(name: string) {
    StartsWith(name, "vcap1") || StartsWith(name, "vcap2")
    || StartsWith(name, "vcap3") || StartsWith(name, "vcap4")
    || StartsWith(name, "gpi") || StartsWith(name, "vshunt")
    || StartsWith(name, "cap_ov") || StartsWith(name, "cap_uv")
    || StartsWith(name, "meas_vcap1") || StartsWith(name, "meas_vcap2")
    || StartsWith(name, "meas_vcap3") || StartsWith(name, "meas_vcap4")
    || StartsWith(name, "meas_gpi")
  }

  predicate IsInputName(name: string) {
    StartsWith(name, "vin") || StartsWith(name, "vout")
    || StartsWith(name, "meas_vin") || StartsWith(name, "meas_vout")
  }

  /** The if/else-if chain of `convert_from_LSB`. */
  function Classify(name: string): Quantity {
    if IsCellName(name) then Voltage(Cell)
    else if StartsWith(name, "vcap_") || StartsWith(name, "meas_vcap") then Voltage(Stack)
    else if IsInputName(name) then Voltage(Input)
    else if !StartsWith(name, "cap_esr") && (StartsWith(name, "cap") || StartsWith(name, "meas_cap")) then Capacitance
    else if StartsWith(name, "dtemp") || StartsWith(name, "meas_dtemp") then Temperature
    else if StartsWith(name, "esr") || StartsWith(name, "meas_esr") then Resistance
    else Raw
  }

  /** The voltage rules of `convert_to_LSB` for the unit "mV"; `None` where none matches. */
  function WriteFamily(name: string): Option<Family> {
    if IsCellName(name) then Some(Cell)
    else if StartsWith(name, "vcap") || StartsWith(name, "meas_vcap") then Some(Stack)
    else if IsInputName(name) then Some(Input)
    else None
  }

  /** A prefix of a prefix is a prefix. */
  lemma {:induction false} StartsWithTransitive(s: string, p: string, q: string)
    requires StartsWith(s, p) && StartsWith(p, q)
    ensures StartsWith(s, q)
  {
    if |q| > 0 {
      StartsWithTransitive(s[1..], p[1..], q[1..]);
    }
  }

  /** Two prefixes that differ at some position cannot both begin the same name. */
  lemma {:induction false} PrefixesClash(s: string, p: string, q: string, i: nat)
    requires i < |p| && i < |q| && p[i] != q[i]
    ensures !(StartsWith(s, p) && StartsWith(s, q))
  {
    if i > 0 && |s| > 0 {
      PrefixesClash(s[1..], p[1..], q[1..], i - 1);
    }
  }

  /**
   * First match wins: the individual-cell names also match the later
   * stack-voltage rule, and still get the cell scale in both directions.
   */
  lemma CellRuleTakesPrecedence(name: string)
    requires StartsWith(name, "meas_vcap1")
    ensures StartsWith(name, "meas_vcap")
    ensures Classify(name) == Voltage(Cell) && WriteFamily(name) == Some(Cell)
  {
    StartsWithTransitive(name, "meas_vcap1", "meas_vcap");
  }

  /**
   * Likewise the cell thresholds "cap_uv..." and "cap_ov..." also match the
   * later capacitance rule, and get the cell scale in both directions.
   */
  lemma CellThresholdsAreVoltages(name: string)
    requires StartsWith(name, "cap_uv") || StartsWith(name, "cap_ov")
    ensures StartsWith(name, "cap")
    ensures Classify(name) == Voltage(Cell) && WriteFamily(name) == Some(Cell)
  {
    if StartsWith(name, "cap_uv") {
      StartsWithTransitive(name, "cap_uv", "cap");
    } else {
      StartsWithTransitive(name, "cap_ov", "cap");
    }
  }

  /** The capacitor-voltage threshold attributes carry the cell-threshold prefixes. */
  lemma CapThresholdPrefixes()
    ensures StartsWith("cap_uv_lvl", "cap_uv") && StartsWith("cap_ov_lvl", "cap_ov")
  {
  }

  /** A name beginning "cap_esr" is never read as a capacitance: no later rule claims it either. */
  lemma CapEsrIsRaw(name: string)
    requires StartsWith(name, "cap_esr")
    ensures Classify(name) == Raw
    ensures WriteFamily(name) == None
  {
    PrefixesClash(name, "cap_esr", "cap_ov", 4);
    PrefixesClash(name, "cap_esr", "cap_uv", 4);
  }

  /** Every name the read direction gives a voltage scale gets the same scale when written in "mV". */
  lemma VoltageRulesAgree(name: string)
    requires Classify(name).Voltage?
    ensures WriteFamily(name) == Some(Classify(name).family)
  {
    if StartsWith(name, "vcap_") {
      StartsWithTransitive(name, "vcap_", "vcap");
    }
    VcapIsNoInputName(name);
  }

  /** The stack-voltage prefixes and the input-voltage prefixes exclude each other. */
  lemma VcapIsNoInputName(name: string)
    ensures IsInputName(name) ==> !StartsWith(name, "vcap") && !StartsWith(name, "meas_vcap")
  {
    PrefixesClash(name, "vin", "vcap", 1);
    PrefixesClash(name, "vout", "vcap", 1);
    PrefixesClash(name, "meas_vin", "vcap", 0);
    PrefixesClash(name, "meas_vout", "vcap", 0);
    PrefixesClash(name, "vin", "meas_vcap", 0);
    PrefixesClash(name, "vout", "meas_vcap", 0);
    PrefixesClash(name, "meas_vin", "meas_vcap", 6);
    PrefixesClash(name, "meas_vout", "meas_vcap", 6);
  }

  /**
   * The two directions disagree exactly on names that begin "vcap" but not
   * "vcap_" and are no cell name (such as "vcap" itself): written in "mV"
   * they use the stack scale, read back they are raw.
   */
  lemma VoltageRulesDiffer(name: string)
    ensures (WriteFamily(name).Some? && Classify(name) != Voltage(WriteFamily(name).value))
        <==> (StartsWith(name, "vcap") && !StartsWith(name, "vcap_") && !IsCellName(name))
    ensures StartsWith(name, "vcap") && !StartsWith(name, "vcap_") && !IsCellName(name) ==>
      Classify(name) == Raw && WriteFamily(name) == Some(Stack)
  {
    if StartsWith(name, "vcap_") {
      StartsWithTransitive(name, "vcap_", "vcap");
    }
    VcapIsNoInputName(name);
    if StartsWith(name, "vcap") {
      PrefixesClash(name, "vcap", "meas_vcap", 0);
      PrefixesClash(name, "vcap", "cap", 0);
      PrefixesClash(name, "vcap", "meas_cap", 0);
      PrefixesClash(name, "vcap", "dtemp", 0);
      PrefixesClash(name, "vcap", "meas_dtemp", 0);
      PrefixesClash(name, "vcap", "esr", 0);
      PrefixesClash(name, "vcap", "meas_esr", 0);
    }
  }

  /** Names beginning "vcap_" (the stack thresholds) use the stack scale in both directions. */
  lemma StackVoltageNames(name: string)
    requires StartsWith(name, "vcap_")
    ensures Classify(name) == Voltage(Stack) && WriteFamily(name) == Some(Stack)
  {
    PrefixesClash(name, "vcap_", "vcap1", 4);
    PrefixesClash(name, "vcap_", "vcap2", 4);
    PrefixesClash(name, "vcap_", "vcap3", 4);
    PrefixesClash(name, "vcap_", "vcap4", 4);
    PrefixesClash(name, "vcap_", "vshunt", 1);
    StartsWithTransitive(name, "vcap_", "vcap");
  }

  /** "meas_vin" is read at the input scale. */
  lemma MeasVinIsInputVoltage()
    ensures Classify("meas_vin") == Voltage(Input)
  {
    var name := "meas_vin";
    StartsWithEdges(name, name);
    PrefixesClash(name, "meas_vin", "vcap1", 0);
    PrefixesClash(name, "meas_vin", "vcap2", 0);
    PrefixesClash(name, "meas_vin", "vcap3", 0);
    PrefixesClash(name, "meas_vin", "vcap4", 0);
    PrefixesClash(name, "meas_vin", "gpi", 0);
    PrefixesClash(name, "meas_vin", "vshunt", 0);
    PrefixesClash(name, "meas_vin", "cap_ov", 0);
    PrefixesClash(name, "meas_vin", "cap_uv", 0);
    PrefixesClash(name, "meas_vin", "meas_vcap1", 6);
    PrefixesClash(name, "meas_vin", "meas_vcap2", 6);
    PrefixesClash(name, "meas_vin", "meas_vcap3", 6);
    PrefixesClash(name, "meas_vin", "meas_vcap4", 6);
    PrefixesClash(name, "meas_vin", "meas_gpi", 5);
    PrefixesClash(name, "meas_vin", "vcap_", 0);
    PrefixesClash(name, "meas_vin", "meas_vcap", 6);
  }

  /** "vcap" alone is a stack voltage when written and raw when read. */
  lemma BareVcapAsymmetry()
    ensures Classify("vcap") == Raw && WriteFamily("vcap") == Some(Stack)
  {
    var name := "vcap";
    StartsWithEdges(name, name);
    StartsWithEdges(name, "vcap_");
    StartsWithEdges(name, "vcap1");
    StartsWithEdges(name, "vcap2");
    StartsWithEdges(name, "vcap3");
    StartsWithEdges(name, "vcap4");
    VoltageRulesDiffer(name);
  }

  /** The shunt rule has no "meas_" form: "meas_vshunt" and its kin are raw. */
  lemma ShuntHasNoMeasForm(name: string)
    requires StartsWith(name, "meas_vs")
    ensures Classify(name) == Raw
  {
    PrefixesClash(name, "meas_vs", "meas_vcap1", 6);
    PrefixesClash(name, "meas_vs", "meas_vcap2", 6);
    PrefixesClash(name, "meas_vs", "meas_vcap3", 6);
    PrefixesClash(name, "meas_vs", "meas_vcap4", 6);
    PrefixesClash(name, "meas_vs", "meas_vcap", 6);
    PrefixesClash(name, "meas_vs", "meas_vin", 6);
    PrefixesClash(name, "meas_vs", "meas_vout", 6);
    PrefixesClash(name, "meas_vs", "meas_gpi", 5);
    PrefixesClash(name, "meas_vs", "meas_cap", 5);
    PrefixesClash(name, "meas_vs", "meas_dtemp", 5);
    PrefixesClash(name, "meas_vs", "meas_esr", 5);
  }

  /**
   * Names beginning "meas_cap" (the measured stack capacitance) are read as
   * a capacitance: no voltage rule matches them.
   */
  lemma MeasCapIsCapacitance(name: string)
    requires StartsWith(name, "meas_cap")
    ensures Classify(name) == Capacitance
  {
    PrefixesClash(name, "meas_cap", "vcap1", 0);
    PrefixesClash(name, "meas_cap", "vcap2", 0);
    PrefixesClash(name, "meas_cap", "vcap3", 0);
    PrefixesClash(name, "meas_cap", "vcap4", 0);
    PrefixesClash(name, "meas_cap", "gpi", 0);
    PrefixesClash(name, "meas_cap", "vshunt", 0);
    PrefixesClash(name, "meas_cap", "cap_ov", 0);
    PrefixesClash(name, "meas_cap", "cap_uv", 0);
    PrefixesClash(name, "meas_cap", "cap_esr", 0);
    PrefixesClash(name, "meas_cap", "meas_vcap1", 5);
    PrefixesClash(name, "meas_cap", "meas_vcap2", 5);
    PrefixesClash(name, "meas_cap", "meas_vcap3", 5);
    PrefixesClash(name, "meas_cap", "meas_vcap4", 5);
    PrefixesClash(name, "meas_cap", "meas_gpi", 5);
    PrefixesClash(name, "meas_cap", "vcap_", 0);
    PrefixesClash(name, "meas_cap", "meas_vcap", 5);
    PrefixesClash(name, "meas_cap", "vin", 0);
    PrefixesClash(name, "meas_cap", "vout", 0);
    PrefixesClash(name, "meas_cap", "meas_vin", 5);
    PrefixesClash(name, "meas_cap", "meas_vout", 5);
  }
}
