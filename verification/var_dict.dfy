/**
 aqme's default option table `var_dict` (argument_parser.py lines 7-114).
 Python's `None`, booleans, integers, floats, strings and lists become the
 tagged `Value`; floats are modelled as exact decimals (`real`), and binary
 rounding is not represented. The two defaults computed from
 `os.getcwd()` are taken from the `cwd` parameter, which only the two groups
 holding them take.

 The table is written as the union of consecutive groups of entries, in the
 order of the Python dict literal; no name occurs in two groups.
 */
module Defaults {
  import opened Ascii
  import opened ArgumentParser
  import opened CorrectedParser

  /** A Python option value. */
  datatype Value =
    | Null
    | Bool(b: bool)
    | Int(i: int)
    | Float(x: real)
    | Str(s: string)
    | List(items: seq<Value>)

  /** Input, output and which AQME modules run (argument_parser.py lines 8-20). */
  function GeneralDefaults(): map<string, Value> {
    map[
      "varfile" := Null,
      "input" := Str(""),
      "output_name" := Str("output"),
      "command_line" := Bool(false),
      "name" := Null,
      "path" := Str(""),
      "verbose" := Bool(false),
      "output" := Str(".sdf"),
      "csearch" := Bool(false),
      "cmin" := Bool(false),
      "qprep" := Bool(false),
      "qcorr" := Bool(false),
      "smi" := Null
    ]
  }

  /** Metal complexes and geometry constraints (argument_parser.py lines 21-33). */
  function ComplexDefaults(): map<string, Value> {
    map[
      "metal_complex" := Bool(false),
      "metal_atoms" := List([]),
      "charge" := Null,
      "mult" := Null,
      "complex_coord" := List([]),
      "complex_type" := Str(""),
      "metal_oxi" := List([]),
      "metal_idx" := List([]),
      "metal_sym" := List([]),
      "constraints_atoms" := List([]),
      "constraints_dist" := List([]),
      "constraints_angle" := List([]),
      "constraints_dihedral" := List([])
    ]
  }

  /** Conformer search windows, optimisation and filtering (argument_parser.py lines 34-50). */
  function SearchDefaults(): map<string, Value> {
    map[
      "ewin_cmin" := Float(5.0),
      "ewin_csearch" := Float(5.0),
      "opt_fmax" := Float(0.05),
      "opt_steps" := Int(1000),
      "opt_steps_rdkit" := Int(1000),
      "heavyonly" := Bool(true),
      "degree" := Float(120.0),
      "max_torsions" := Int(0),
      "sample" := Str("auto"),
      "auto_sample" := Int(20),
      "ff" := Str("MMFF"),
      "seed" := Int(62609),
      "rms_threshold" := Float(0.25),
      "max_matches_rmsd" := Int(1000),
      "energy_threshold" := Float(0.25),
      "initial_energy_threshold" := Float(0.0001),
      "max_mol_wt" := Int(0)
    ]
  }

  /** ANI and xTB engines, workers and Fullmonte sampling (argument_parser.py lines 51-63). */
  function EngineDefaults(): map<string, Value> {
    map[
      "ani_method" := Str("ANI2x"),
      "stacksize" := Str("1G"),
      "xtb_method" := Str("GFN2-xTB"),
      "xtb_solvent" := Str("none"),
      "xtb_accuracy" := Float(1.0),
      "xtb_electronic_temperature" := Float(300.0),
      "xtb_max_iterations" := Int(250),
      "max_workers" := Int(4),
      "ewin_sample_fullmonte" := Float(2.0),
      "ewin_fullmonte" := Float(5.0),
      "nsteps_fullmonte" := Int(100),
      "nrot_fullmonte" := Int(3),
      "ang_fullmonte" := Int(30)
    ]
  }

  /** CREGEN and QM input preparation (argument_parser.py lines 64-80). */
  function QprepDefaults(): map<string, Value> {
    map[
      "cregen" := Bool(false),
      "cregen_keywords" := Null,
      "program" := Null,
      "nprocs" := Int(8),
      "mem" := Str("16GB"),
      "mol" := Null,
      "destination" := Null,
      "qm_input" := Str(""),
      "ts_input" := Str("opt=(calcfc,noeigen,ts,maxstep=5)"),
      "qm_end" := Str(""),
      "gen_atoms" := List([]),
      "bs_nogen" := Str(""),
      "bs_gen" := Str(""),
      "lowest_only" := Bool(false),
      "lowest_n" := Bool(false),
      "energy_threshold_for_gaussian" := Float(100.0),
      "chk" := Bool(false)
    ]
  }

  /** QM output checks: files, duplicates, imaginary frequencies (argument_parser.py lines 81-92). */
  function QcorrDefaults(cwd: string): map<string, Value> {
    map[
      "w_dir_main" := Str(cwd),
      "files" := List([]),
      "atom_types" := List([]),
      "cartesians" := List([]),
      "dup" := Bool(true),
      "dup_threshold" := Float(0.0001),
      "ro_threshold" := Float(0.1),
      "amplitude_ifreq" := Float(0.2),
      "ifreq_cutoff" := Float(0.0),
      "freq_conv" := Null,
      "s2_threshold" := Float(10.0),
      "isom_type" := Null
    ]
  }

  /** Isomerisation and geometry rules, CREST and file naming (argument_parser.py lines 93-103). */
  function GeometryDefaults(cwd: string): map<string, Value> {
    map[
      "isom_inputs" := Str(cwd),
      "vdwfrac" := Float(0.5),
      "covfrac" := Float(1.1),
      "fullcheck" := Bool(true),
      "suffix" := Str(""),
      "geom_rules" := List([]),
      "angle_off" := Int(30),
      "crest_keywords" := Null,
      "crest_force" := Float(0.5),
      "prefix" := Str(""),
      "complex" := Bool(false)
    ]
  }

  /** Descriptor generation and NMR calibration (argument_parser.py lines 104-113). */
  function QdescpDefaults(): map<string, Value> {
    map[
      "qdescp" := Bool(false),
      "qdescp_temp" := Int(300),
      "qdescp_acc" := Float(0.2),
      "qdescp_solvent" := Null,
      "boltz" := Bool(true),
      "qdescp_rdkit" := Bool(true),
      "nmr_atoms" := List([Int(6), Int(1)]),
      "nmr_slope" := List([Float(-1.0537), Float(-1.0784)]),
      "nmr_intercept" := List([Float(181.7815), Float(31.8723)]),
      "nmr_experim" := Null
    ]
  }

  /** The default table `var_dict`; `cwd` stands for the working directory at import time. */
  function VarDict(cwd: string): map<string, Value> {
    GeneralDefaults() + ComplexDefaults() + SearchDefaults() + EngineDefaults() + QprepDefaults() + QcorrDefaults(cwd) + GeometryDefaults(cwd) + QdescpDefaults()
  }

  /**
   The NMR calibration defaults are three parallel lists with one entry per
   atom type: atomic numbers, slopes and intercepts.
   */
  predicate ParallelCalibration(table: map<string, Value>) {
    && "nmr_atoms" in table && table["nmr_atoms"].List?
    && "nmr_slope" in table && table["nmr_slope"].List?
    && "nmr_intercept" in table && table["nmr_intercept"].List?
    && |table["nmr_slope"].items| == |table["nmr_atoms"].items|
    && |table["nmr_intercept"].items| == |table["nmr_atoms"].items|
    && (forall a | a in table["nmr_atoms"].items :: a.Int?)
    && (forall v | v in table["nmr_slope"].items :: v.Float?)
    && (forall v | v in table["nmr_intercept"].items :: v.Float?)
  }

  /** The NMR calibration lists of the last group, which the union keeps as they are. */
  lemma QdescpCalibration()
    ensures "nmr_atoms" in QdescpDefaults() && QdescpDefaults()["nmr_atoms"] == List([Int(6), Int(1)])
    ensures "nmr_slope" in QdescpDefaults() && QdescpDefaults()["nmr_slope"] == List([Float(-1.0537), Float(-1.0784)])
    ensures "nmr_intercept" in QdescpDefaults() && QdescpDefaults()["nmr_intercept"] == List([Float(181.7815), Float(31.8723)])
  {
  }

  /** Carbon (6) then hydrogen (1), each with its slope and intercept. */
  lemma NmrCalibrationDefaults(cwd: string)
    ensures ParallelCalibration(VarDict(cwd))
    ensures |VarDict(cwd)["nmr_atoms"].items| == 2
    ensures VarDict(cwd)["nmr_atoms"].items == [Int(6), Int(1)]
    ensures VarDict(cwd)["nmr_slope"].items == [Float(-1.0537), Float(-1.0784)]
    ensures VarDict(cwd)["nmr_intercept"].items == [Float(181.7815), Float(31.8723)]
  {
    QdescpCalibration();
    var table := VarDict(cwd);
    assert table["nmr_atoms"] == List([Int(6), Int(1)]);
    assert table["nmr_slope"] == List([Float(-1.0537), Float(-1.0784)]);
    assert table["nmr_intercept"] == List([Float(181.7815), Float(31.8723)]);
  }

  /** `charge` (line 23) is an option of the complex group. */
  lemma ChargeIsOption()
    ensures "charge" in ComplexDefaults()
  {
  }

  /** `Charge` names no option of the groups, taken two at a time. */
  lemma UpperChargeNotInGeneralOrComplex()
    ensures "Charge" !in GeneralDefaults() && "Charge" !in ComplexDefaults()
  {
  }

  lemma UpperChargeNotInSearchOrEngine()
    ensures "Charge" !in SearchDefaults() && "Charge" !in EngineDefaults()
  {
  }

  lemma UpperChargeNotInQprepOrQcorr(cwd: string)
    ensures "Charge" !in QprepDefaults() && "Charge" !in QcorrDefaults(cwd)
  {
  }

  lemma UpperChargeNotInGeometryOrQdescp(cwd: string)
    ensures "Charge" !in GeometryDefaults(cwd) && "Charge" !in QdescpDefaults()
  {
  }

  lemma LowerOfUpperCharge()
    ensures Lower("Charge") == "charge"
  {
    assert Lower("Charge")[0] as int == 'C' as int + 32;
  }

  /** In the full table `charge` is an option and `Charge` is not, but lower-cases to it. */
  lemma CapitalisedChargeIsMixedCase(cwd: string)
    ensures "charge" in VarDict(cwd) && "Charge" !in VarDict(cwd)
    ensures MixedCase(VarDict(cwd), "Charge")
  {
    ChargeIsOption();
    UpperChargeNotInGeneralOrComplex();
    UpperChargeNotInSearchOrEngine();
    UpperChargeNotInQprepOrQcorr(cwd);
    UpperChargeNotInGeometryOrQdescp(cwd);
    LowerOfUpperCharge();
  }

  /**
   `set_options({"Charge": 1})` against the full default table: the loop as
   written raises `KeyError`, the corrected loop sets `charge` to 1 and leaves
   every other option at its default.
   */
  lemma CapitalisedChargeRaises(cwd: string)
    ensures SetOptions(VarDict(cwd), map["Charge" := Int(1)], ["Charge"]) == Err(MissingKey)
    ensures SetOptionsCorrected(VarDict(cwd), map["Charge" := Int(1)], ["Charge"]) == Ok(VarDict(cwd)["charge" := Int(1)], {})
  {
    CapitalisedChargeIsMixedCase(cwd);
    LowerOfUpperCharge();
    MixedCaseKeyAloneRaises(VarDict(cwd), "Charge", Int(1));
  }
}
