# aqme option resolution in Dafny

AQME (a conformer-search and quantum-chemistry workflow) configures each of its
modules (CSEARCH, CMIN, QPREP, QCORR, QDESCP) from one flat table of named
options, `var_dict`, with default values. `set_options(kwargs)` builds the
option record for a call. It copies every default, then walks the caller's
keyword arguments in dictionary order:

- a key that names an option overwrites it;
- a key whose lower-case form names an option writes that option, but takes
  the value stored under the lower-case key, so `Charge=1` passed alone raises
  `KeyError`;
- any other key is reported in a warning and ignored.

This project models that merge and the default table.

- `Ascii` (`ascii.dfy`) is the case mapping used for `key.lower()`.
- `ArgumentParser` (`argument_parser.dfy`) models the loop of `set_options`:
  - `Step` is one iteration and `Run` the loop;
  - `SetOptions` is the whole call, with the dictionary's iteration order given
    as an explicit sequence of keys;
  - `Resolve` is an order-free description of the outcome: it fails exactly
    when some mixed-case key lacks its lower-case twin, and otherwise gives the
    defaults overlaid with the keyword arguments that name an option, plus the
    set of warned keys.

  The central theorem says that the loop computes `Resolve` for every iteration
  order. The other properties follow from it. The proof goes through the ghost
  invariant `Visit`, the state after any set of keys has been processed.
- `CorrectedParser` (`corrected_parser.dfy`) is the loop with the mixed-case
  branch reading the key's own value (see Findings).
- `Defaults` (`var_dict.dfy`) is the default table, with Python values as a
  tagged `Value`. The table is written as the union of consecutive groups of
  entries, in source order. No name occurs in two groups.

Errors are values: `Resolution` is `Ok(options, warned)` or `Err(MissingKey)`.
Unknown keys only produce a warning; a mixed-case key without its lower-case
twin raises `KeyError` (see Findings).

## Model

| member | source | states |
|---|---|---|
| `Ascii.Lower` | aqme/argument_parser.py:132-133 | `key.lower()` on ASCII: the result has the key's length, no upper-case letter is left, A-Z move to a-z and every other character is kept |
| `Ascii.LowerFixedPoint` | aqme/argument_parser.py:130-132 | a key equals its lower-case form exactly when it has no upper-case letter, so only keys with an upper-case letter can reach the lower-case branch |
| `Ascii.LowerIdempotent` | aqme/argument_parser.py:132-133 | lower-casing an already lower-cased key changes nothing |
| `ArgumentParser.Run` | aqme/argument_parser.py:129-141 | the loop never adds or removes an option, an exception ends it with that exception, and the keys it adds to the warnings are visited keys that name no option |
| `ArgumentParser.SetOptions` | aqme/argument_parser.py:122-143 | a successful call returns a record with exactly the options of the default table, and warns only about keys that were passed |
| `ArgumentParser.SetOptionsMatchesResolve` | aqme/argument_parser.py:122-143 | for every iteration order of kwargs the call fails exactly when `Resolve` does; otherwise it returns the defaults overlaid with the kwargs that name an option, and warns about exactly the unknown keys |
| `ArgumentParser.OrderIrrelevant` | aqme/argument_parser.py:129-133 | two iteration orders of the same kwargs give the same outcome |
| `ArgumentParser.FailsExactlyOnMissingLowercase` | aqme/argument_parser.py:132-133 | the call raises `KeyError` if and only if some passed key is an option only after lower-casing and its lower-case form was not passed |
| `ArgumentParser.NoKwargsGivesDefaults` | aqme/argument_parser.py:127-128 | with no keyword arguments the record is the default table, unchanged, with no warning |
| `ArgumentParser.ResolvedOptions` | aqme/argument_parser.py:127-133 | after a successful call the record has exactly the table's options; an option passed under its own name holds the caller's value; an option not passed under its own name keeps its default |
| `ArgumentParser.WarnedAreUnknown` | aqme/argument_parser.py:134-141 | a key is warned about if and only if it was passed and neither it nor its lower-case form names an option |
| `ArgumentParser.UnknownKeyIgnored` | aqme/argument_parser.py:134-141 | dropping an unknown key from the kwargs changes neither success nor the record; only its warning goes away |
| `ArgumentParser.MixedCaseKeyUsesLowercaseValue` | aqme/argument_parser.py:132-133 | a mixed-case key without its lower-case twin makes the call fail; on success its option holds the twin's value, and the outcome equals the call without the mixed-case key |
| `ArgumentParser.ResolveIdempotent` | aqme/argument_parser.py:122-143 | resolving the same kwargs again, with the resolved record as the defaults, returns the same record and warnings |
| `CorrectedParser.RunCorrected` | aqme/argument_parser.py:129-141 | the corrected loop never fails once started from a record and never adds or removes an option |
| `CorrectedParser.SetOptionsCorrected` | aqme/argument_parser.py:122-143 | the corrected call always succeeds and returns a record with exactly the table's options |
| `CorrectedParser.RunCorrectedSlot` | aqme/argument_parser.py:129-133 | in the corrected loop an option no visited key writes keeps its value, and an option written by exactly one key holds that key's value |
| `CorrectedParser.MixedCaseKeyUsesOwnValue` | aqme/argument_parser.py:132-133 | in the corrected loop a mixed-case key that is the only writer of its option sets the option to its own value |
| `CorrectedParser.UnwrittenOptionKeepsDefault` | aqme/argument_parser.py:127-133 | in the corrected loop an option that no passed key writes keeps its default |
| `CorrectedParser.CorrectedAgreesWithoutMixedCase` | aqme/argument_parser.py:129-141 | for calls with no mixed-case key the corrected loop and the loop as written give the same outcome |
| `CorrectedParser.MixedCaseKeyAloneRaises` | aqme/argument_parser.py:132-133 | a mixed-case key passed alone makes the loop as written fail; the corrected loop writes its value to the lower-case option |
| `Defaults.CapitalisedChargeIsMixedCase` | aqme/argument_parser.py:23 | in the full default table `charge` is an option and `Charge` is not, so `Charge` reaches the lower-case branch |
| `Defaults.CapitalisedChargeRaises` | aqme/argument_parser.py:132-133 | against the full default table, a caller passing only `Charge=1` makes the loop as written raise `KeyError`; the corrected loop returns the table with `charge` set to 1 and no warning |
| `Defaults.NmrCalibrationDefaults` | aqme/argument_parser.py:110-112 | in the full table the NMR calibration lists have the same length, 2. Atomic numbers are [6, 1] (C, H), slopes [-1.0537, -1.0784] and intercepts [181.7815, 31.8723] |

## Left out

- The warning text printed for an unknown key (aqme/argument_parser.py:135-141) is console output. The model returns the set of warned keys instead.
- The `KeyError` message and the warnings printed before it are not modelled. `MissingKey` carries no key name, because with several offending keys the one reported depends on iteration order.
- The two defaults computed by `os.getcwd()` depend on the environment. They come from the `cwd` parameter of `Defaults.VarDict`.
- The `options_add` attribute object and `vars(...)` are Python object plumbing. The record is a map from option name to value.
- The list defaults are shared between `var_dict` and every record, because Python passes references. The model has values only, so this aliasing has no counterpart.
- Dictionary iteration order is not chosen by the model. It is the `order` parameter, and every property holds for every order that lists each passed key and no other.
- `set_options` only reads the default table. In the model the table is an immutable map, so this holds by construction and needs no lemma.
- Ascii.Lower: maps only `A`-`Z`, whereas Python's `str.lower` also lower-cases non-ASCII letters. Keys outside ASCII are therefore not modelled faithfully.
- Python floats in the table are modelled as exact decimals (`real`); binary rounding is not represented. Nothing in the merge does arithmetic on them.
- Keys are modelled as strings, as when `set_options` receives `**kwargs`. A dictionary with a non-string key, such as `set_options({1: 2})`, raises `AttributeError` at `key.lower()` (aqme/argument_parser.py:132); that error is not modelled.
- Only the NMR calibration entries, the presence of `charge` and the absence of `Charge` are proved about the default table. The other entries are transcribed as written but not stated in lemmas.
- Every test in tests/test_qdescp.py is commented out. Only its imports and the creation of `tests/qdescp_inputs` (tests/test_qdescp.py:8-19) are live. What the tests would check is the external xtb command line and files, which are outside this model.
- Boltzmann weighting, descriptor aggregation and NMR shift calibration are not part of this model. Their code is not among the source files modelled here, and they are floating-point numerics.

## Findings

| source | as written | input that shows it | evidently intended | confidence | as-written member | corrected member |
|---|---|---|---|---|---|---|
| aqme/argument_parser.py:132-133 | a key whose lower-case form is an option writes `kwargs[key.lower()]` under `key.lower()` | `set_options({"Charge": 1})`: `charge` is an option and `Charge` is not, so the lookup `kwargs["charge"]` raises `KeyError`. When `charge` is passed too, `Charge`'s own value is silently dropped | write `kwargs[key]` under `key.lower()`, so option names are case-insensitive | medium; not executed | `Defaults.CapitalisedChargeRaises` | `CorrectedParser.SetOptionsCorrected` |

The properties in `ArgumentParser` describe the loop as written, since that is what the code does. The corrected loop, `CorrectedParser.SetOptionsCorrected`, has the following properties:

- it never fails;
- a mixed-case key that is the only writer of its option sets that option to its own value;
- it agrees with the loop as written on every call that passes no mixed-case key.

Unlike the loop as written, its outcome depends on iteration order when two spellings of the same option are passed: the one visited last wins.
