/**
 `set_options` as its mixed-case branch evidently means it: a key whose
 lower-case form names an option writes that option with the key's OWN value.
 This variant never fails, and when several keys write the same option the
 one visited last wins.
 */
module CorrectedParser {
  import opened Ascii
  import opened ArgumentParser

  /** One iteration of the corrected loop: the mixed-case branch reads `kwargs[key]`. */
  function StepCorrected<V>(defaults: map<string, V>, kwargs: map<string, V>, acc: Resolution<V>, key: string): Resolution<V>
    requires key in kwargs
  {
    match acc
    case Err(_) => acc
    case Ok(options, warned) =>
      if key in defaults then
        Ok(options[key := kwargs[key]], warned)
      else if Lower(key) in defaults then
        Ok(options[Lower(key) := kwargs[key]], warned)
      else
        Ok(options, warned + {key})
  }

  function RunCorrected<V>(defaults: map<string, V>, kwargs: map<string, V>, order: seq<string>, acc: Resolution<V>): (r: Resolution<V>)
    requires forall i | 0 <= i < |order| :: order[i] in kwargs
    requires acc.Ok? ==> acc.options.Keys == defaults.Keys
    ensures acc.Ok? <==> r.Ok?
    ensures r.Ok? ==> r.options.Keys == defaults.Keys
    decreases |order|
  {
    if order == [] then acc
    else RunCorrected(defaults, kwargs, order[1..], StepCorrected(defaults, kwargs, acc, order[0]))
  }

  /** The corrected `set_options(kwargs)`, keys visited in `order`; it never raises. */
  function SetOptionsCorrected<V>(defaults: map<string, V>, kwargs: map<string, V>, order: seq<string>): (r: Resolution<V>)
    requires Enumerates(order, kwargs)
    ensures r.Ok? && r.options.Keys == defaults.Keys
  {
    RunCorrected(defaults, kwargs, order, Ok(defaults, {}))
  }

  /**
   The value that ends up in option `d`: untouched when no visited key writes
   it, and the value of `key` when `key` is the only visited key writing it.
   */
  lemma {:induction false} RunCorrectedSlot<V>(defaults: map<string, V>, kwargs: map<string, V>, order: seq<string>,
                                                options: map<string, V>, warned: set<string>, d: string, key: string)
    requires forall i | 0 <= i < |order| :: order[i] in kwargs
    requires options.Keys == defaults.Keys && d in defaults
    ensures var r := RunCorrected(defaults, kwargs, order, Ok(options, warned));
      && ((forall i | 0 <= i < |order| :: Target(defaults, order[i]) != d) ==> r.options[d] == options[d])
      && ((key in order && Target(defaults, key) == d
           && forall i | 0 <= i < |order| && Target(defaults, order[i]) == d :: order[i] == key)
          ==> r.options[d] == kwargs[key])
    decreases |order|
  {
    if order != [] {
      var next := StepCorrected(defaults, kwargs, Ok(options, warned), order[0]);
      RunCorrectedSlot(defaults, kwargs, order[1..], next.options, next.warned, d, key);
      if key in order && Target(defaults, key) == d
         && forall i | 0 <= i < |order| && Target(defaults, order[i]) == d :: order[i] == key {
        if key !in order[1..] {
          assert order[0] == key;
          assert forall i | 0 <= i < |order[1..]| :: Target(defaults, order[1..][i]) != d;
        }
      }
    }
  }

  /**
   A key whose lower-case form names an option, and which is the only key
   writing that option, sets it to its own value; the call succeeds.
   */
  lemma MixedCaseKeyUsesOwnValue<V>(defaults: map<string, V>, kwargs: map<string, V>, key: string, order: seq<string>)
    requires Enumerates(order, kwargs)
    requires key in kwargs && MixedCase(defaults, key)
    requires forall k | k in kwargs && Target(defaults, k) == Lower(key) :: k == key
    ensures var r := SetOptionsCorrected(defaults, kwargs, order);
      r.Ok? && r.options[Lower(key)] == kwargs[key]
  {
    RunCorrectedSlot(defaults, kwargs, order, defaults, {}, Lower(key), key);
  }

  /** An option that no key writes keeps its default. */
  lemma UnwrittenOptionKeepsDefault<V>(defaults: map<string, V>, kwargs: map<string, V>, d: string, order: seq<string>)
    requires Enumerates(order, kwargs)
    requires d in defaults && forall k | k in kwargs :: Target(defaults, k) != d
    ensures SetOptionsCorrected(defaults, kwargs, order).options[d] == defaults[d]
  {
    RunCorrectedSlot(defaults, kwargs, order, defaults, {}, d, d);
  }

  lemma {:induction false} RunAgreesWithoutMixedCase<V>(defaults: map<string, V>, kwargs: map<string, V>, order: seq<string>, acc: Resolution<V>)
    requires forall i | 0 <= i < |order| :: order[i] in kwargs && !MixedCase(defaults, order[i])
    requires acc.Ok? ==> acc.options.Keys == defaults.Keys
    ensures RunCorrected(defaults, kwargs, order, acc) == Run(defaults, kwargs, order, acc)
    decreases |order|
  {
    if order != [] {
      RunAgreesWithoutMixedCase(defaults, kwargs, order[1..], Step(defaults, kwargs, acc, order[0]));
    }
  }

  /** The correction changes nothing for calls that pass no mixed-case key. */
  lemma CorrectedAgreesWithoutMixedCase<V>(defaults: map<string, V>, kwargs: map<string, V>, order: seq<string>)
    requires Enumerates(order, kwargs)
    requires forall k | k in kwargs :: !MixedCase(defaults, k)
    ensures SetOptionsCorrected(defaults, kwargs, order) == SetOptions(defaults, kwargs, order)
  {
    RunAgreesWithoutMixedCase(defaults, kwargs, order, Ok(defaults, {}));
  }

  /**
   A key passed on its own whose lower-case form names an option: the loop as
   written raises, the corrected loop applies the key's value.
   */
  lemma MixedCaseKeyAloneRaises<V>(defaults: map<string, V>, key: string, v: V)
    requires MixedCase(defaults, key)
    ensures SetOptions(defaults, map[key := v], [key]) == Err(MissingKey)
    ensures SetOptionsCorrected(defaults, map[key := v], [key]) == Ok(defaults[Lower(key) := v], {})
  {
    var kwargs := map[key := v];
    assert [key][1..] == [];
    var stepped := StepCorrected(defaults, kwargs, Ok(defaults, {}), key);
    assert stepped == Ok(defaults[Lower(key) := v], {});
    assert RunCorrected(defaults, kwargs, [], stepped) == stepped;
    assert RunCorrected(defaults, kwargs, [key], Ok(defaults, {})) == RunCorrected(defaults, kwargs, [], stepped);
  }
}
