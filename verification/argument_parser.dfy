/**
 Option resolution of aqme's `set_options`: a record is filled from the default
 table, then every keyword argument is applied in the order the caller's
 dictionary yields its keys.

 - a key that names an option overwrites that option;
 - a key whose lower-case form names an option writes that option, but with the
   value stored under the LOWER-CASE key (a missing lower-case key raises
   `KeyError`);
 - any other key is reported in a warning and otherwise ignored.

 The loop is modelled step by step (`Step`, `Run`, `SetOptions`) and compared
 with a declarative description of its outcome (`Resolve`): defaults overlaid
 with the keyword arguments that name an option.
 */
module ArgumentParser {
  import opened Ascii

  /** The only way `set_options` fails on string keys: `kwargs[key.lower()]` raises `KeyError`. */
  datatype ResolveError = MissingKey

  /** The resolved option record together with the keys that were warned about. */
  datatype Resolution<V> =
    | Ok(options: map<string, V>, warned: set<string>)
    | Err(error: ResolveError)

  /** A key that neither names an option nor lower-cases to one. */
  predicate Unknown<V>(defaults: map<string, V>, key: string) {
    key !in defaults && Lower(key) !in defaults
  }

  /** A key that names an option only after lower-casing. */
  predicate MixedCase<V>(defaults: map<string, V>, key: string) {
    key !in defaults && Lower(key) in defaults
  }

  /** A passed key whose lower-case lookup `kwargs[key.lower()]` fails. */
  predicate RaisesKeyError<V>(defaults: map<string, V>, kwargs: map<string, V>, key: string) {
    key in kwargs && MixedCase(defaults, key) && Lower(key) !in kwargs
  }

  /** The option slot a key is written to (when it names one at all). */
  function Target<V>(defaults: map<string, V>, key: string): string {
    if key in defaults then key else Lower(key)
  }

  /** `order` is one iteration order of the dictionary `kwargs`: it visits every key at least once and only keys of `kwargs`. */
  predicate Enumerates<V>(order: seq<string>, kwargs: map<string, V>) {
    && (forall i | 0 <= i < |order| :: order[i] in kwargs)
    && (forall k | k in kwargs :: k in order)
  }

  /** One iteration of the loop over kwargs. An error is final, as the raised exception is. */
  function Step<V>(defaults: map<string, V>, kwargs: map<string, V>, acc: Resolution<V>, key: string): Resolution<V>
    requires key in kwargs
  {
    match acc
    case Err(_) => acc
    case Ok(options, warned) =>
      if key in defaults then
        Ok(options[key := kwargs[key]], warned)
      else if Lower(key) in defaults then
        if Lower(key) in kwargs then Ok(options[Lower(key) := kwargs[Lower(key)]], warned)
        else Err(MissingKey)
      else
        Ok(options, warned + {key})
  }

  /** The loop over kwargs, visiting keys in `order`. */
  function Run<V>(defaults: map<string, V>, kwargs: map<string, V>, order: seq<string>, acc: Resolution<V>): (r: Resolution<V>)
    requires forall i | 0 <= i < |order| :: order[i] in kwargs
    requires acc.Ok? ==> acc.options.Keys == defaults.Keys
    ensures acc.Err? ==> r == acc
    ensures r.Ok? ==> acc.Ok? && r.options.Keys == defaults.Keys && acc.warned <= r.warned
    ensures r.Ok? ==> forall k | k in r.warned && k !in acc.warned :: k in order && Unknown(defaults, k)
    decreases |order|
  {
    if order == [] then acc
    else
      var next := Step(defaults, kwargs, acc, order[0]);
      assert forall k | k in order[1..] :: k in order;
      Run(defaults, kwargs, order[1..], next)
  }

  /** `set_options(kwargs)` with the dictionary's keys visited in `order`. */
  function SetOptions<V>(defaults: map<string, V>, kwargs: map<string, V>, order: seq<string>): (r: Resolution<V>)
    requires Enumerates(order, kwargs)
    ensures r.Ok? ==> r.options.Keys == defaults.Keys
    ensures r.Ok? ==> r.warned <= kwargs.Keys
  {
    Run(defaults, kwargs, order, Ok(defaults, {}))
  }

  /**
   What `set_options` computes, independently of iteration order: it fails
   exactly when some mixed-case key lacks its lower-case twin; otherwise the
   defaults are overlaid with the keyword arguments that name an option, and
   the unknown keys are warned about.
   */
  function Resolve<V>(defaults: map<string, V>, kwargs: map<string, V>): Resolution<V> {
    if exists k | k in kwargs :: RaisesKeyError(defaults, kwargs, k) then Err(MissingKey)
    else Ok(defaults + (map k | k in kwargs && k in defaults :: kwargs[k]),
            set k | k in kwargs && Unknown(defaults, k))
  }

  // ---------------------------------------------------------------------------
  // The loop invariant: the state after visiting a set of keys
  // ---------------------------------------------------------------------------

  /** Some visited key is written to slot `d`. */
  ghost predicate Written<V>(defaults: map<string, V>, visited: set<string>, d: string) {
    exists k | k in visited :: Target(defaults, k) == d
  }

  /** The state of the loop once exactly the keys in `visited` have been processed, in any order. */
  ghost function Visit<V>(defaults: map<string, V>, kwargs: map<string, V>, visited: set<string>): (r: Resolution<V>)
    requires visited <= kwargs.Keys
    ensures r.Ok? ==> r.options.Keys == defaults.Keys
  {
    if exists k | k in visited :: RaisesKeyError(defaults, kwargs, k) then Err(MissingKey)
    else
      var options := map d | d in defaults :: if d in kwargs && Written(defaults, visited, d) then kwargs[d] else defaults[d];
      assert options.Keys == defaults.Keys;
      Ok(options, set k | k in visited && Unknown(defaults, k))
  }

  lemma VisitNothing<V>(defaults: map<string, V>, kwargs: map<string, V>)
    ensures Visit(defaults, kwargs, {}) == Ok(defaults, {})
  {
    var r := Visit(defaults, kwargs, {});
    assert forall d | d in defaults :: !Written(defaults, {}, d);
    assert r.options == defaults;
  }

  /** One loop iteration moves the invariant from `visited` to `visited + {key}`. */
  lemma StepVisit<V>(defaults: map<string, V>, kwargs: map<string, V>, visited: set<string>, key: string)
    requires visited <= kwargs.Keys && key in kwargs
    ensures Step(defaults, kwargs, Visit(defaults, kwargs, visited), key) == Visit(defaults, kwargs, visited + {key})
  {
    var before := Visit(defaults, kwargs, visited);
    var after := Visit(defaults, kwargs, visited + {key});
    if before.Err? {
      var k :| k in visited && RaisesKeyError(defaults, kwargs, k);
      assert k in visited + {key};
    } else if RaisesKeyError(defaults, kwargs, key) {
      assert key in visited + {key};
    } else {
      assert after.Ok?;
      var stepped := Step(defaults, kwargs, before, key);
      assert stepped.Ok?;
      forall d | d in defaults
        ensures stepped.options[d] == after.options[d]
      {
        assert Written(defaults, visited, d) ==> Written(defaults, visited + {key}, d);
        if Target(defaults, key) == d {
          assert Written(defaults, visited + {key}, d);
        } else if Written(defaults, visited + {key}, d) {
          var k :| k in visited + {key} && Target(defaults, k) == d;
          assert Written(defaults, visited, d);
        }
      }
      assert stepped.options == after.options;
      assert stepped.warned == after.warned;
    }
  }

  /** Running the loop over `order` from the invariant state extends the visited set by the keys of `order`. */
  lemma {:induction false} RunVisit<V>(defaults: map<string, V>, kwargs: map<string, V>, visited: set<string>, order: seq<string>)
    requires visited <= kwargs.Keys
    requires forall i | 0 <= i < |order| :: order[i] in kwargs
    ensures (set k | k in order) <= kwargs.Keys
    ensures Run(defaults, kwargs, order, Visit(defaults, kwargs, visited))
         == Visit(defaults, kwargs, visited + (set k | k in order))
    decreases |order|
  {
    if order == [] {
      assert visited + (set k | k in order) == visited;
    } else {
      StepVisit(defaults, kwargs, visited, order[0]);
      RunVisit(defaults, kwargs, visited + {order[0]}, order[1..]);
      assert visited + {order[0]} + (set k | k in order[1..]) == visited + (set k | k in order) by {
        assert order == [order[0]] + order[1..];
      }
    }
  }

  lemma VisitEverything<V>(defaults: map<string, V>, kwargs: map<string, V>)
    ensures Visit(defaults, kwargs, kwargs.Keys) == Resolve(defaults, kwargs)
  {
    var v := Visit(defaults, kwargs, kwargs.Keys);
    var r := Resolve(defaults, kwargs);
    if v.Ok? {
      forall d | d in defaults
        ensures v.options[d] == r.options[d]
      {
        if d in kwargs {
          assert Target(defaults, d) == d;
        }
      }
      assert v.options == r.options;
    }
  }

  // ---------------------------------------------------------------------------
  // Properties of set_options
  // ---------------------------------------------------------------------------

  /** Whatever order the dictionary yields its keys in, `set_options` computes `Resolve`. */
  lemma SetOptionsMatchesResolve<V>(defaults: map<string, V>, kwargs: map<string, V>, order: seq<string>)
    requires Enumerates(order, kwargs)
    ensures SetOptions(defaults, kwargs, order) == Resolve(defaults, kwargs)
  {
    VisitNothing(defaults, kwargs);
    RunVisit(defaults, kwargs, {}, order);
    assert {} + (set k | k in order) == kwargs.Keys;
    VisitEverything(defaults, kwargs);
  }

  /** The outcome does not depend on the iteration order of kwargs. */
  lemma OrderIrrelevant<V>(defaults: map<string, V>, kwargs: map<string, V>, order1: seq<string>, order2: seq<string>)
    requires Enumerates(order1, kwargs) && Enumerates(order2, kwargs)
    ensures SetOptions(defaults, kwargs, order1) == SetOptions(defaults, kwargs, order2)
  {
    SetOptionsMatchesResolve(defaults, kwargs, order1);
    SetOptionsMatchesResolve(defaults, kwargs, order2);
  }

  /** `set_options` raises exactly when some mixed-case key has no lower-case twin among the kwargs. */
  lemma FailsExactlyOnMissingLowercase<V>(defaults: map<string, V>, kwargs: map<string, V>, order: seq<string>)
    requires Enumerates(order, kwargs)
    ensures SetOptions(defaults, kwargs, order).Err?
        <==> exists k | k in kwargs :: MixedCase(defaults, k) && Lower(k) !in kwargs
  {
    SetOptionsMatchesResolve(defaults, kwargs, order);
  }

  /** With no keyword arguments the record is a copy of the defaults and nothing is warned about. */
  lemma NoKwargsGivesDefaults<V>(defaults: map<string, V>)
    ensures SetOptions(defaults, map[], []) == Ok(defaults, {})
  {
    SetOptionsMatchesResolve(defaults, map[], []);
    assert defaults + map[] == defaults;
  }

  /**
   The resolved record has exactly the options of the default table; a key
   passed under an option's own name carries the caller's value, and every
   option not passed under its own name keeps its default.
   */
  lemma ResolvedOptions<V>(defaults: map<string, V>, kwargs: map<string, V>, order: seq<string>)
    requires Enumerates(order, kwargs)
    ensures var r := SetOptions(defaults, kwargs, order);
      r.Ok? ==>
        && r.options.Keys == defaults.Keys
        && (forall k | k in kwargs && k in defaults :: r.options[k] == kwargs[k])
        && (forall d | d in defaults && d !in kwargs :: r.options[d] == defaults[d])
  {
    SetOptionsMatchesResolve(defaults, kwargs, order);
  }

  /** Exactly the unknown keys are warned about. */
  lemma WarnedAreUnknown<V>(defaults: map<string, V>, kwargs: map<string, V>, order: seq<string>)
    requires Enumerates(order, kwargs)
    ensures var r := SetOptions(defaults, kwargs, order);
      r.Ok? ==> forall k :: k in r.warned <==> k in kwargs && Unknown(defaults, k)
  {
    SetOptionsMatchesResolve(defaults, kwargs, order);
  }

  /**
   An unknown key has no effect: dropping it from the kwargs leaves success,
   failure and the resolved record as they were; only the warning goes.
   */
  lemma UnknownKeyIgnored<V>(defaults: map<string, V>, kwargs: map<string, V>, key: string, order: seq<string>, rest: seq<string>)
    requires key in kwargs && Unknown(defaults, key)
    requires Enumerates(order, kwargs) && Enumerates(rest, kwargs - {key})
    ensures var r := SetOptions(defaults, kwargs, order);
            var s := SetOptions(defaults, kwargs - {key}, rest);
      && r.Ok? == s.Ok?
      && (r.Ok? ==> key in r.warned && r.options == s.options && r.warned == s.warned + {key})
  {
    SetOptionsMatchesResolve(defaults, kwargs, order);
    SetOptionsMatchesResolve(defaults, kwargs - {key}, rest);
    var kw' := kwargs - {key};
    assert forall k :: RaisesKeyError(defaults, kwargs, k) <==> RaisesKeyError(defaults, kw', k);
    assert (map k | k in kwargs && k in defaults :: kwargs[k]) == (map k | k in kw' && k in defaults :: kw'[k]);
  }

  /**
   A mixed-case key is never applied with its own value: when its lower-case
   twin is absent the call fails; otherwise the option holds the twin's value
   and the mixed-case key could as well not have been passed.
   */
  lemma MixedCaseKeyUsesLowercaseValue<V>(defaults: map<string, V>, kwargs: map<string, V>, key: string, order: seq<string>, rest: seq<string>)
    requires key in kwargs && MixedCase(defaults, key)
    requires Enumerates(order, kwargs) && Enumerates(rest, kwargs - {key})
    ensures var r := SetOptions(defaults, kwargs, order);
      && (Lower(key) !in kwargs ==> r.Err?)
      && (r.Ok? ==> Lower(key) in kwargs && r.options[Lower(key)] == kwargs[Lower(key)])
      && (r.Ok? ==> r == SetOptions(defaults, kwargs - {key}, rest))
  {
    SetOptionsMatchesResolve(defaults, kwargs, order);
    SetOptionsMatchesResolve(defaults, kwargs - {key}, rest);
    var kw' := kwargs - {key};
    if Lower(key) !in kwargs {
      assert RaisesKeyError(defaults, kwargs, key);
    } else {
      assert Lower(key) != key;
      assert forall k :: RaisesKeyError(defaults, kw', k) ==> RaisesKeyError(defaults, kwargs, k);
      assert (map k | k in kwargs && k in defaults :: kwargs[k]) == (map k | k in kw' && k in defaults :: kw'[k]);
    }
  }

  /** Resolving again with the resolved record as the defaults changes nothing. */
  lemma ResolveIdempotent<V>(defaults: map<string, V>, kwargs: map<string, V>, order: seq<string>)
    requires Enumerates(order, kwargs)
    ensures var r := SetOptions(defaults, kwargs, order);
      r.Ok? ==> SetOptions(r.options, kwargs, order) == r
  {
    var r := SetOptions(defaults, kwargs, order);
    SetOptionsMatchesResolve(defaults, kwargs, order);
    if r.Ok? {
      SetOptionsMatchesResolve(r.options, kwargs, order);
      assert forall k :: RaisesKeyError(r.options, kwargs, k) <==> RaisesKeyError(defaults, kwargs, k);
      assert forall k :: Unknown(r.options, k) <==> Unknown(defaults, k);
      var again := Resolve(r.options, kwargs);
      assert again.options == r.options;
    }
  }
}
