/**
 * The scale service (src/core/core.scaleService.js): a registry of scale
 * types, mapping each type name to its constructor and to its own default
 * configuration.
 *
 * A configuration object is modelled flat, as a map from option names to
 * values. Copying it (`clone`) is a plain copy, `extend(target, additions)`
 * overwrites the target's options with the additions', and
 * `scaleMerge(globalScaleDefaults, own)` is taken as the same shallow
 * override with the type's own defaults winning.
 */
module ScaleService {
  import opened Js

  type Config = map<string, Value>

  /** A scale constructor, known by identity. */
  datatype ScaleConstructor = ScaleConstructor(id: nat)

  /** `extend(target, additions)`: the additions' options overwrite the target's. */
  function Extended(target: Config, additions: Config): (r: Config)
    ensures forall k :: k in r <==> k in target || k in additions
    ensures forall k :: k in additions ==> r[k] == additions[k]
    ensures forall k :: k in target && k !in additions ==> r[k] == target[k]
  {
    target + additions
  }

  class ScaleRegistry {
    var constructors: map<string, ScaleConstructor>
    var defaults: map<string, Config>

    /** Every registered type has both a constructor and defaults. */
    ghost predicate Valid()
      reads this
    {
      constructors.Keys == defaults.Keys
    }

    constructor()
      ensures constructors == map[] && defaults == map[]
      ensures Valid()
    {
      constructors := map[];
      defaults := map[];
    }

    /** `registerScaleType(type, ctor, defaults)`: registers or overwrites both entries for `type`. */
    method RegisterScaleType(scaleType: string, ctor: ScaleConstructor, scaleDefaults: Config)
      requires Valid()
      modifies this
      ensures Valid()
      ensures constructors == old(constructors)[scaleType := ctor]
      ensures defaults == old(defaults)[scaleType := scaleDefaults]
      ensures GetScaleConstructor(scaleType) == Some(ctor)
      ensures forall t :: t != scaleType ==> GetScaleConstructor(t) == old(GetScaleConstructor(t))
      ensures forall g, k :: k in scaleDefaults ==> GetScaleDefaults(scaleType, g)[k] == scaleDefaults[k]
    {
      constructors := constructors[scaleType := ctor];
      defaults := defaults[scaleType := scaleDefaults];
    }

    /** `getScaleConstructor(type)`: the registered constructor, or undefined. */
    function GetScaleConstructor(scaleType: string): (r: Option<ScaleConstructor>)
      reads this
      ensures r.None? <==> scaleType !in constructors
      ensures r.Some? ==> r.value == constructors[scaleType]
    {
      if scaleType in constructors then Some(constructors[scaleType]) else None
    }

    /**
     * `getScaleDefaults(type)`: the global scale defaults overridden by the
     * type's own, or an empty object for an unregistered type.
     */
    function GetScaleDefaults(scaleType: string, globalScale: Config): (r: Config)
      reads this
      ensures scaleType !in defaults ==> r == map[]
      ensures scaleType in defaults ==>
        (forall k :: k in r <==> k in globalScale || k in defaults[scaleType])
      ensures scaleType in defaults ==>
        (forall k :: k in defaults[scaleType] ==> r[k] == defaults[scaleType][k])
    {
      if scaleType in defaults then Extended(globalScale, defaults[scaleType]) else map[]
    }

    /**
     * `updateScaleDefaults(type, additions)`: extends the defaults of a
     * registered type; does nothing for an unregistered one.
     */
    method UpdateScaleDefaults(scaleType: string, additions: Config)
      requires Valid()
      modifies this
      ensures Valid()
      ensures constructors == old(constructors)
      ensures scaleType !in old(defaults) ==> defaults == old(defaults)
      ensures scaleType in old(defaults) ==>
        defaults == old(defaults)[scaleType := Extended(old(defaults)[scaleType], additions)]
      ensures forall t, g :: t != scaleType ==> GetScaleDefaults(t, g) == old(GetScaleDefaults(t, g))
      ensures scaleType in old(defaults) ==>
        forall g, k :: k in additions ==> GetScaleDefaults(scaleType, g)[k] == additions[k]
    {
      if scaleType in defaults {
        defaults := defaults[scaleType := Extended(defaults[scaleType], additions)];
      }
    }
  }
}
