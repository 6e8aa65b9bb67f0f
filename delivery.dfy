/** Delivery-speed surcharges: a registry from speed keys to charge rules. */
module Delivery {
  import opened Common
  import opened Types

  const FLAT_FEE: real := 10.0
  const PER_KG_FEE: real := 1.2

  /** The final charge under a delivery speed: standard adds nothing, express adds
      a flat fee and a fee per kg. */
  function CalculateFinalCharge(speed: DeliverySpeed, baseCharge: real, weightKg: real): (r: real)
    ensures speed.Standard? ==> r == baseCharge
    ensures weightKg >= 0.0 ==> r >= baseCharge
    ensures speed.Express? && weightKg >= 0.0 ==> r >= baseCharge + FLAT_FEE
  {
    match speed
    case Standard => baseCharge
    case Express => baseCharge + FLAT_FEE + PER_KG_FEE * weightKg
  }

  /** The registry, as (key, strategy) pairs in the order they are declared. */
  const strategies: seq<(string, DeliverySpeed)> := [("standard", Standard), ("express", Express)]

  /** The keys of a registry, in order. */
  function Keys(registry: seq<(string, DeliverySpeed)>): (ks: seq<string>)
    ensures |ks| == |registry|
    ensures forall i :: 0 <= i < |registry| ==> ks[i] == registry[i].0
  {
    if registry == [] then [] else [registry[0].0] + Keys(registry[1..])
  }

  /** The supported speeds are exactly the registry's keys. */
  const SUPPORTED_SPEEDS: seq<string> := Keys(strategies)

  /** The strategy registered under `key`, if any. */
  function Find(registry: seq<(string, DeliverySpeed)>, key: string): (r: Option<DeliverySpeed>)
    ensures r.Some? <==> key in Keys(registry)
    ensures r.Some? ==> (key, r.value) in registry
  {
    if registry == [] then None
    else if registry[0].0 == key then Some(registry[0].1)
    else Find(registry[1..], key)
  }

  /** The strategy for a speed key; an error listing the valid keys otherwise. */
  function GetDeliveryStrategy(speed: string): (r: Result<DeliverySpeed, Failure>)
    ensures r.Ok? <==> speed in SUPPORTED_SPEEDS
    ensures r.Ok? ==> (speed, r.value) in strategies
    ensures r.Err? ==> r.error == UnsupportedSpeed(speed, SUPPORTED_SPEEDS)
  {
    match Find(strategies, speed)
    case Some(s) => Ok(s)
    case None => Err(UnsupportedSpeed(speed, SUPPORTED_SPEEDS))
  }

  /** The key a speed is registered under. */
  function SpeedKey(speed: DeliverySpeed): string {
    match speed
    case Standard => "standard"
    case Express => "express"
  }

  /** The supported speeds are `standard` and `express`, in that order. */
  lemma SupportedSpeedsValue()
    ensures SUPPORTED_SPEEDS == ["standard", "express"]
  {
    assert Keys(strategies) == [strategies[0].0, strategies[1].0];
  }

  /** Every speed is found under its key, and every supported key names its speed. */
  lemma RegistryRoundTrip(speed: DeliverySpeed, key: string)
    ensures GetDeliveryStrategy(SpeedKey(speed)) == Ok(speed)
    ensures GetDeliveryStrategy(key).Ok? ==> SpeedKey(GetDeliveryStrategy(key).value) == key
  {
    SupportedSpeedsValue();
    assert strategies[1..][1..] == [];
  }

  /** Standard returns the base charge, whatever the weight. */
  lemma StandardIsIdentity(baseCharge: real, weightKg: real, otherWeightKg: real)
    ensures CalculateFinalCharge(Standard, baseCharge, weightKg) == baseCharge
    ensures CalculateFinalCharge(Standard, baseCharge, weightKg) == CalculateFinalCharge(Standard, baseCharge, otherWeightKg)
  {
  }

  /** Express costs exactly 10 + 1.2 × weight more than standard, hence at least
      10 more for a non-negative weight. */
  lemma ExpressSurcharge(baseCharge: real, weightKg: real)
    ensures CalculateFinalCharge(Express, baseCharge, weightKg)
         == CalculateFinalCharge(Standard, baseCharge, weightKg) + 10.0 + 1.2 * weightKg
    ensures weightKg >= 0.0 ==>
      CalculateFinalCharge(Express, baseCharge, weightKg) >= CalculateFinalCharge(Standard, baseCharge, weightKg) + 10.0
  {
  }

  /** Worked charges. */
  lemma FinalChargeValues()
    ensures CalculateFinalCharge(Standard, 100.0, 5.0) == 100.0
    ensures CalculateFinalCharge(Standard, 0.0, 5.0) == 0.0
    ensures CalculateFinalCharge(Express, 100.0, 5.0) == 116.0
    ensures CalculateFinalCharge(Express, 50.0, 0.5) == 60.6
    ensures CalculateFinalCharge(Express, 0.0, 10.0) == 22.0
    ensures CalculateFinalCharge(Express, 8000.0, 25.0) == 8040.0
  {
  }

  /** An unsupported key such as "overnight" is rejected with the list of valid keys. */
  lemma UnsupportedSpeedRejected()
    ensures GetDeliveryStrategy("overnight") == Err(UnsupportedSpeed("overnight", ["standard", "express"]))
  {
    SupportedSpeedsValue();
  }

  /** Property names every plain object inherits from `Object.prototype` in Node:
      its methods, the legacy accessor helpers, and `__proto__`. */
  const INHERITED_NAMES: seq<string> := ["constructor", "hasOwnProperty", "isPrototypeOf",
    "propertyIsEnumerable", "toLocaleString", "toString", "valueOf",
    "__proto__", "__defineGetter__", "__defineSetter__", "__lookupGetter__", "__lookupSetter__"]

  /** What indexing the registry object with a key yields: a registered strategy,
      an inherited member (a function, or for `__proto__` the prototype object;
      truthy either way, and not a strategy), or nothing. */
  datatype Indexed = Own(speed: DeliverySpeed) | Inherited | Undefined

  function IndexRegistry(key: string): (r: Indexed)
    ensures r.Own? <==> key in SUPPORTED_SPEEDS
    ensures r.Inherited? <==> key !in SUPPORTED_SPEEDS && key in INHERITED_NAMES
  {
    match Find(strategies, key)
    case Some(s) => Own(s)
    case None => if key in INHERITED_NAMES then Inherited else Undefined
  }

  /** The lookup as written: only an undefined result is rejected. */
  function GetDeliveryStrategyAsWritten(speed: string): (r: Result<Indexed, Failure>)
    ensures r.Err? <==> IndexRegistry(speed).Undefined?
    ensures r.Ok? ==> r.value == IndexRegistry(speed)
  {
    match IndexRegistry(speed)
    case Undefined => Err(UnsupportedSpeed(speed, SUPPORTED_SPEEDS))
    case other => Ok(other)
  }

  /** An inherited name such as "constructor" or "__proto__" gets past the check
      and yields no strategy, where the registry lookup rejects it as unsupported. */
  lemma InheritedNamePassesCheck()
    ensures GetDeliveryStrategyAsWritten("constructor") == Ok(Inherited)
    ensures GetDeliveryStrategy("constructor") == Err(UnsupportedSpeed("constructor", ["standard", "express"]))
    ensures GetDeliveryStrategyAsWritten("__proto__") == Ok(Inherited)
  {
    SupportedSpeedsValue();
    assert INHERITED_NAMES[0] == "constructor";
    assert INHERITED_NAMES[7] == "__proto__";
  }

  /** Away from inherited names the lookup as written and the registry lookup agree. */
  lemma AsWrittenAgreesElsewhere(speed: string)
    requires speed !in INHERITED_NAMES
    ensures GetDeliveryStrategyAsWritten(speed).Ok? <==> GetDeliveryStrategy(speed).Ok?
    ensures GetDeliveryStrategy(speed).Ok? ==>
      GetDeliveryStrategyAsWritten(speed) == Ok(Own(GetDeliveryStrategy(speed).value))
    ensures GetDeliveryStrategy(speed).Err? ==>
      GetDeliveryStrategyAsWritten(speed).error == GetDeliveryStrategy(speed).error
  {
  }
}
