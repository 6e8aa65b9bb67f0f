/** Transport tier selection and the base charge.

    A transport table is an ordered list of tiers; a distance selects the first
    tier whose half-open interval [minDistance, maxDistance) contains it, and the
    base charge is that tier's rate times distance times weight. */
module Transport {
  import opened Common
  import opened Types

  /** The default table, in the order the source lists it. */
  const TRANSPORT_MODES: seq<TransportConfig> := [
    TransportConfig(Aeroplane, 500.0, Infinity, 1.0),
    TransportConfig(Truck, 100.0, Finite(500.0), 2.0),
    TransportConfig(MiniVan, 0.0, Finite(100.0), 3.0)
  ]

  /** The lower bound is inclusive and the upper bound exclusive. */
  predicate Matches(m: TransportConfig, distanceKm: real) {
    m.minDistance <= distanceKm && m.maxDistance.Exceeds(distanceKm)
  }

  /** The position of the first tier containing the distance, or |modes| if none does. */
  function FirstMatch(modes: seq<TransportConfig>, distanceKm: real): (k: nat)
    ensures k <= |modes|
    ensures k < |modes| ==> Matches(modes[k], distanceKm)
    ensures forall j :: 0 <= j < k ==> !Matches(modes[j], distanceKm)
  {
    if modes == [] then 0
    else if Matches(modes[0], distanceKm) then 0
    else 1 + FirstMatch(modes[1..], distanceKm)
  }

  /** A transport strategy over a fixed table. */
  datatype TransportStrategy = TransportStrategy(modes: seq<TransportConfig>)
  {
    /** The first tier containing the distance; an error when no tier does. */
    function GetTransportMode(distanceKm: real): (r: Result<TransportConfig, Failure>)
      ensures r.Err? <==> forall j :: 0 <= j < |modes| ==> !Matches(modes[j], distanceKm)
      ensures r.Ok? ==> r.value in modes && Matches(r.value, distanceKm)
      ensures r.Ok? ==> r.value == modes[FirstMatch(modes, distanceKm)]
      ensures r.Err? ==> r.error == NoTransportMode(distanceKm)
    {
      var k := FirstMatch(modes, distanceKm);
      if k < |modes| then Ok(modes[k]) else Err(NoTransportMode(distanceKm))
    }

    /** rate × distance × weight, failing exactly when tier selection fails. */
    function CalculateBaseCharge(distanceKm: real, weightKg: real): (r: Result<real, Failure>)
      ensures r.Err? <==> GetTransportMode(distanceKm).Err?
      ensures r.Err? ==> r.error == NoTransportMode(distanceKm)
      ensures r.Ok? ==> r.value == GetTransportMode(distanceKm).value.ratePerKmPerKg * distanceKm * weightKg
    {
      match GetTransportMode(distanceKm)
      case Ok(mode) => Ok(mode.ratePerKmPerKg * distanceKm * weightKg)
      case Err(e) => Err(e)
    }
  }

  /** The strategy the services use. */
  const transportStrategy := TransportStrategy(TRANSPORT_MODES)

  /** The tier the default table is meant to assign, written independently of it. */
  function DefaultTier(distanceKm: real): TransportConfig
    requires distanceKm >= 0.0
  {
    if distanceKm < 100.0 then TransportConfig(MiniVan, 0.0, Finite(100.0), 3.0)
    else if distanceKm < 500.0 then TransportConfig(Truck, 100.0, Finite(500.0), 2.0)
    else TransportConfig(Aeroplane, 500.0, Infinity, 1.0)
  }

  /** The default tiers do not overlap: at most one contains any distance. */
  lemma DefaultTiersDisjoint(distanceKm: real, i: int, j: int)
    requires 0 <= i < |TRANSPORT_MODES| && 0 <= j < |TRANSPORT_MODES|
    requires Matches(TRANSPORT_MODES[i], distanceKm) && Matches(TRANSPORT_MODES[j], distanceKm)
    ensures i == j
  {
  }

  /** The default tiers cover [0, ∞) and nothing below it: selection succeeds exactly
      for non-negative distances, and picks the tier `DefaultTier` names. */
  lemma DefaultTableSelection(distanceKm: real)
    ensures transportStrategy.GetTransportMode(distanceKm).Ok? <==> distanceKm >= 0.0
    ensures distanceKm >= 0.0 ==> transportStrategy.GetTransportMode(distanceKm) == Ok(DefaultTier(distanceKm))
    ensures distanceKm < 0.0 ==> transportStrategy.GetTransportMode(distanceKm) == Err(NoTransportMode(distanceKm))
  {
    var ms := TRANSPORT_MODES;
    var d := distanceKm;
    assert ms[1..][1..][1..] == [];
    if d >= 500.0 {
      assert FirstMatch(ms, d) == 0;
    } else if d >= 100.0 {
      assert FirstMatch(ms[1..], d) == 0;
      assert FirstMatch(ms, d) == 1;
    } else if d >= 0.0 {
      assert FirstMatch(ms[1..][1..], d) == 0;
      assert FirstMatch(ms[1..], d) == 1;
      assert FirstMatch(ms, d) == 2;
    } else {
      assert FirstMatch(ms[1..][1..][1..], d) == 0;
      assert FirstMatch(ms[1..][1..], d) == 1;
      assert FirstMatch(ms[1..], d) == 2;
      assert FirstMatch(ms, d) == 3;
    }
  }

  /** With the default table the base charge is the rate of the assigned tier
      times distance times weight, and it fails only for negative distances. */
  lemma DefaultBaseCharge(distanceKm: real, weightKg: real)
    ensures transportStrategy.CalculateBaseCharge(distanceKm, weightKg).Ok? <==> distanceKm >= 0.0
    ensures distanceKm >= 0.0 ==>
      transportStrategy.CalculateBaseCharge(distanceKm, weightKg).value
        == DefaultTier(distanceKm).ratePerKmPerKg * distanceKm * weightKg
    ensures distanceKm < 0.0 ==>
      transportStrategy.CalculateBaseCharge(distanceKm, weightKg) == Err(NoTransportMode(distanceKm))
  {
    DefaultTableSelection(distanceKm);
  }

  /** Boundaries and rates of the default table. */
  lemma DefaultBoundaries()
    ensures transportStrategy.GetTransportMode(0.0).value.mode == MiniVan
    ensures transportStrategy.GetTransportMode(99.99).value.mode == MiniVan
    ensures transportStrategy.GetTransportMode(100.0).value.mode == Truck
    ensures transportStrategy.GetTransportMode(499.99).value.mode == Truck
    ensures transportStrategy.GetTransportMode(500.0).value.mode == Aeroplane
    ensures transportStrategy.GetTransportMode(50.0).value.ratePerKmPerKg == 3.0
    ensures transportStrategy.GetTransportMode(250.0).value.ratePerKmPerKg == 2.0
    ensures transportStrategy.GetTransportMode(800.0).value.ratePerKmPerKg == 1.0
  {
    DefaultTableSelection(0.0);
    DefaultTableSelection(99.99);
    DefaultTableSelection(100.0);
    DefaultTableSelection(499.99);
    DefaultTableSelection(500.0);
    DefaultTableSelection(50.0);
    DefaultTableSelection(250.0);
    DefaultTableSelection(800.0);
  }

  /** Worked base charges of the default table. */
  lemma DefaultBaseChargeValues()
    ensures transportStrategy.CalculateBaseCharge(50.0, 2.0) == Ok(300.0)
    ensures transportStrategy.CalculateBaseCharge(200.0, 5.0) == Ok(2000.0)
    ensures transportStrategy.CalculateBaseCharge(800.0, 10.0) == Ok(8000.0)
    ensures transportStrategy.CalculateBaseCharge(50.0, 0.5) == Ok(75.0)
  {
    DefaultBaseCharge(50.0, 2.0);
    DefaultBaseCharge(200.0, 5.0);
    DefaultBaseCharge(800.0, 10.0);
    DefaultBaseCharge(50.0, 0.5);
  }

  /** The base charge is not monotone in distance: crossing a tier boundary
      lowers it, since the rate drops. */
  lemma ChargeDropsAtBoundary(weightKg: real)
    requires weightKg > 0.0
    ensures transportStrategy.CalculateBaseCharge(99.0, weightKg).value
          > transportStrategy.CalculateBaseCharge(100.0, weightKg).value
  {
    DefaultBaseCharge(99.0, weightKg);
    DefaultBaseCharge(100.0, weightKg);
  }

  /** A custom table with a gap between its tiers makes selection fail inside the gap. */
  lemma GapFails(distanceKm: real)
    requires 100.0 <= distanceKm < 500.0
    ensures TransportStrategy([TransportConfig(MiniVan, 0.0, Finite(100.0), 3.0),
                               TransportConfig(Aeroplane, 500.0, Infinity, 1.0)])
              .GetTransportMode(distanceKm) == Err(NoTransportMode(distanceKm))
  {
    var modes := [TransportConfig(MiniVan, 0.0, Finite(100.0), 3.0), TransportConfig(Aeroplane, 500.0, Infinity, 1.0)];
    assert modes[1..][1..] == [];
  }
}
