/**
 * The session state of AppContext.tsx: the Transport and Calculation records,
 * the partial update of the transport record, and the emission calculation
 * that writes the Calculation record (emission factor table, passenger
 * surcharge and the inline copy of the compensation price).
 */
module AppContext {
  import opened Wrappers
  import CalculationUtils

  /**
   * A transport record. `vehicle` and `fuel` are strings, as the tables that
   * read them are keyed by strings; `passengers` is None when the record was
   * created without that field.
   */
  datatype Transport = Transport(
    vehicle: string,
    fuel: string,
    distance: real,
    isAutomaticCalc: bool,
    passengers: Option<int>)

  /** The derived figures: kg CO2 per km, kg CO2 for the trip, and BRL to pay. */
  datatype Calculation = Calculation(emissionFactor: real, totalEmission: real, compensationValue: real)

  /** Partial<Transport>: Some for each field the caller overwrites. */
  datatype PartialTransport = PartialTransport(
    vehicle: Option<string>,
    fuel: Option<string>,
    distance: Option<real>,
    isAutomaticCalc: Option<bool>,
    passengers: Option<int>)

  /** The empty partial record `{}`. */
  const NoChange: PartialTransport := PartialTransport(None, None, None, None, None)

  /** The record updateTransport starts from when there is no transport yet. */
  const DefaultTransport: Transport := Transport("Carro", "Gasolina", 120.0, true, Some(0))

  // ---------------------------------------------------------------------------
  // updateTransport's record merge `{ ...base, ...patch }`
  // ---------------------------------------------------------------------------

  /** Every field the patch gives has the patch's value in t. */
  predicate Overwrites(t: Transport, patch: PartialTransport)
  {
    && (patch.vehicle.Some? ==> t.vehicle == patch.vehicle.value)
    && (patch.fuel.Some? ==> t.fuel == patch.fuel.value)
    && (patch.distance.Some? ==> t.distance == patch.distance.value)
    && (patch.isAutomaticCalc.Some? ==> t.isAutomaticCalc == patch.isAutomaticCalc.value)
    && (patch.passengers.Some? ==> t.passengers == patch.passengers)
  }

  /** Every field the patch leaves out keeps base's value in t. */
  predicate KeepsOthers(t: Transport, base: Transport, patch: PartialTransport)
  {
    && (patch.vehicle.None? ==> t.vehicle == base.vehicle)
    && (patch.fuel.None? ==> t.fuel == base.fuel)
    && (patch.distance.None? ==> t.distance == base.distance)
    && (patch.isAutomaticCalc.None? ==> t.isAutomaticCalc == base.isAutomaticCalc)
    && (patch.passengers.None? ==> t.passengers == base.passengers)
  }

  /** Object spread: the patch's fields over base's. */
  function MergeTransport(base: Transport, patch: PartialTransport): (t: Transport)
    ensures Overwrites(t, patch)
    ensures KeepsOthers(t, base, patch)
  {
    Transport(
      patch.vehicle.GetOr(base.vehicle),
      patch.fuel.GetOr(base.fuel),
      patch.distance.GetOr(base.distance),
      patch.isAutomaticCalc.GetOr(base.isAutomaticCalc),
      if patch.passengers.Some? then patch.passengers else base.passengers)
  }

  /** The two properties of MergeTransport determine its result. */
  lemma MergeDetermined(t: Transport, base: Transport, patch: PartialTransport)
    requires Overwrites(t, patch) && KeepsOthers(t, base, patch)
    ensures t == MergeTransport(base, patch)
  {
  }

  /** Spreading `{}` changes nothing. */
  lemma MergeNoChange(base: Transport)
    ensures MergeTransport(base, NoChange) == base
  {
  }

  /** Applying the same patch twice is the same as applying it once. */
  lemma MergeIdempotent(base: Transport, patch: PartialTransport)
    ensures MergeTransport(MergeTransport(base, patch), patch) == MergeTransport(base, patch)
  {
  }

  /** `{ ...p, ...q }` on partial records: q's fields win. */
  function CombinePatches(p: PartialTransport, q: PartialTransport): (r: PartialTransport)
    ensures forall base :: MergeTransport(base, r) == MergeTransport(MergeTransport(base, p), q)
  {
    PartialTransport(
      if q.vehicle.Some? then q.vehicle else p.vehicle,
      if q.fuel.Some? then q.fuel else p.fuel,
      if q.distance.Some? then q.distance else p.distance,
      if q.isAutomaticCalc.Some? then q.isAutomaticCalc else p.isAutomaticCalc,
      if q.passengers.Some? then q.passengers else p.passengers)
  }

  /** Two updates in a row are one update with the combined patch. */
  lemma MergeTwice(base: Transport, p: PartialTransport, q: PartialTransport)
    ensures MergeTransport(MergeTransport(base, p), q) == MergeTransport(base, CombinePatches(p, q))
  {
  }

  // ---------------------------------------------------------------------------
  // Emission factors (kg CO2 per km) by vehicle, then fuel
  // ---------------------------------------------------------------------------

  /** The vehicle and fuel names the Transport type declares. */
  const Vehicles: set<string> := {"Moto", "Carro", "Van", "Ônibus"}
  const Fuels: set<string> := {"Gasolina", "Álcool", "Diesel", "Flex", "Elétrico", "GNV"}

  const MotoFactors: map<string, real> :=
    map["Gasolina" := 0.07, "Álcool" := 0.05, "Flex" := 0.06, "Elétrico" := 0.01, "Diesel" := 0.08, "GNV" := 0.06]
  const CarroFactors: map<string, real> :=
    map["Gasolina" := 0.12, "Álcool" := 0.08, "Flex" := 0.10, "Elétrico" := 0.02, "Diesel" := 0.14, "GNV" := 0.10]
  const VanFactors: map<string, real> :=
    map["Gasolina" := 0.18, "Álcool" := 0.14, "Flex" := 0.16, "Elétrico" := 0.03, "Diesel" := 0.20, "GNV" := 0.15]
  const OnibusFactors: map<string, real> :=
    map["Diesel" := 0.25, "Elétrico" := 0.05, "GNV" := 0.18, "Gasolina" := 0.28, "Álcool" := 0.22, "Flex" := 0.24]

  /** The two-level table: vehicle -> fuel -> kg CO2 per km. */
  const EmissionFactors: map<string, map<string, real>> :=
    map["Moto" := MotoFactors, "Carro" := CarroFactors, "Van" := VanFactors, "Ônibus" := OnibusFactors]

  /** The factor used when the table has no (non-zero) entry: an average gasoline car. */
  const DefaultEmissionFactor: real := 0.12

  /** A fuel table with exactly the declared fuels, all with a positive factor. */
  ghost predicate CompleteFuelTable(table: map<string, real>)
  {
    && table.Keys == Fuels
    && forall fuel :: fuel in table ==> table[fuel] > 0.0
  }

  lemma MotoComplete() ensures CompleteFuelTable(MotoFactors) {}
  lemma CarroComplete() ensures CompleteFuelTable(CarroFactors) {}
  lemma VanComplete() ensures CompleteFuelTable(VanFactors) {}
  lemma OnibusComplete() ensures CompleteFuelTable(OnibusFactors) {}

  /** Every declared (vehicle, fuel) pair has a positive cell, and there are no other cells. */
  lemma EmissionFactorsComplete()
    ensures EmissionFactors.Keys == Vehicles
    ensures forall vehicle :: vehicle in EmissionFactors ==> CompleteFuelTable(EmissionFactors[vehicle])
  {
    MotoComplete();
    CarroComplete();
    VanComplete();
    OnibusComplete();
    forall vehicle | vehicle in EmissionFactors
      ensures CompleteFuelTable(EmissionFactors[vehicle])
    {
      if vehicle == "Moto" {
      } else if vehicle == "Carro" {
      } else if vehicle == "Van" {
      } else {
      }
    }
  }

  /** `emissionFactors[vehicle]?.[fuel] || 0.12`. */
  function EmissionFactor(vehicle: string, fuel: string): (factor: real)
    ensures factor > 0.0
  {
    EmissionFactorsComplete();
    if vehicle in EmissionFactors && fuel in EmissionFactors[vehicle] && EmissionFactors[vehicle][fuel] != 0.0
    then EmissionFactors[vehicle][fuel]
    else DefaultEmissionFactor
  }

  /** A declared pair reads its own cell of the table. */
  lemma DeclaredPairFactor(vehicle: string, fuel: string)
    requires vehicle in Vehicles && fuel in Fuels
    ensures vehicle in EmissionFactors && fuel in EmissionFactors[vehicle]
    ensures EmissionFactor(vehicle, fuel) == EmissionFactors[vehicle][fuel]
  {
    EmissionFactorsComplete();
  }

  /** Only a vehicle or fuel outside the declared names falls back to 0.12. */
  lemma UndeclaredPairFactor(vehicle: string, fuel: string)
    requires vehicle !in Vehicles || fuel !in Fuels
    ensures EmissionFactor(vehicle, fuel) == DefaultEmissionFactor
  {
    EmissionFactorsComplete();
  }

  lemma CarroGasolinaFactor()
    ensures EmissionFactor("Carro", "Gasolina") == 0.12
  {
    DeclaredPairFactor("Carro", "Gasolina");
  }

  lemma OnibusDieselFactor()
    ensures EmissionFactor("Ônibus", "Diesel") == 0.25
  {
    DeclaredPairFactor("Ônibus", "Diesel");
  }

  // ---------------------------------------------------------------------------
  // Emission estimate
  // ---------------------------------------------------------------------------

  /** Each passenger adds 15% to the vehicle's emission. */
  const PassengerSurcharge: real := 0.15

  /**
   * `passengers ? 1 + passengers * 0.15 : 1`: the truthiness test only
   * matters for a missing count, since a count of 0 gives 1 either way.
   */
  function PassengerFactor(passengers: Option<int>): (m: real)
    ensures passengers.Some? ==> m == 1.0 + (passengers.value as real) * PassengerSurcharge
    ensures passengers.None? ==> m == 1.0
  {
    if passengers.Some? && passengers.value != 0 then 1.0 + (passengers.value as real) * PassengerSurcharge
    else 1.0
  }

  /** A passenger count that is missing or non-negative. */
  predicate ValidPassengers(passengers: Option<int>)
  {
    passengers.Some? ==> passengers.value >= 0
  }

  /** The count a passenger field stands for: a missing field counts as none. */
  function PassengerCount(passengers: Option<int>): int
  {
    passengers.GetOr(0)
  }

  /**
   * kg CO2 for a trip of `distance` km at `factor` kg/km: the vehicle's
   * emission, plus 15% of it for each passenger, a missing count counting as none.
   */
  function Emission(distance: real, factor: real, passengers: Option<int>): (e: real)
    ensures e == distance * factor * (1.0 + (PassengerCount(passengers) as real) * PassengerSurcharge)
  {
    var vehicleEmission := distance * factor;
    var passengerFactor := PassengerFactor(passengers);
    assert passengerFactor == 1.0 + (PassengerCount(passengers) as real) * PassengerSurcharge;
    vehicleEmission * passengerFactor
  }

  /**
   * The emission of a transport, at the factor looked up for its vehicle and
   * fuel: never negative for a real trip, and without passengers just the
   * distance times that factor.
   */
  function TotalEmission(t: Transport): (e: real)
    ensures t.distance >= 0.0 && ValidPassengers(t.passengers) ==> e >= 0.0
    ensures PassengerCount(t.passengers) == 0 ==> e == t.distance * EmissionFactor(t.vehicle, t.fuel)
  {
    var factor := EmissionFactor(t.vehicle, t.fuel);
    EmissionFacts(t.distance, factor, t.passengers);
    Emission(t.distance, factor, t.passengers)
  }

  /** NoPassengersNoSurcharge and EmissionNonNegative for a positive factor, as implications. */
  lemma EmissionFacts(distance: real, factor: real, passengers: Option<int>)
    requires factor > 0.0
    ensures distance >= 0.0 && ValidPassengers(passengers) ==> Emission(distance, factor, passengers) >= 0.0
    ensures PassengerCount(passengers) == 0 ==> Emission(distance, factor, passengers) == distance * factor
  {
    if distance >= 0.0 && ValidPassengers(passengers) {
      EmissionNonNegative(distance, factor, passengers);
    }
    if PassengerCount(passengers) == 0 {
      NoPassengersNoSurcharge(distance, factor, passengers);
    }
  }

  /** With no passengers, or the field missing, there is no surcharge. */
  lemma NoPassengersNoSurcharge(distance: real, factor: real, passengers: Option<int>)
    requires PassengerCount(passengers) == 0
    ensures Emission(distance, factor, passengers) == distance * factor
  {
  }

  /** A non-negative distance, factor and passenger count never give a negative emission. */
  lemma EmissionNonNegative(distance: real, factor: real, passengers: Option<int>)
    requires distance >= 0.0 && factor >= 0.0 && ValidPassengers(passengers)
    ensures Emission(distance, factor, passengers) >= 0.0
  {
    assert PassengerFactor(passengers) >= 1.0;
    assert distance * factor >= 0.0;
  }

  /** A longer trip never emits less. */
  lemma EmissionMonotoneInDistance(d1: real, d2: real, factor: real, passengers: Option<int>)
    requires 0.0 <= d1 <= d2 && factor >= 0.0 && ValidPassengers(passengers)
    ensures Emission(d1, factor, passengers) <= Emission(d2, factor, passengers)
  {
    var m := PassengerFactor(passengers);
    assert m >= 1.0;
    assert factor * m >= 0.0;
    assert d1 * (factor * m) <= d2 * (factor * m);
  }

  /** More passengers never emit less. */
  lemma EmissionMonotoneInPassengers(distance: real, factor: real, p1: Option<int>, p2: Option<int>)
    requires distance >= 0.0 && factor >= 0.0 && ValidPassengers(p1)
    requires PassengerCount(p1) <= PassengerCount(p2)
    ensures Emission(distance, factor, p1) <= Emission(distance, factor, p2)
  {
    var base := distance * factor;
    assert base >= 0.0;
    assert PassengerFactor(p1) == 1.0 + (PassengerCount(p1) as real) * PassengerSurcharge;
    assert PassengerFactor(p2) == 1.0 + (PassengerCount(p2) as real) * PassengerSurcharge;
    assert PassengerFactor(p1) <= PassengerFactor(p2);
    assert base * PassengerFactor(p1) <= base * PassengerFactor(p2);
  }

  /** The Calculation record calculateEmissionAndCompensation stores for a transport. */
  function CalculationFor(t: Transport): (c: Calculation)
    ensures c.emissionFactor > 0.0
    ensures c.compensationValue >= CalculationUtils.MinimumCompensation
  {
    var totalEmission := TotalEmission(t);
    Calculation(EmissionFactor(t.vehicle, t.fuel), totalEmission, CalculationUtils.CalculateCompensationValue(totalEmission))
  }

  // ---------------------------------------------------------------------------
  // The provider's state
  // ---------------------------------------------------------------------------

  /** The part of the provider's state the calculator reads and writes. */
  class Session {
    var origin: Option<CalculationUtils.Origin>
    var transport: Option<Transport>
    var calculation: Option<Calculation>

    /** The provider starts with no origin, transport or calculation. */
    constructor ()
      ensures origin == None && transport == None && calculation == None
    {
      origin := None;
      transport := None;
      calculation := None;
    }

    /** setOrigin. */
    method SetOrigin(o: CalculationUtils.Origin)
      modifies this`origin
      ensures origin == Some(o)
    {
      origin := Some(o);
    }

    /** setTransport. */
    method SetTransport(t: Transport)
      modifies this`transport
      ensures transport == Some(t)
    {
      transport := Some(t);
    }

    /** updateTransport: spread the patch over the transport, or over the defaults when there is none. */
    method UpdateTransport(patch: PartialTransport)
      modifies this`transport
      ensures old(transport).Some? ==> transport == Some(MergeTransport(old(transport).value, patch))
      ensures old(transport).None? ==> transport == Some(MergeTransport(DefaultTransport, patch))
      ensures origin == old(origin)
    {
      if transport.Some? {
        transport := Some(MergeTransport(transport.value, patch));
      } else {
        transport := Some(MergeTransport(DefaultTransport, patch));
      }
    }

    /**
     * calculateEmissionAndCompensation: without a transport nothing happens;
     * otherwise the stored record holds the factor used, the emission, and
     * the compensation computed inline, which agrees with calculateCompensationValue.
     */
    method CalculateEmissionAndCompensation()
      modifies this`calculation
      ensures old(transport).None? ==> calculation == old(calculation)
      ensures old(transport).Some? ==> calculation == Some(CalculationFor(old(transport).value))
    {
      if transport.None? {
        return;
      }
      var t := transport.value;
      var emissionFactor := EmissionFactor(t.vehicle, t.fuel);
      var totalEmission := Emission(t.distance, emissionFactor, t.passengers);
      var emissionTons := totalEmission / 1000.0;
      var pricePerTon := 40.0;
      var rawValue := emissionTons * pricePerTon;
      var compensationValue := if rawValue >= 9.84 then rawValue else 9.84;
      calculation := Some(Calculation(emissionFactor, totalEmission, compensationValue));
    }
  }

  // ---------------------------------------------------------------------------
  // Worked trips
  // ---------------------------------------------------------------------------

  /** São Paulo by gasoline car: 640 km x 0.12 = 76.8 kg, charged the minimum. */
  lemma SaoPauloByCar()
    ensures var t := Transport("Carro", "Gasolina", 640.0, true, Some(0));
            CalculationFor(t) == Calculation(0.12, 76.8, 9.84)
  {
    CarroGasolinaFactor();
  }

  /** The same trip with four passengers: surcharge 1.6, 122.88 kg, still the minimum. */
  lemma SaoPauloByCarWithFourPassengers()
    ensures var t := Transport("Carro", "Gasolina", 640.0, true, Some(4));
            CalculationFor(t) == Calculation(0.12, 122.88, 9.84)
  {
    CarroGasolinaFactor();
  }

  /** 2000 km by diesel bus: 500 kg, charged 20, written "R$ 20,00". */
  lemma DieselBusTrip()
    ensures var t := Transport("Ônibus", "Diesel", 2000.0, true, Some(0));
            && CalculationFor(t) == Calculation(0.25, 500.0, 20.0)
            && CalculationUtils.FormatCurrency(CalculationFor(t).compensationValue) == "R$ 20,00"
  {
    OnibusDieselFactor();
    CalculationUtils.FormatTwenty();
  }
}
