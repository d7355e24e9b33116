/**
 * The transitions of DistanceCalculator.tsx on the session's transport
 * record: the automatic/manual toggle, the manual distance input, the effect
 * that keeps an automatic distance equal to the origin's round trip, and the
 * effect that recalculates the emission when the distance changes.
 *
 * Each transition is first defined on a transport record and the round trip
 * from the current origin, where its properties are proved; the methods on
 * the session apply it through updateTransport's merge. The component
 * renders only a loading card while the origin or the transport is missing,
 * so none of its handlers exist then: every method leaves the session
 * unchanged in that case.
 */
module DistanceCalculator {
  import opened Wrappers
  import CalculationUtils
  import opened AppContext

  /** Both records the component needs are present. */
  predicate Mounted(origin: Option<CalculationUtils.Origin>, transport: Option<Transport>)
  {
    origin.Some? && transport.Some?
  }

  /** The round trip from an origin, as a transport distance in km. */
  function RoundTripKm(origin: CalculationUtils.Origin): (km: real)
    ensures km > 0.0
    ensures km == CalculationUtils.CalculateRoundTripDistance(origin) as real
  {
    CalculationUtils.CalculateRoundTripDistance(origin) as real
  }

  /** What automatic mode promises: the distance shown is the round trip. */
  predicate InStep(t: Transport, roundTrip: real)
  {
    t.isAutomaticCalc ==> t.distance == roundTrip
  }

  /** The vehicle, fuel and passengers of t are those of u. */
  predicate SameTrip(t: Transport, u: Transport)
  {
    t.vehicle == u.vehicle && t.fuel == u.fuel && t.passengers == u.passengers
  }

  // ---------------------------------------------------------------------------
  // The transitions on a transport record
  // ---------------------------------------------------------------------------

  /**
   * The toggle: the mode flips; switching off keeps the distance, switching
   * on brings the distance in step with the round trip.
   */
  function Toggled(t: Transport, roundTrip: real): (r: Transport)
    ensures r.isAutomaticCalc == !t.isAutomaticCalc
    ensures SameTrip(r, t)
    ensures t.isAutomaticCalc ==> r.distance == t.distance
    ensures InStep(r, roundTrip)
  {
    if t.isAutomaticCalc then t.(isAutomaticCalc := false)
    else t.(isAutomaticCalc := true, distance := roundTrip)
  }

  /**
   * `parseFloat(value) || 0`, with the parse given as None when it fails
   * (NaN): a failed parse and a parsed 0 both give 0, anything else is kept.
   */
  function ManualDistance(parsed: Option<real>): (distance: real)
    ensures parsed.Some? ==> distance == parsed.value
    ensures parsed.None? ==> distance == 0.0
  {
    if parsed.Some? && parsed.value != 0.0 then parsed.value else 0.0
  }

  /** A manual edit: the distance becomes the input's value, nothing else changes. */
  function ManuallyEdited(t: Transport, parsed: Option<real>): (r: Transport)
    ensures r.distance == ManualDistance(parsed)
    ensures r.isAutomaticCalc == t.isAutomaticCalc
    ensures SameTrip(r, t)
  {
    t.(distance := ManualDistance(parsed))
  }

  /** The origin effect: in automatic mode the distance is reset to the round trip. */
  function Synced(t: Transport, roundTrip: real): (r: Transport)
    ensures InStep(r, roundTrip)
    ensures r.isAutomaticCalc == t.isAutomaticCalc
    ensures SameTrip(r, t)
    ensures !t.isAutomaticCalc ==> r == t
  {
    if t.isAutomaticCalc then t.(distance := roundTrip) else t
  }

  // ---------------------------------------------------------------------------
  // Properties of the transitions
  // ---------------------------------------------------------------------------

  /**
   * The effect does not feed itself: once the distance is in step, running
   * it again changes nothing.
   */
  lemma SyncedIsIdle(t: Transport, roundTrip: real)
    requires InStep(t, roundTrip)
    ensures Synced(t, roundTrip) == t
  {
  }

  lemma SyncedIdempotent(t: Transport, roundTrip: real)
    ensures Synced(Synced(t, roundTrip), roundTrip) == Synced(t, roundTrip)
  {
    SyncedIsIdle(Synced(t, roundTrip), roundTrip);
  }

  /**
   * Toggling twice from automatic mode restores the record; from manual mode
   * it leaves the round trip in place of the typed distance.
   */
  lemma ToggleTwice(t: Transport, roundTrip: real)
    requires InStep(t, roundTrip)
    ensures t.isAutomaticCalc ==> Toggled(Toggled(t, roundTrip), roundTrip) == t
    ensures !t.isAutomaticCalc ==> Toggled(Toggled(t, roundTrip), roundTrip) == t.(distance := roundTrip)
  {
  }

  /**
   * A typed distance never reaches automatic mode: switching on after any
   * edit gives the same record as switching on without it.
   */
  lemma ToggleOnDiscardsEdit(t: Transport, parsed: Option<real>, roundTrip: real)
    requires !t.isAutomaticCalc
    ensures Toggled(ManuallyEdited(t, parsed), roundTrip) == Toggled(t, roundTrip)
  {
  }

  /** Switching to automatic mode makes the distance, and so the emission, that of the round trip. */
  lemma ToggleOnEmission(t: Transport, roundTrip: real)
    requires !t.isAutomaticCalc
    ensures TotalEmission(Toggled(t, roundTrip))
            == Emission(roundTrip, EmissionFactor(t.vehicle, t.fuel), t.passengers)
  {
  }

  // ---------------------------------------------------------------------------
  // The patches the handlers pass to updateTransport
  // ---------------------------------------------------------------------------

  /** Switching on: the patch sets the mode and the round trip. */
  lemma ToggleOnByMerge(t: Transport, roundTrip: real)
    requires !t.isAutomaticCalc
    ensures MergeTransport(t, NoChange.(isAutomaticCalc := Some(true), distance := Some(roundTrip)))
            == Toggled(t, roundTrip)
  {
  }

  /** Switching off: the patch sets the mode alone. */
  lemma ToggleOffByMerge(t: Transport, roundTrip: real)
    requires t.isAutomaticCalc
    ensures MergeTransport(t, NoChange.(isAutomaticCalc := Some(false))) == Toggled(t, roundTrip)
  {
  }

  /** The manual input's patch, merged into the record, gives the edited record. */
  lemma EditByMerge(t: Transport, parsed: Option<real>)
    ensures MergeTransport(t, NoChange.(distance := Some(ManualDistance(parsed)))) == ManuallyEdited(t, parsed)
  {
  }

  /** The effect's patch, merged into an automatic record, gives the synced record. */
  lemma SyncByMerge(t: Transport, roundTrip: real)
    requires t.isAutomaticCalc
    ensures MergeTransport(t, NoChange.(distance := Some(roundTrip))) == Synced(t, roundTrip)
  {
  }

  // ---------------------------------------------------------------------------
  // The handlers and effects on the session
  // ---------------------------------------------------------------------------

  /** toggleAutomaticCalc. */
  method ToggleAutomaticCalc(session: Session)
    modifies session`transport
    ensures session.transport ==
              if Mounted(session.origin, old(session.transport))
              then Some(Toggled(old(session.transport).value, RoundTripKm(session.origin.value)))
              else old(session.transport)
  {
    if !Mounted(session.origin, session.transport) {
      return;
    }
    var origin, t := session.origin.value, session.transport.value;
    var roundTripDistance := RoundTripKm(origin);
    if !t.isAutomaticCalc {
      ToggleOnByMerge(t, roundTripDistance);
      session.UpdateTransport(NoChange.(isAutomaticCalc := Some(true), distance := Some(roundTripDistance)));
    } else {
      ToggleOffByMerge(t, roundTripDistance);
      session.UpdateTransport(NoChange.(isAutomaticCalc := Some(false)));
    }
  }

  /** handleDistanceChange, with the parse of the input's text given. */
  method HandleDistanceChange(session: Session, parsed: Option<real>)
    modifies session`transport
    ensures session.transport ==
              if Mounted(session.origin, old(session.transport))
              then Some(ManuallyEdited(old(session.transport).value, parsed))
              else old(session.transport)
  {
    if !Mounted(session.origin, session.transport) {
      return;
    }
    var distance := ManualDistance(parsed);
    EditByMerge(session.transport.value, parsed);
    session.UpdateTransport(NoChange.(distance := Some(distance)));
  }

  /** The effect on the origin and the mode. */
  method SyncDistanceWithOrigin(session: Session)
    modifies session`transport
    ensures session.transport ==
              if Mounted(session.origin, old(session.transport))
              then Some(Synced(old(session.transport).value, RoundTripKm(session.origin.value)))
              else old(session.transport)
  {
    if !Mounted(session.origin, session.transport) {
      return;
    }
    var roundTripDistance := RoundTripKm(session.origin.value);
    if session.transport.value.isAutomaticCalc {
      SyncByMerge(session.transport.value, roundTripDistance);
      session.UpdateTransport(NoChange.(distance := Some(roundTripDistance)));
    } else {
      SyncedIsIdle(session.transport.value, roundTripDistance);
    }
  }

  /** A new origin, followed by the effect it triggers. */
  method ChangeOrigin(session: Session, origin: CalculationUtils.Origin)
    modifies session`origin, session`transport
    ensures session.origin == Some(origin)
    ensures session.transport ==
              if old(session.transport).Some?
              then Some(Synced(old(session.transport).value, RoundTripKm(origin)))
              else old(session.transport)
  {
    session.SetOrigin(origin);
    SyncDistanceWithOrigin(session);
  }

  /** The effect on the distance: recalculate while both records are present. */
  method RecalculateOnDistanceChange(session: Session)
    modifies session`calculation
    ensures session.calculation ==
              if Mounted(session.origin, session.transport)
              then Some(CalculationFor(session.transport.value))
              else old(session.calculation)
  {
    if Mounted(session.origin, session.transport) {
      session.CalculateEmissionAndCompensation();
    }
  }
}
