/**
 * The date rules of the handlers. Comparisons follow dayjs's `isBefore` and
 * `isAfter`, which are strict, so a date equal to a boundary passes.
 */
module Rules {
  import opened Common

  const StartsInPast := "data inicial menor que a data atual"
  const EndsBeforeStart := "data final menor que a data inicial"
  const ActivityBeforeTrip := "Activity date can not be before trips start date"
  const ActivityAfterTrip := "Activity date can not be after trips ends date"

  /** `dayjs(a).isBefore(b)` */
  predicate IsBefore(a: Timestamp, b: Timestamp)
  {
    a < b
  }

  /** `dayjs(a).isAfter(b)` */
  predicate IsAfter(a: Timestamp, b: Timestamp)
  {
    a > b
  }

  /**
   * The two checks create-trip and update-trip make, in their order: the
   * start must not lie before `now`, then the end must not lie before the start.
   */
  function TripDatesError(startsAt: Timestamp, endsAt: Timestamp, now: Timestamp): (r: Option<string>)
    ensures r == None <==> now <= startsAt <= endsAt
    ensures startsAt < now ==> r == Some(StartsInPast)
    ensures now <= startsAt && endsAt < startsAt ==> r == Some(EndsBeforeStart)
  {
    if IsBefore(startsAt, now) then Some(StartsInPast)
    else if IsBefore(endsAt, startsAt) then Some(EndsBeforeStart)
    else None
  }

  /** The two checks create-activity makes against the trip it is added to. */
  function ActivityDateError(occursAt: Timestamp, trip: Trip): (r: Option<string>)
    ensures r == None <==> trip.startsAt <= occursAt <= trip.endsAt
    ensures occursAt < trip.startsAt ==> r == Some(ActivityBeforeTrip)
    ensures trip.startsAt <= occursAt && trip.endsAt < occursAt ==> r == Some(ActivityAfterTrip)
  {
    if IsBefore(occursAt, trip.startsAt) then Some(ActivityBeforeTrip)
    else if IsAfter(occursAt, trip.endsAt) then Some(ActivityAfterTrip)
    else None
  }
}
