/**
 * The trip planner's store (trips, participants, activities, links and the
 * mail outbox) and the route handlers that read and write it. Each handler
 * checks its request, looks up the trip or participant it names, applies the
 * date rules, writes its rows and queues its mails, in that order.
 */
module TripStore {
  import opened Common
  import opened Schema
  import opened Rules
  import opened Mails
  import opened Tables

  class Store {
    var trips: map<Id, Trip>
    var participants: map<Id, Participant>
    var activities: map<Id, Activity>
    var links: map<Id, Link>
    /** The order in which the store lists participant rows: the order they were inserted. */
    var participantOrder: seq<Id>
    /** Every mail sent so far, oldest first. */
    var outbox: seq<Mail>
    /** For each trip, the id of its owner row (proof state only). */
    ghost var owners: map<Id, Id>
    const env: Env
    const syntax: Syntax

    ghost predicate Valid()
      reads this
    {
      StoreValid(trips, participants, participantOrder, owners, activities, links)
    }

    constructor (env: Env, syntax: Syntax)
      ensures Valid()
      ensures this.env == env && this.syntax == syntax
      ensures trips == map[] && participants == map[] && activities == map[] && links == map[]
      ensures participantOrder == [] && outbox == []
    {
      this.env := env;
      this.syntax := syntax;
      trips, participants, activities, links := map[], map[], map[], map[];
      participantOrder, outbox := [], [];
      owners := map[];
    }

    /**
     * POST /trips. `now` is the clock; `newTripId` and `newParticipantIds`
     * are the fresh ids the store assigns to the rows it inserts.
     */
    method CreateTrip(destination: string, startsAt: Timestamp, endsAt: Timestamp,
                      ownerName: string, ownerEmail: string, emailsToInvite: seq<string>,
                      now: Timestamp, newTripId: Id, newParticipantIds: seq<Id>)
      returns (r: Response<Id>)
      requires Valid()
      requires newTripId !in trips
      requires |newParticipantIds| == |emailsToInvite| + 1 && Distinct(newParticipantIds)
      requires forall i :: 0 <= i < |newParticipantIds| ==> newParticipantIds[i] !in participants
      modifies this
      ensures Valid()
      ensures var errs := CreateTripErrors(syntax, destination, ownerEmail, emailsToInvite);
              errs != [] ==> r == InvalidInput(errs)
      ensures var dates := TripDatesError(startsAt, endsAt, now);
              CreateTripErrors(syntax, destination, ownerEmail, emailsToInvite) == [] && dates.Some? ==>
                r == ClientError(dates.value)
      ensures r.Ok? <==> CreateTripErrors(syntax, destination, ownerEmail, emailsToInvite) == []
                         && TripDatesError(startsAt, endsAt, now) == None
      ensures !r.Ok? ==> unchanged(this)
      ensures r.Ok? ==>
                var rows := NewParticipants(newTripId, ownerName, ownerEmail, emailsToInvite, newParticipantIds);
                && r.value == newTripId
                && trips == old(trips)[newTripId := Trip(newTripId, destination, startsAt, endsAt, false)]
                && DistinctIds(rows)
                && participants == old(participants) + RowsById(rows)
                && participantOrder == old(participantOrder) + newParticipantIds
                && activities == old(activities) && links == old(links)
                && outbox == old(outbox) + [Mail(ownerEmail, TripConfirmLink(env.apiBaseUrl, newTripId))]
    {
      var errs := CreateTripErrors(syntax, destination, ownerEmail, emailsToInvite);
      if errs != [] {
        return InvalidInput(errs);
      }
      if IsBefore(startsAt, now) {
        return ClientError(StartsInPast);
      }
      if IsBefore(endsAt, startsAt) {
        return ClientError(EndsBeforeStart);
      }
      InsertTrip(Trip(newTripId, destination, startsAt, endsAt, false), ownerName, ownerEmail, emailsToInvite,
                 newParticipantIds);
      outbox := outbox + [Mail(ownerEmail, TripConfirmLink(env.apiBaseUrl, newTripId))];
      r := Ok(newTripId);
    }

    /**
     * The one nested write of create-trip: the trip row together with its
     * participant rows, which the store lists after every earlier row.
     */
    method InsertTrip(trip: Trip, ownerName: string, ownerEmail: string, emailsToInvite: seq<string>, ids: seq<Id>)
      requires Valid()
      requires trip.id !in trips && trip.startsAt <= trip.endsAt
      requires |ids| == |emailsToInvite| + 1 && Distinct(ids)
      requires forall i :: 0 <= i < |ids| ==> ids[i] !in participants
      modifies this`trips, this`participants, this`participantOrder, this`owners
      ensures Valid()
      ensures var rows := NewParticipants(trip.id, ownerName, ownerEmail, emailsToInvite, ids);
              && DistinctIds(rows)
              && trips == old(trips)[trip.id := trip]
              && participants == old(participants) + RowsById(rows)
              && participantOrder == old(participantOrder) + ids
    {
      var rows := NewParticipants(trip.id, ownerName, ownerEmail, emailsToInvite, ids);
      IdsDistinct(rows, ids);
      AddTripKeepsValid(trips, participants, participantOrder, owners, activities, links, trip, rows, ids);
      trips, participants, participantOrder, owners :=
        trips[trip.id := trip], participants + RowsById(rows), participantOrder + ids, owners[trip.id := rows[0].id];
    }

    /**
     * GET /trips/:tripId/confirm. An unconfirmed trip is marked confirmed, then
     * one mail is sent to each of its participants that is not the owner, in
     * the order the store lists them; an already confirmed one redirects to its page.
     */
    method ConfirmTrip(tripId: Id) returns (r: Response<RedirectReply>)
      requires Valid()
      modifies this
      ensures Valid()
      ensures !syntax.isUuid(tripId) ==> r == InvalidInput(["tripId"]) && unchanged(this)
      ensures syntax.isUuid(tripId) && tripId !in old(trips) ==> r == ClientError(TripNotFound) && unchanged(this)
      ensures syntax.isUuid(tripId) && tripId in old(trips) && old(trips[tripId].isConfirmed) ==>
                r == Ok(Redirect(TripPage(env.webBaseUrl, tripId))) && unchanged(this)
      ensures syntax.isUuid(tripId) && tripId in old(trips) && !old(trips[tripId].isConfirmed) ==>
                && r == Ok(RedirectBody(UninterpolatedRedirect))
                && trips == old(trips)[tripId := old(trips[tripId]).(isConfirmed := true)]
                && participants == old(participants) && participantOrder == old(participantOrder)
                && activities == old(activities) && links == old(links)
                && outbox == old(outbox) + InviteMails(env.apiBaseUrl, NonOwners(participantOrder, participants, tripId))
      ensures r.Ok? ==> tripId in trips && trips[tripId].isConfirmed
    {
      var paramErrs := UuidParamErrors(syntax, "tripId", tripId);
      if paramErrs != [] {
        return InvalidInput(paramErrs);
      }
      if tripId !in trips {
        return ClientError(TripNotFound);
      }
      var trip := trips[tripId];
      var invitees := NonOwners(participantOrder, participants, tripId);
      if trip.isConfirmed {
        return Ok(Redirect(TripPage(env.webBaseUrl, tripId)));
      }
      ReplaceTripKeepsValid(trips, participants, participantOrder, owners, activities, links, trip.(isConfirmed := true));
      trips := trips[tripId := trip.(isConfirmed := true)];
      SendInviteMails(invitees);
      r := Ok(RedirectBody(UninterpolatedRedirect));
    }

    /**
     * Confirmation is idempotent: a second confirm of the same trip answers with
     * the trip page and changes nothing, so two calls leave the state of one.
     */
    method ConfirmTripTwice(tripId: Id) returns (first: Response<RedirectReply>, second: Response<RedirectReply>)
      requires Valid()
      modifies this
      ensures Valid()
      ensures first.Ok? ==> second == Ok(Redirect(TripPage(env.webBaseUrl, tripId)))
      ensures !first.Ok? ==> second == first && unchanged(this)
      ensures syntax.isUuid(tripId) && tripId in old(trips) && !old(trips[tripId].isConfirmed) ==>
                && trips == old(trips)[tripId := old(trips[tripId]).(isConfirmed := true)]
                && participants == old(participants) && participantOrder == old(participantOrder)
                && activities == old(activities) && links == old(links)
                && outbox == old(outbox) + InviteMails(env.apiBaseUrl, NonOwners(participantOrder, participants, tripId))
      ensures syntax.isUuid(tripId) && tripId in old(trips) && old(trips[tripId].isConfirmed) ==>
                first == second == Ok(Redirect(TripPage(env.webBaseUrl, tripId))) && unchanged(this)
    {
      first := ConfirmTrip(tripId);
      second := ConfirmTrip(tripId);
    }

    /** The loop of confirm-trip: one mail per row of `invitees`, in order, appended to the outbox. */
    method SendInviteMails(invitees: seq<Participant>)
      modifies this`outbox
      ensures outbox == old(outbox) + InviteMails(env.apiBaseUrl, invitees)
    {
      for i := 0 to |invitees|
        invariant outbox == old(outbox) + InviteMails(env.apiBaseUrl, invitees[..i])
      {
        ghost var prefix := invitees[..i + 1];
        assert prefix[..i] == invitees[..i];
        outbox := outbox + [InviteMail(env.apiBaseUrl, invitees[i])];
      }
      assert invitees[..|invitees|] == invitees;
    }

    /**
     * POST /trips/:tripId/invites. Adds one invitee to an existing trip, whatever
     * its confirmation state and whether the address is already invited, and mails it.
     */
    method CreateInvite(tripId: Id, email: string, newParticipantId: Id) returns (r: Response<RedirectReply>)
      requires Valid()
      requires newParticipantId !in participants
      modifies this
      ensures Valid()
      ensures var errs := RequestErrors(UuidParamErrors(syntax, "tripId", tripId), CreateInviteErrors(syntax, email));
              errs != [] ==> r == InvalidInput(errs)
      ensures syntax.isUuid(tripId) && syntax.isEmail(email) && tripId !in old(trips) ==>
                r == ClientError(TripNotFound)
      ensures r.Ok? <==> syntax.isUuid(tripId) && syntax.isEmail(email) && tripId in old(trips)
      ensures !r.Ok? ==> unchanged(this)
      ensures r.Ok? ==>
                && r.value == RedirectBody(UninterpolatedRedirect)
                && participants == old(participants)[newParticipantId :=
                                    Participant(newParticipantId, None, email, false, false, tripId)]
                && participantOrder == old(participantOrder) + [newParticipantId]
                && trips == old(trips) && activities == old(activities) && links == old(links)
                && outbox == old(outbox) + [Mail(email, ParticipantConfirmLink(env.apiBaseUrl, newParticipantId))]
    {
      var errs := RequestErrors(UuidParamErrors(syntax, "tripId", tripId), CreateInviteErrors(syntax, email));
      if errs != [] {
        return InvalidInput(errs);
      }
      if tripId !in trips {
        return ClientError(TripNotFound);
      }
      var participant := Participant(newParticipantId, None, email, false, false, tripId);
      AddInviteeKeepsValid(trips, participants, participantOrder, owners, activities, links, participant);
      participants, participantOrder, outbox :=
        participants[newParticipantId := participant], participantOrder + [newParticipantId],
        outbox + [Mail(participant.email, ParticipantConfirmLink(env.apiBaseUrl, participant.id))];
      r := Ok(RedirectBody(UninterpolatedRedirect));
    }

    /**
     * PUT /trips/:tripId. Overwrites the destination and the dates of an
     * existing trip and returns the trip as it was read before the update.
     */
    method UpdateTrip(tripId: Id, destination: string, startsAt: Timestamp, endsAt: Timestamp, now: Timestamp)
      returns (r: Response<Trip>)
      requires Valid()
      modifies this
      ensures Valid()
      ensures var errs := RequestErrors(UuidParamErrors(syntax, "tripId", tripId), MinLengthErrors("destination", destination));
              errs != [] ==> r == InvalidInput(errs)
      ensures syntax.isUuid(tripId) && Utf16Length(destination) >= MinLength && tripId !in old(trips) ==> r == ClientError(TripNotFound)
      ensures var dates := TripDatesError(startsAt, endsAt, now);
              syntax.isUuid(tripId) && Utf16Length(destination) >= MinLength && tripId in old(trips) && dates.Some? ==>
                r == ClientError(dates.value)
      ensures r.Ok? <==> syntax.isUuid(tripId) && Utf16Length(destination) >= MinLength && tripId in old(trips)
                         && TripDatesError(startsAt, endsAt, now) == None
      ensures !r.Ok? ==> unchanged(this)
      ensures r.Ok? ==>
                && r.value == old(trips[tripId])
                && trips == old(trips)[tripId := old(trips[tripId]).(destination := destination,
                                                                    startsAt := startsAt, endsAt := endsAt)]
                && participants == old(participants) && participantOrder == old(participantOrder)
                && activities == old(activities) && links == old(links) && outbox == old(outbox)
    {
      var errs := RequestErrors(UuidParamErrors(syntax, "tripId", tripId), MinLengthErrors("destination", destination));
      if errs != [] {
        return InvalidInput(errs);
      }
      if tripId !in trips {
        return ClientError(TripNotFound);
      }
      var trip := trips[tripId];
      if IsBefore(startsAt, now) {
        return ClientError(StartsInPast);
      }
      if IsBefore(endsAt, startsAt) {
        return ClientError(EndsBeforeStart);
      }
      ReplaceTripKeepsValid(trips, participants, participantOrder, owners, activities, links,
                            trip.(destination := destination, startsAt := startsAt, endsAt := endsAt));
      trips := trips[tripId := trip.(destination := destination, startsAt := startsAt, endsAt := endsAt)];
      r := Ok(trip);
    }

    /**
     * POST /trips/:tripId/activities. Inserts an activity whose date lies
     * within the trip's range, both ends included, and returns its id.
     */
    method CreateActivity(tripId: Id, title: string, occursAt: Timestamp, newActivityId: Id)
      returns (r: Response<Id>)
      requires Valid()
      requires newActivityId !in activities
      modifies this
      ensures Valid()
      ensures var errs := RequestErrors(UuidParamErrors(syntax, "tripId", tripId), MinLengthErrors("title", title));
              errs != [] ==> r == InvalidInput(errs)
      ensures syntax.isUuid(tripId) && Utf16Length(title) >= MinLength && tripId !in old(trips) ==> r == ClientError(TripNotFound)
      ensures syntax.isUuid(tripId) && Utf16Length(title) >= MinLength && tripId in old(trips)
              && ActivityDateError(occursAt, old(trips[tripId])).Some? ==>
                r == ClientError(ActivityDateError(occursAt, old(trips[tripId])).value)
      ensures r.Ok? <==> syntax.isUuid(tripId) && Utf16Length(title) >= MinLength && tripId in old(trips)
                         && old(trips[tripId].startsAt) <= occursAt <= old(trips[tripId].endsAt)
      ensures !r.Ok? ==> unchanged(this)
      ensures r.Ok? ==>
                && r.value == newActivityId
                && activities == old(activities)[newActivityId := Activity(newActivityId, title, occursAt, tripId)]
                && trips == old(trips) && participants == old(participants)
                && participantOrder == old(participantOrder) && links == old(links) && outbox == old(outbox)
    {
      var errs := RequestErrors(UuidParamErrors(syntax, "tripId", tripId), MinLengthErrors("title", title));
      if errs != [] {
        return InvalidInput(errs);
      }
      if tripId !in trips {
        return ClientError(TripNotFound);
      }
      var trip := trips[tripId];
      if IsBefore(occursAt, trip.startsAt) {
        return ClientError(ActivityBeforeTrip);
      }
      if IsAfter(occursAt, trip.endsAt) {
        return ClientError(ActivityAfterTrip);
      }
      var activity := Activity(newActivityId, title, occursAt, tripId);
      AddActivityKeepsValid(trips, participants, participantOrder, owners, activities, links, activity);
      activities := activities[newActivityId := activity];
      r := Ok(newActivityId);
    }

    /** POST /trips/:tripId/links. Inserts a link for an existing trip and returns its id. */
    method CreateLink(tripId: Id, title: string, url: string, newLinkId: Id) returns (r: Response<Id>)
      requires Valid()
      requires newLinkId !in links
      modifies this
      ensures Valid()
      ensures var errs := RequestErrors(UuidParamErrors(syntax, "tripId", tripId), CreateLinkErrors(syntax, title, url));
              errs != [] ==> r == InvalidInput(errs)
      ensures syntax.isUuid(tripId) && Utf16Length(title) >= MinLength && syntax.isUrl(url) && tripId !in old(trips) ==>
                r == ClientError(TripNotFound)
      ensures r.Ok? <==> syntax.isUuid(tripId) && Utf16Length(title) >= MinLength && syntax.isUrl(url) && tripId in old(trips)
      ensures !r.Ok? ==> unchanged(this)
      ensures r.Ok? ==>
                && r.value == newLinkId
                && links == old(links)[newLinkId := Link(newLinkId, title, url, tripId)]
                && trips == old(trips) && participants == old(participants)
                && participantOrder == old(participantOrder) && activities == old(activities)
                && outbox == old(outbox)
    {
      var errs := RequestErrors(UuidParamErrors(syntax, "tripId", tripId), CreateLinkErrors(syntax, title, url));
      if errs != [] {
        return InvalidInput(errs);
      }
      if tripId !in trips {
        return ClientError(TripNotFound);
      }
      var link := Link(newLinkId, title, url, tripId);
      AddLinkKeepsValid(trips, participants, participantOrder, owners, activities, links, link);
      links := links[newLinkId := link];
      r := Ok(newLinkId);
    }

    /** GET /trips/:tripId. */
    function GetTripDetails(tripId: Id): (r: Response<Trip>)
      reads this
      ensures r.InvalidInput? <==> !syntax.isUuid(tripId)
      ensures r.InvalidInput? ==> r.fields == ["tripId"]
      ensures r.ClientError? <==> syntax.isUuid(tripId) && tripId !in trips
      ensures r.ClientError? ==> r.message == TripNotFound
      ensures r.Ok? ==> tripId in trips && r.value == trips[tripId]
      ensures Valid() && r.Ok? ==> r.value.id == tripId && r.value.startsAt <= r.value.endsAt
    {
      if !syntax.isUuid(tripId) then InvalidInput(UuidParamErrors(syntax, "tripId", tripId))
      else if tripId !in trips then ClientError(TripNotFound)
      else Ok(trips[tripId])
    }

    /** GET /participants/:participantId. */
    function GetParticipantDetails(participantId: Id): (r: Response<Participant>)
      reads this
      ensures r.InvalidInput? <==> !syntax.isUuid(participantId)
      ensures r.InvalidInput? ==> r.fields == ["participantId"]
      ensures r.ClientError? <==> syntax.isUuid(participantId) && participantId !in participants
      ensures r.ClientError? ==> r.message == ParticipantNotFound
      ensures r.Ok? ==> participantId in participants && r.value == participants[participantId]
      ensures Valid() && r.Ok? ==> r.value.id == participantId && r.value.tripId in trips
    {
      if !syntax.isUuid(participantId) then InvalidInput(UuidParamErrors(syntax, "participantId", participantId))
      else if participantId !in participants then ClientError(ParticipantNotFound)
      else Ok(participants[participantId])
    }
  }

  /** The two ways confirm-trip and create-invite answer successfully. */
  datatype RedirectReply =
    | Redirect(url: string)           // `reply.redirect(url)`: the trip was already confirmed
    | RedirectBody(redirect: string)  // the `{ redirect }` payload
}
