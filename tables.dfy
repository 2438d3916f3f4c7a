/**
 * The store's tables as values: the rows create-trip inserts, the
 * invariants the handlers keep, and the lemmas that each kind of write
 * keeps them.
 */
module Tables {
  import opened Common
  import opened Mails

  /** The rows create-trip inserts: the owner, then one invitee per address, in input order. */
  function NewParticipants(tripId: Id, ownerName: string, ownerEmail: string,
                           emailsToInvite: seq<string>, ids: seq<Id>): (rows: seq<Participant>)
    requires |ids| == |emailsToInvite| + 1
    ensures |rows| == |ids|
    ensures forall i :: 0 <= i < |rows| ==> rows[i].id == ids[i] && rows[i].tripId == tripId
    ensures rows[0] == Participant(ids[0], Some(ownerName), ownerEmail, true, true, tripId)
    ensures forall i :: 1 <= i < |rows| ==>
              rows[i] == Participant(ids[i], None, emailsToInvite[i - 1], false, false, tripId)
  {
    [Participant(ids[0], Some(ownerName), ownerEmail, true, true, tripId)]
    + seq(|emailsToInvite|, i requires 0 <= i < |emailsToInvite| =>
            Participant(ids[i + 1], None, emailsToInvite[i], false, false, tripId))
  }

  /** Rows whose ids are listed, position by position, by a duplicate-free list have distinct ids. */
  lemma {:induction false} IdsDistinct(rows: seq<Participant>, ids: seq<Id>)
    requires Distinct(ids)
    requires |rows| == |ids| && forall i :: 0 <= i < |rows| ==> rows[i].id == ids[i]
    ensures DistinctIds(rows)
  {
    DistinctPairwise(ids);
    DistinctIdsPairwise(rows);
  }

  /** The rows keyed by their ids. */
  function RowsById(rows: seq<Participant>): (m: map<Id, Participant>)
  {
    if rows == [] then map[] else RowsById(rows[1..])[rows[0].id := rows[0]]
  }

  /** Every key of `RowsById(rows)` is the id of one of the rows, and, when ids are distinct, each row is found under its id. */
  lemma {:induction false} RowsByIdAt(rows: seq<Participant>)
    ensures forall k :: k in RowsById(rows) ==>
              exists i :: 0 <= i < |rows| && rows[i].id == k && RowsById(rows)[k] == rows[i]
    ensures DistinctIds(rows) ==>
              forall i :: 0 <= i < |rows| ==> rows[i].id in RowsById(rows) && RowsById(rows)[rows[i].id] == rows[i]
  {
    if rows != [] {
      var tail := rows[1..];
      RowsByIdAt(tail);
      var m := RowsById(rows);
      forall k | k in m ensures exists i :: 0 <= i < |rows| && rows[i].id == k && m[k] == rows[i] {
        if k != rows[0].id {
          assert k in RowsById(tail) && m[k] == RowsById(tail)[k];
          var i :| 0 <= i < |tail| && tail[i].id == k && RowsById(tail)[k] == tail[i];
          assert rows[i + 1] == tail[i];
        }
      }
      if DistinctIds(rows) {
        forall i | 0 <= i < |rows| ensures rows[i].id in m && m[rows[i].id] == rows[i] {
          if i > 0 {
            assert rows[i] == tail[i - 1];
          }
        }
      }
    }
  }

  /** Every trip is stored under its id and never ends before it starts. */
  ghost predicate TripsValid(trips: map<Id, Trip>)
  {
    forall id :: id in trips ==> trips[id].id == id && trips[id].startsAt <= trips[id].endsAt
  }

  /** Every participant is stored under its id, belongs to a stored trip, and an owner is confirmed. */
  ghost predicate ParticipantsValid(trips: map<Id, Trip>, participants: map<Id, Participant>)
  {
    forall id :: id in participants ==>
      && participants[id].id == id
      && participants[id].tripId in trips
      && (participants[id].isOwner ==> participants[id].isConfirmed)
  }

  /** `order` lists each participant exactly once. */
  ghost predicate OrderValid(participants: map<Id, Participant>, order: seq<Id>)
  {
    && Distinct(order)
    && (forall id :: id in participants <==> id in order)
  }

  /**
   * Every trip has exactly one owner: `owners` names, for each trip, an owner
   * row of that trip, and every owner row is the one named for its trip.
   */
  ghost predicate OwnersValid(trips: map<Id, Trip>, participants: map<Id, Participant>, owners: map<Id, Id>)
  {
    && owners.Keys == trips.Keys
    && (forall t :: t in owners ==>
          owners[t] in participants && participants[owners[t]].tripId == t && participants[owners[t]].isOwner)
    && (forall id :: id in participants && participants[id].isOwner ==>
          participants[id].tripId in owners && owners[participants[id].tripId] == id)
  }

  /** Every activity is stored under its id and belongs to a stored trip. */
  ghost predicate ActivitiesValid(trips: map<Id, Trip>, activities: map<Id, Activity>)
  {
    forall id :: id in activities ==> activities[id].id == id && activities[id].tripId in trips
  }

  /** Every link is stored under its id and belongs to a stored trip. */
  ghost predicate LinksValid(trips: map<Id, Trip>, links: map<Id, Link>)
  {
    forall id :: id in links ==> links[id].id == id && links[id].tripId in trips
  }

  /** All the invariants of the store, over its tables as values. */
  ghost predicate StoreValid(trips: map<Id, Trip>, participants: map<Id, Participant>, order: seq<Id>,
                             owners: map<Id, Id>, activities: map<Id, Activity>, links: map<Id, Link>)
  {
    && TripsValid(trips)
    && ParticipantsValid(trips, participants)
    && OrderValid(participants, order)
    && OwnersValid(trips, participants, owners)
    && ActivitiesValid(trips, activities)
    && LinksValid(trips, links)
  }

  /** Replacing a stored trip by one with the same id and well-ordered dates keeps every invariant. */
  lemma {:induction false} ReplaceTripKeepsValid(trips: map<Id, Trip>, participants: map<Id, Participant>, order: seq<Id>,
                              owners: map<Id, Id>, activities: map<Id, Activity>, links: map<Id, Link>, trip: Trip)
    requires StoreValid(trips, participants, order, owners, activities, links)
    requires trip.id in trips && trip.startsAt <= trip.endsAt
    ensures StoreValid(trips[trip.id := trip], participants, order, owners, activities, links)
  {
  }

  /** An activity of a stored trip, under a fresh id, keeps every invariant. */
  lemma {:induction false} AddActivityKeepsValid(trips: map<Id, Trip>, participants: map<Id, Participant>, order: seq<Id>,
                              owners: map<Id, Id>, activities: map<Id, Activity>, links: map<Id, Link>, a: Activity)
    requires StoreValid(trips, participants, order, owners, activities, links)
    requires a.tripId in trips
    ensures StoreValid(trips, participants, order, owners, activities[a.id := a], links)
  {
  }

  /** A link of a stored trip keeps every invariant. */
  lemma {:induction false} AddLinkKeepsValid(trips: map<Id, Trip>, participants: map<Id, Participant>, order: seq<Id>,
                          owners: map<Id, Id>, activities: map<Id, Activity>, links: map<Id, Link>, l: Link)
    requires StoreValid(trips, participants, order, owners, activities, links)
    requires l.tripId in trips
    ensures StoreValid(trips, participants, order, owners, activities, links[l.id := l])
  {
  }

  /** The new rows of a new trip are stored under their ids and refer to that trip. */
  lemma {:induction false} AddTripKeepsParticipants(trips: map<Id, Trip>, participants: map<Id, Participant>,
                                 trip: Trip, rows: seq<Participant>)
    requires ParticipantsValid(trips, participants) && DistinctIds(rows)
    requires forall i :: 0 <= i < |rows| ==> rows[i].tripId == trip.id
    requires forall i :: 0 <= i < |rows| ==> rows[i].isOwner ==> rows[i].isConfirmed
    ensures ParticipantsValid(trips[trip.id := trip], participants + RowsById(rows))
  {
    RowsByIdAt(rows);
    var added := RowsById(rows);
    var participants' := participants + added;
    forall id | id in participants'
      ensures participants'[id].id == id && participants'[id].tripId in trips[trip.id := trip]
      ensures participants'[id].isOwner ==> participants'[id].isConfirmed
    {
      if id in added {
        var i :| 0 <= i < |rows| && rows[i].id == id && added[id] == rows[i];
      }
    }
  }

  /** Appending fresh, distinct ids to the order keeps it listing each row once. */
  lemma {:induction false} AddRowsKeepsOrder(participants: map<Id, Participant>, order: seq<Id>, rows: seq<Participant>, ids: seq<Id>)
    requires OrderValid(participants, order) && Distinct(ids) && DistinctIds(rows)
    requires |rows| == |ids| && forall i :: 0 <= i < |rows| ==> rows[i].id == ids[i]
    requires forall i :: 0 <= i < |ids| ==> ids[i] !in participants
    ensures OrderValid(participants + RowsById(rows), order + ids)
  {
    RowsByIdAt(rows);
    var added := RowsById(rows);
    var participants' := participants + added;
    var order' := order + ids;
    DistinctConcat(order, ids);
    forall id ensures id in participants' <==> id in order' {
      if id in added {
        var i :| 0 <= i < |rows| && rows[i].id == id && added[id] == rows[i];
        assert order'[|order| + i] == id;
      }
      if id in ids {
        var i :| 0 <= i < |ids| && ids[i] == id;
        assert rows[i].id == id;
      }
    }
  }

  /** The rows of one new trip, keyed by id: fresh ids, all of that trip, and only the first is an owner. */
  lemma {:induction false} NewRowsOfTrip(rows: seq<Participant>, tripId: Id, participants: map<Id, Participant>)
    requires |rows| > 0
    requires forall i :: 0 <= i < |rows| ==> rows[i].tripId == tripId && rows[i].id !in participants
    requires forall i :: 1 <= i < |rows| ==> !rows[i].isOwner
    ensures forall id :: id in RowsById(rows) ==>
              && id !in participants
              && RowsById(rows)[id].tripId == tripId
              && (RowsById(rows)[id].isOwner ==> id == rows[0].id)
  {
    RowsByIdAt(rows);
    var added := RowsById(rows);
    forall id | id in added
      ensures id !in participants && added[id].tripId == tripId && (added[id].isOwner ==> id == rows[0].id)
    {
      var i :| 0 <= i < |rows| && rows[i].id == id && added[id] == rows[i];
    }
  }

  /**
   * A new trip whose first new row is its owner and whose other new rows are
   * invitees keeps one owner per trip.
   */
  lemma {:induction false} AddTripKeepsOwners(trips: map<Id, Trip>, participants: map<Id, Participant>, owners: map<Id, Id>,
                           trip: Trip, rows: seq<Participant>)
    requires ParticipantsValid(trips, participants) && OwnersValid(trips, participants, owners)
    requires trip.id !in trips && |rows| > 0
    requires forall i :: 0 <= i < |rows| ==> rows[i].tripId == trip.id && rows[i].id !in participants
    requires rows[0].isOwner && forall i :: 1 <= i < |rows| ==> !rows[i].isOwner
    ensures OwnersValid(trips[trip.id := trip], participants + RowsById(rows), owners[trip.id := rows[0].id])
  {
    var added := RowsById(rows);
    var participants' := participants + added;
    var trips' := trips[trip.id := trip];
    var owners' := owners[trip.id := rows[0].id];
    NewRowsOfTrip(rows, trip.id, participants);
    assert rows[0].id in added && added[rows[0].id] == rows[0];
    forall t | t in trips'
      ensures t in owners' && owners'[t] in participants'
      ensures participants'[owners'[t]].tripId == t && participants'[owners'[t]].isOwner
    {
      if t != trip.id {
        assert owners'[t] == owners[t] && owners[t] in participants;
        assert participants'[owners[t]] == participants[owners[t]];
      }
    }
    forall id | id in participants' && participants'[id].isOwner
      ensures participants'[id].tripId in owners' && owners'[participants'[id].tripId] == id
    {
      if id !in added {
        assert participants'[id] == participants[id] && participants[id].tripId != trip.id;
      }
    }
  }

  /** A new invitee of a stored trip keeps every invariant. */
  lemma {:induction false} AddInviteeKeepsValid(trips: map<Id, Trip>, participants: map<Id, Participant>, order: seq<Id>,
                             owners: map<Id, Id>, activities: map<Id, Activity>, links: map<Id, Link>,
                             p: Participant)
    requires StoreValid(trips, participants, order, owners, activities, links)
    requires p.id !in participants && p.tripId in trips && !p.isOwner
    ensures StoreValid(trips, participants[p.id := p], order + [p.id], owners, activities, links)
  {
    var participants' := participants[p.id := p];
    var order' := order + [p.id];
    DistinctConcat(order, [p.id]);
    forall id ensures id in participants' <==> id in order' {
      if id == p.id {
        assert order'[|order|] == id;
      }
    }
  }

  /**
   * A new, well-dated trip with its owner row first and its invitee rows after
   * it, all under fresh, distinct ids, keeps every invariant.
   */
  lemma {:induction false} AddTripKeepsValid(trips: map<Id, Trip>, participants: map<Id, Participant>, order: seq<Id>,
                          owners: map<Id, Id>, activities: map<Id, Activity>, links: map<Id, Link>,
                          trip: Trip, rows: seq<Participant>, ids: seq<Id>)
    requires StoreValid(trips, participants, order, owners, activities, links)
    requires trip.id !in trips && trip.startsAt <= trip.endsAt
    requires |rows| == |ids| > 0 && Distinct(ids) && DistinctIds(rows)
    requires forall i :: 0 <= i < |rows| ==> rows[i].id == ids[i] && rows[i].tripId == trip.id
    requires forall i :: 0 <= i < |ids| ==> ids[i] !in participants
    requires rows[0].isOwner && rows[0].isConfirmed && forall i :: 1 <= i < |rows| ==> !rows[i].isOwner
    ensures StoreValid(trips[trip.id := trip], participants + RowsById(rows), order + ids,
                       owners[trip.id := rows[0].id], activities, links)
  {
    AddTripKeepsParticipants(trips, participants, trip, rows);
    AddRowsKeepsOrder(participants, order, rows, ids);
    AddTripKeepsOwners(trips, participants, owners, trip, rows);
  }
}
