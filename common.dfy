/**
 * The entities of the trip planner, the replies its route handlers give,
 * and the confirmation links its mails carry.
 */
module Common {

  /** Row ids: UUID strings generated by the store. */
  type Id = string

  /** Instants, as integer timestamps (milliseconds). */
  type Timestamp = int

  datatype Option<T> = None | Some(value: T)

  datatype Trip = Trip(id: Id, destination: string, startsAt: Timestamp, endsAt: Timestamp, isConfirmed: bool)

  /** `name` is set only for the owner; invitees are created from an email alone. */
  datatype Participant = Participant(id: Id, name: Option<string>, email: string,
                                     isOwner: bool, isConfirmed: bool, tripId: Id)

  datatype Activity = Activity(id: Id, title: string, occursAt: Timestamp, tripId: Id)

  datatype Link = Link(id: Id, title: string, url: string, tripId: Id)

  /** One queued message: the address it goes to and the confirmation link in its body. */
  datatype Mail = Mail(recipient: string, link: string)

  /**
   * What a route handler produces: a value, a `ClientError` it throws with a
   * message, or the schema's rejection of the request, listing the failing fields.
   */
  datatype Response<T> = Ok(value: T) | ClientError(message: string) | InvalidInput(fields: seq<string>)

  /** The two base URLs read from the environment. */
  datatype Env = Env(apiBaseUrl: string, webBaseUrl: string)

  const TripNotFound := "TripId not found"
  const ParticipantNotFound := "Participant not found"

  /**
   * The `redirect` value returned by confirm-trip and create-invite. It is a
   * single-quoted literal in the program, so the placeholders stay as written.
   */
  const UninterpolatedRedirect := "${env.WEB_BASE_URL}/participants/${participant.id}/confirm"

  /** `API_BASE_URL/trips/{tripId}/confirm`, the link mailed to a trip's owner. */
  function TripConfirmLink(apiBaseUrl: string, tripId: Id): (link: string)
  {
    apiBaseUrl + "/trips/" + tripId + "/confirm"
  }

  /** `API_BASE_URL/participants/{participantId}/confirm`, the link mailed to an invitee. */
  function ParticipantConfirmLink(apiBaseUrl: string, participantId: Id): (link: string)
  {
    apiBaseUrl + "/participants/" + participantId + "/confirm"
  }

  /** `WEB_BASE_URL/trips/{tripId}`, where confirming an already confirmed trip redirects. */
  function TripPage(webBaseUrl: string, tripId: Id): (url: string)
  {
    webBaseUrl + "/trips/" + tripId
  }

  /** No id occurs twice in `ids`: the first one is not repeated, and neither is any later one. */
  predicate Distinct(ids: seq<Id>)
  {
    |ids| == 0 || (ids[0] !in ids[1..] && Distinct(ids[1..]))
  }

  /** `Distinct` says that any two positions hold different ids. */
  lemma {:induction false} DistinctPairwise(ids: seq<Id>)
    ensures Distinct(ids) <==> forall i, j :: 0 <= i < j < |ids| ==> ids[i] != ids[j]
  {
    if |ids| > 0 {
      var tail := ids[1..];
      DistinctPairwise(tail);
      if Distinct(ids) {
        forall i, j | 0 <= i < j < |ids| ensures ids[i] != ids[j] {
          if i == 0 {
            assert ids[j] == tail[j - 1];
          } else {
            assert ids[i] == tail[i - 1] && ids[j] == tail[j - 1];
          }
        }
      }
      if forall i, j :: 0 <= i < j < |ids| ==> ids[i] != ids[j] {
        forall i, j | 0 <= i < j < |tail| ensures tail[i] != tail[j] {
          assert tail[i] == ids[i + 1] && tail[j] == ids[j + 1];
        }
      }
    }
  }

  /** Two duplicate-free lists with no id in common join into a duplicate-free list. */
  lemma {:induction false} DistinctConcat(a: seq<Id>, b: seq<Id>)
    requires Distinct(a) && Distinct(b)
    requires forall i :: 0 <= i < |b| ==> b[i] !in a
    ensures Distinct(a + b)
  {
    var ab := a + b;
    DistinctPairwise(a);
    DistinctPairwise(b);
    DistinctPairwise(ab);
    forall i, j | 0 <= i < j < |ab| ensures ab[i] != ab[j] {
      if j >= |a| && i < |a| {
        assert ab[j] == b[j - |a|] && ab[i] == a[i];
      } else if i >= |a| {
        assert ab[i] == b[i - |a|] && ab[j] == b[j - |a|];
      }
    }
  }

  /** A string wrapped between a fixed prefix and a fixed suffix can be read back. */
  lemma {:induction false} WrappedInjective(prefix: string, suffix: string, a: string, b: string)
    requires prefix + a + suffix == prefix + b + suffix
    ensures a == b
  {
    var s := prefix + a + suffix;
    assert |a| == |b|;
    assert a == s[|prefix|..|prefix| + |a|];
    assert b == s[|prefix|..|prefix| + |b|];
  }

  /** Different trips get different confirmation links. */
  lemma {:induction false} TripConfirmLinkInjective(apiBaseUrl: string, a: Id, b: Id)
    ensures TripConfirmLink(apiBaseUrl, a) == TripConfirmLink(apiBaseUrl, b) <==> a == b
  {
    if TripConfirmLink(apiBaseUrl, a) == TripConfirmLink(apiBaseUrl, b) {
      WrappedInjective(apiBaseUrl + "/trips/", "/confirm", a, b);
    }
  }

  /** Different participants get different confirmation links. */
  lemma {:induction false} ParticipantConfirmLinkInjective(apiBaseUrl: string, a: Id, b: Id)
    ensures ParticipantConfirmLink(apiBaseUrl, a) == ParticipantConfirmLink(apiBaseUrl, b) <==> a == b
  {
    if ParticipantConfirmLink(apiBaseUrl, a) == ParticipantConfirmLink(apiBaseUrl, b) {
      WrappedInjective(apiBaseUrl + "/participants/", "/confirm", a, b);
    }
  }
}
