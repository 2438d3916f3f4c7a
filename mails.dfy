/**
 * The mails confirm-trip sends: the trip's participants that are not its
 * owner, as the store lists them, and one confirmation mail for each.
 */
module Mails {
  import opened Common

  predicate IsInviteeOf(p: Participant, tripId: Id)
  {
    p.tripId == tripId && !p.isOwner
  }

  /**
   * The rows the trip lookup includes (`participants: { where: { is_owner: false } }`):
   * those of `tripId` whose owner flag is unset, in the order `order` lists them.
   */
  function NonOwners(order: seq<Id>, participants: map<Id, Participant>, tripId: Id): (rows: seq<Participant>)
    ensures |rows| <= |order|
  {
    if order == [] then []
    else
      var here := if order[0] in participants && IsInviteeOf(participants[order[0]], tripId)
                  then [participants[order[0]]] else [];
      here + NonOwners(order[1..], participants, tripId)
  }

  /** The mail for one invitee: to its address, with its participant confirmation link. */
  function InviteMail(apiBaseUrl: string, p: Participant): (m: Mail)
  {
    Mail(p.email, ParticipantConfirmLink(apiBaseUrl, p.id))
  }

  /** The mails sent, one after the other, for `rows`. */
  function InviteMails(apiBaseUrl: string, rows: seq<Participant>): (mails: seq<Mail>)
  {
    if rows == [] then []
    else InviteMails(apiBaseUrl, rows[..|rows| - 1]) + [InviteMail(apiBaseUrl, rows[|rows| - 1])]
  }

  lemma {:induction false} InviteMailsAt(apiBaseUrl: string, rows: seq<Participant>)
    ensures |InviteMails(apiBaseUrl, rows)| == |rows|
    ensures forall i :: 0 <= i < |rows| ==> InviteMails(apiBaseUrl, rows)[i] == InviteMail(apiBaseUrl, rows[i])
  {
    if rows != [] {
      InviteMailsAt(apiBaseUrl, rows[..|rows| - 1]);
    }
  }

  /** Exactly the invitees of `tripId` that `order` lists are selected, and nothing else. */
  lemma {:induction false} NonOwnersMembers(order: seq<Id>, participants: map<Id, Participant>, tripId: Id)
    ensures forall p :: p in NonOwners(order, participants, tripId) ==>
              IsInviteeOf(p, tripId) && exists k :: k in order && k in participants && participants[k] == p
    ensures forall k :: k in order && k in participants && IsInviteeOf(participants[k], tripId) ==>
              participants[k] in NonOwners(order, participants, tripId)
  {
    if order != [] {
      NonOwnersMembers(order[1..], participants, tripId);
      forall k | k in order && k in participants && IsInviteeOf(participants[k], tripId)
        ensures participants[k] in NonOwners(order, participants, tripId)
      {
        if k != order[0] {
          assert k in order[1..];
        }
      }
    }
  }

  /** No two rows of `rows` have the same id: the first one's is not repeated, and neither is any later one's. */
  predicate DistinctIds(rows: seq<Participant>)
  {
    |rows| == 0 || ((forall j :: 1 <= j < |rows| ==> rows[j].id != rows[0].id) && DistinctIds(rows[1..]))
  }

  /** `DistinctIds` says that any two positions hold rows with different ids. */
  lemma {:induction false} DistinctIdsPairwise(rows: seq<Participant>)
    ensures DistinctIds(rows) <==> forall i, j :: 0 <= i < j < |rows| ==> rows[i].id != rows[j].id
  {
    if |rows| > 0 {
      var tail := rows[1..];
      DistinctIdsPairwise(tail);
      if DistinctIds(rows) {
        forall i, j | 0 <= i < j < |rows| ensures rows[i].id != rows[j].id {
          if i > 0 {
            assert rows[i] == tail[i - 1] && rows[j] == tail[j - 1];
          }
        }
      }
      if forall i, j :: 0 <= i < j < |rows| ==> rows[i].id != rows[j].id {
        forall i, j | 0 <= i < j < |tail| ensures tail[i].id != tail[j].id {
          assert tail[i] == rows[i + 1] && tail[j] == rows[j + 1];
        }
      }
    }
  }

  /** When ids are distinct and every row is stored under its own id, no selected row repeats. */
  lemma {:induction false} NonOwnersDistinct(order: seq<Id>, participants: map<Id, Participant>, tripId: Id)
    requires Distinct(order)
    requires forall k :: k in participants ==> participants[k].id == k
    ensures DistinctIds(NonOwners(order, participants, tripId))
  {
    if order != [] {
      var tail := order[1..];
      NonOwnersDistinct(tail, participants, tripId);
      NonOwnersMembers(tail, participants, tripId);
      var rest := NonOwners(tail, participants, tripId);
      if order[0] in participants && IsInviteeOf(participants[order[0]], tripId) {
        var rows := NonOwners(order, participants, tripId);
        assert rows == [participants[order[0]]] + rest;
        assert rows[1..] == rest;
        forall j | 1 <= j < |rows| ensures rows[j].id != rows[0].id {
          assert rows[j] == rest[j - 1] && rest[j - 1] in rest;
          var k :| k in tail && k in participants && participants[k] == rest[j - 1];
        }
      } else {
        assert NonOwners(order, participants, tripId) == rest;
      }
    }
  }

  /**
   * The mails confirm-trip queues for `tripId`: every mail goes to an invitee
   * of that trip with that invitee's link, every listed invitee gets one, no two
   * mails carry the same link, and no owner's link is ever sent.
   */
  lemma {:induction false} ConfirmationMails(apiBaseUrl: string, order: seq<Id>, participants: map<Id, Participant>, tripId: Id)
    requires Distinct(order)
    requires forall k :: k in participants ==> participants[k].id == k
    ensures var mails := InviteMails(apiBaseUrl, NonOwners(order, participants, tripId));
            && (forall i :: 0 <= i < |mails| ==>
                  exists k :: k in participants && IsInviteeOf(participants[k], tripId)
                              && mails[i] == Mail(participants[k].email, ParticipantConfirmLink(apiBaseUrl, k)))
            && (forall k :: k in order && k in participants && IsInviteeOf(participants[k], tripId) ==>
                  Mail(participants[k].email, ParticipantConfirmLink(apiBaseUrl, k)) in mails)
            && (forall i, j :: 0 <= i < j < |mails| ==> mails[i].link != mails[j].link)
            && (forall i, k :: 0 <= i < |mails| && k in participants && participants[k].isOwner ==>
                  mails[i].link != ParticipantConfirmLink(apiBaseUrl, k))
  {
    var rows := NonOwners(order, participants, tripId);
    var mails := InviteMails(apiBaseUrl, rows);
    InviteMailsAt(apiBaseUrl, rows);
    NonOwnersMembers(order, participants, tripId);
    NonOwnersDistinct(order, participants, tripId);
    DistinctIdsPairwise(rows);
    forall i | 0 <= i < |mails|
      ensures exists k :: k in participants && IsInviteeOf(participants[k], tripId)
                          && mails[i] == Mail(participants[k].email, ParticipantConfirmLink(apiBaseUrl, k))
    {
      assert rows[i] in rows;
      var k :| k in order && k in participants && participants[k] == rows[i];
    }
    forall k | k in order && k in participants && IsInviteeOf(participants[k], tripId)
      ensures Mail(participants[k].email, ParticipantConfirmLink(apiBaseUrl, k)) in mails
    {
      var i :| 0 <= i < |rows| && rows[i] == participants[k];
      assert mails[i] == Mail(participants[k].email, ParticipantConfirmLink(apiBaseUrl, k));
    }
    forall i, j | 0 <= i < j < |mails| ensures mails[i].link != mails[j].link {
      ParticipantConfirmLinkInjective(apiBaseUrl, rows[i].id, rows[j].id);
    }
    forall i, k | 0 <= i < |mails| && k in participants && participants[k].isOwner
      ensures mails[i].link != ParticipantConfirmLink(apiBaseUrl, k)
    {
      assert rows[i] in rows;
      var k' :| k' in order && k' in participants && participants[k'] == rows[i];
      ParticipantConfirmLinkInjective(apiBaseUrl, rows[i].id, k);
    }
  }
}
