/**
 * The request schemas the routes declare. The web framework checks the path
 * parameters first and, only when they pass, the body; a rejection lists
 * the failing fields. Email, URL and UUID syntax are left uninterpreted.
 */
module Schema {
  import opened Common

  /** The validation library's syntax checks; the model assumes nothing about them. */
  datatype Syntax = Syntax(isEmail: string -> bool, isUrl: string -> bool, isUuid: string -> bool)

  /** `z.string().min(3)` */
  const MinLength := 3

  /**
   * The `length` the validation library compares: the number of UTF-16 code
   * units, so a character outside the Basic Multilingual Plane counts twice.
   */
  function Utf16Length(s: string): (n: nat)
    ensures |s| <= n <= 2 * |s|
    ensures n == |s| <==> forall i :: 0 <= i < |s| ==> (s[i] as int) < 0x1_0000
  {
    if s == [] then 0
    else (if (s[0] as int) < 0x1_0000 then 1 else 2) + Utf16Length(s[1..])
  }

  /** Two characters outside the Basic Multilingual Plane are four code units: long enough for `min(3)`. */
  lemma {:induction false} Utf16LengthAstral()
    ensures Utf16Length("\U{1D11E}\U{1D11E}") == 4 >= MinLength
    ensures |"\U{1D11E}\U{1D11E}"| == 2 < MinLength
  {
  }

  /** The field `field`, as a one-element error list when `ok` fails. */
  function Check(ok: bool, field: string): (errs: seq<string>)
  {
    if ok then [] else [field]
  }

  /** A `z.string().min(3)` field: rejected, by name, exactly when shorter than three code units. */
  function MinLengthErrors(field: string, value: string): (errs: seq<string>)
    ensures errs == [] <==> Utf16Length(value) >= MinLength
    ensures errs == [] || errs == [field]
  {
    Check(Utf16Length(value) >= MinLength, field)
  }

  /** The `{ tripId: z.string().uuid() }` (or `participantId`) path parameters. */
  function UuidParamErrors(syn: Syntax, field: string, value: string): (errs: seq<string>)
    ensures errs == [] <==> syn.isUuid(value)
    ensures errs != [] ==> errs == [field]
  {
    Check(syn.isUuid(value), field)
  }

  /** Parameters are checked first; the body only when the parameters pass. */
  function RequestErrors(paramErrs: seq<string>, bodyErrs: seq<string>): (errs: seq<string>)
    ensures errs == [] <==> paramErrs == [] && bodyErrs == []
    ensures paramErrs != [] ==> errs == paramErrs
    ensures paramErrs == [] ==> errs == bodyErrs
  {
    if paramErrs != [] then paramErrs else bodyErrs
  }

  /** Every email of an `z.array(z.string().email())`. */
  predicate AllEmails(syn: Syntax, emails: seq<string>)
  {
    forall i :: 0 <= i < |emails| ==> syn.isEmail(emails[i])
  }

  /** The create-trip body: destination, owner_email, emails_to_invite are checked; owner_name is any string. */
  function CreateTripErrors(syn: Syntax, destination: string, ownerEmail: string, emailsToInvite: seq<string>)
    : (errs: seq<string>)
    ensures errs == [] <==> Utf16Length(destination) >= MinLength && syn.isEmail(ownerEmail) && AllEmails(syn, emailsToInvite)
  {
    MinLengthErrors("destination", destination)
    + Check(syn.isEmail(ownerEmail), "owner_email")
    + Check(AllEmails(syn, emailsToInvite), "emails_to_invite")
  }

  /**
   * A create-trip rejection names exactly the failing fields, in schema order:
   * the destination when it is too short, the owner's address when it is not
   * an email, the invitee list when one of its entries is not.
   */
  lemma {:induction false} CreateTripErrorsFields(syn: Syntax, destination: string, ownerEmail: string, emailsToInvite: seq<string>)
    ensures var errs := CreateTripErrors(syn, destination, ownerEmail, emailsToInvite);
            && ("destination" in errs <==> Utf16Length(destination) < MinLength)
            && ("owner_email" in errs <==> !syn.isEmail(ownerEmail))
            && ("emails_to_invite" in errs <==>
                  exists i :: 0 <= i < |emailsToInvite| && !syn.isEmail(emailsToInvite[i]))
            && (forall f :: f in errs ==> f == "destination" || f == "owner_email" || f == "emails_to_invite")
            && Distinct(errs) && |errs| <= 3
  {
    DistinctPairwise(CreateTripErrors(syn, destination, ownerEmail, emailsToInvite));
  }

  /** The create-link body: a title of at least three code units and a URL. */
  function CreateLinkErrors(syn: Syntax, title: string, url: string): (errs: seq<string>)
    ensures errs == [] <==> Utf16Length(title) >= MinLength && syn.isUrl(url)
  {
    MinLengthErrors("title", title) + Check(syn.isUrl(url), "url")
  }

  /** A create-link rejection names exactly the failing fields: the title when too short, the URL when malformed. */
  lemma {:induction false} CreateLinkErrorsFields(syn: Syntax, title: string, url: string)
    ensures var errs := CreateLinkErrors(syn, title, url);
            && ("title" in errs <==> Utf16Length(title) < MinLength)
            && ("url" in errs <==> !syn.isUrl(url))
            && (forall f :: f in errs ==> f == "title" || f == "url")
            && Distinct(errs)
  {
  }

  /** The create-invite body: one email. */
  function CreateInviteErrors(syn: Syntax, email: string): (errs: seq<string>)
    ensures errs == [] <==> syn.isEmail(email)
    ensures errs == [] || errs == ["email"]
  {
    Check(syn.isEmail(email), "email")
  }
}
