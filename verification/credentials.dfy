/**
 Application registration and e-mail verification, as the `Register` and
 `VerifyEmail` views perform them against the database.

 The database is the immutable `Store`: applications keyed by primary key,
 verification records keyed by their code, the registration records the
 registration serializer saves, and the primary-key sequence. Every view is a
 pure function from a store (and the values its foreign helpers produced) to an
 outcome and the next store.
 */
module Credentials {
  import opened Http

  /** A registered OAuth2 client (`ThrottledApplication`). */
  datatype Application = Application(
    name: string,
    clientId: string,
    clientSecret: string,
    clientType: string,
    authorizationGrantType: string,
    skipAuthorization: bool,
    verified: bool)

  /** A pending e-mail verification (`OAuth2Verification`) pointing at an application by pk. */
  datatype Verification = Verification(email: string, application: nat)

  /** What the registration serializer validated and saved. */
  datatype Registration = Registration(name: string, email: string)

  datatype Store = Store(
    applications: map<nat, Application>,
    verifications: map<string, Verification>,
    registrations: seq<Registration>,
    nextPk: nat)

  const EmptyStore := Store(map[], map[], [], 1)

  /**
   The database's own guarantees: primary keys come from a sequence that is ahead
   of every key in use, and every verification refers to an existing application.
   */
  ghost predicate Valid(s: Store) {
    && (forall pk :: pk in s.applications ==> pk < s.nextPk)
    && (forall code :: code in s.verifications ==> s.verifications[code].application in s.applications)
  }

  /** The registration serializer's verdict on the request data. */
  datatype Validation = Accepted(data: Registration) | Rejected(errors: map<string, seq<string>>)

  /** How the verification e-mail went: sent, an SMTP error, or any other exception. */
  datatype MailOutcome = Delivered | SmtpFailure | OtherFailure(exception: string)

  /** A view's outcome and the store it leaves behind. */
  datatype Step = Step(outcome: Outcome, store: Store)

  const CheckEmailMsg := "Check your email for a verification link."
  const VerifiedMsg := "Successfully verified email. Your OAuth2 credentials are now active."
  const InvalidCodeMsg := "Invalid verification code. Did you validate your credentials already?"

  /** The application row a registration creates. */
  function NewApplication(name: string, clientId: string, clientSecret: string): (app: Application)
    ensures !app.verified && !app.skipAuthorization
    ensures app.clientType == "Confidential" && app.authorizationGrantType == "client-credentials"
    ensures app.name == name && app.clientId == clientId && app.clientSecret == clientSecret
  {
    Application(name, clientId, clientSecret, "Confidential", "client-credentials", false, false)
  }

  /**
   `POST` to the registration endpoint. `clientId`, `clientSecret` and `code` are
   the values the OAuth2 toolkit's generators and `secrets.token_urlsafe(64)` produced.
   */
  function Register(s: Store, form: Validation, clientId: string, clientSecret: string,
                    code: string, mail: MailOutcome): (r: Step)
    // Invalid input: 400 with the serializer's errors, nothing written.
    ensures form.Rejected? ==> r == Step(Reply(Response(400, FieldErrors(form.errors))), s)
    // Valid input: one new unverified application under a fresh pk holding the secret.
    ensures form.Accepted? ==>
              var pk := s.nextPk;
              && r.store.applications.Keys == s.applications.Keys + {pk}
              && r.store.applications[pk] == NewApplication(form.data.name, clientId, clientSecret)
              && r.store.nextPk > pk
    // ... existing applications keep their values (all of them, in a valid store) ...
    ensures form.Accepted? ==>
              forall pk :: pk in s.applications && pk != s.nextPk ==>
                r.store.applications[pk] == s.applications[pk]
    // ... the code points at the new application and other codes are untouched ...
    ensures form.Accepted? ==>
              && r.store.verifications.Keys == s.verifications.Keys + {code}
              && r.store.verifications[code] == Verification(form.data.email, s.nextPk)
              && forall c :: c in s.verifications && c != code ==>
                   r.store.verifications[c] == s.verifications[c]
    // ... the serializer's record is saved ...
    ensures form.Accepted? ==> r.store.registrations == s.registrations + [form.data]
    // ... and the caller gets the stored secret, unless the mailer raised something other than an SMTP error.
    ensures form.Accepted? && !mail.OtherFailure? ==>
              r.outcome == Reply(Response(201, IssuedCredentials(clientId, r.store.applications[s.nextPk].clientSecret,
                                                           form.data.name, CheckEmailMsg)))
    ensures form.Accepted? && mail.OtherFailure? ==> r.outcome == Unhandled(mail.exception)
    ensures Valid(s) ==> Valid(r.store)
  {
    match form
    case Rejected(errors) =>
      Step(Reply(Response(400, FieldErrors(errors))), s)
    case Accepted(data) =>
      var pk := s.nextPk;
      var app := NewApplication(data.name, clientId, clientSecret);
      var saved := Store(s.applications[pk := app],
                         s.verifications[code := Verification(data.email, pk)],
                         s.registrations + [data],
                         pk + 1);
      match mail
      case OtherFailure(e) => Step(Unhandled(e), saved)
      case _ => Step(Reply(Response(201, IssuedCredentials(clientId, clientSecret, app.name, CheckEmailMsg))), saved)
  }

  /** `GET` on the verification link carrying `code`. */
  function VerifyEmail(s: Store, code: string): (r: Step)
    // Unknown code: 500 and nothing changes.
    ensures code !in s.verifications ==>
              r == Step(Reply(Response(500, Message(InvalidCodeMsg))), s)
    // Known code: 200, exactly that application becomes verified, exactly that code is gone.
    ensures code in s.verifications && s.verifications[code].application in s.applications ==>
              var pk := s.verifications[code].application;
              && r.outcome == Reply(Response(200, Message(VerifiedMsg)))
              && r.store.applications.Keys == s.applications.Keys
              && r.store.applications[pk].verified
              && r.store.applications[pk] == s.applications[pk].(verified := true)
              && (forall other :: other in s.applications && other != pk ==>
                    r.store.applications[other] == s.applications[other])
              && r.store.verifications.Keys == s.verifications.Keys - {code}
              && (forall c :: c in r.store.verifications ==> r.store.verifications[c] == s.verifications[c])
              && r.store.registrations == s.registrations
              && r.store.nextPk == s.nextPk
    // A code whose application row is missing: the related-object lookup raises, nothing changes.
    ensures code in s.verifications && s.verifications[code].application !in s.applications ==>
              r.outcome.Unhandled? && r.store == s
    ensures r.outcome.Reply? ==> r.outcome.response.status in {200, 500}
    ensures Valid(s) ==> Valid(r.store) && r.outcome.Reply?
  {
    if code !in s.verifications then
      Step(Reply(Response(500, Message(InvalidCodeMsg))), s)
    else
      var pk := s.verifications[code].application;
      if pk !in s.applications then
        Step(Unhandled("ThrottledApplication.DoesNotExist"), s)
      else
        var apps := s.applications[pk := s.applications[pk].(verified := true)];
        Step(Reply(Response(200, Message(VerifiedMsg))), s.(applications := apps, verifications := s.verifications - {code}))
  }
}
