/**
 Properties of sequences of registration and verification requests.
 */
module Lifecycle {
  import opened Http
  import opened Credentials

  /** A code verifies once: the first use answers 200, the second 500 and changes nothing. */
  lemma VerifyTwice(s: Store, code: string)
    requires Valid(s) && code in s.verifications
    ensures var first := VerifyEmail(s, code);
            var second := VerifyEmail(first.store, code);
            && first.outcome == Reply(Response(200, Message(VerifiedMsg)))
            && second.outcome == Reply(Response(500, Message(InvalidCodeMsg)))
            && second.store == first.store
  {
  }

  /**
   A valid registration adds exactly one application and one verification record,
   and exactly one record points at the new application.
   */
  lemma RegisterAddsOne(s: Store, data: Registration, clientId: string, clientSecret: string,
                                           code: string, mail: MailOutcome)
    requires Valid(s) && code !in s.verifications
    ensures var s' := Register(s, Accepted(data), clientId, clientSecret, code, mail).store;
            && s.nextPk !in s.applications
            && |s'.applications| == |s.applications| + 1
            && |s'.verifications| == |s.verifications| + 1
            && (forall c :: c in s'.verifications && s'.verifications[c].application == s.nextPk ==> c == code)
  {
  }

  /** Neither view ever turns a verified application back into an unverified one. */
  lemma VerifiedIsPermanent(s: Store, pk: nat, form: Validation, clientId: string, clientSecret: string,
                            code: string, mail: MailOutcome, verifyCode: string)
    requires Valid(s) && pk in s.applications && s.applications[pk].verified
    ensures var r := Register(s, form, clientId, clientSecret, code, mail).store;
            pk in r.applications && r.applications[pk].verified
    ensures var v := VerifyEmail(s, verifyCode).store;
            pk in v.applications && v.applications[pk].verified
  {
  }

  /**
   Registering and then following the e-mailed link verifies exactly the new
   application; following the link again fails.
   */
  lemma RegisterThenVerify(s: Store, data: Registration, clientId: string, clientSecret: string,
                                              code: string, mail: MailOutcome)
    requires Valid(s) && code !in s.verifications
    ensures var registered := Register(s, Accepted(data), clientId, clientSecret, code, mail).store;
            var verified := VerifyEmail(registered, code);
            && !registered.applications[s.nextPk].verified
            && verified.outcome == Reply(Response(200, Message(VerifiedMsg)))
            && verified.store.applications[s.nextPk].verified
            && verified.store.applications[s.nextPk].clientSecret == clientSecret
            && (forall pk :: pk in s.applications ==> verified.store.applications[pk] == s.applications[pk])
            && verified.store.verifications == s.verifications
            && VerifyEmail(verified.store, code).outcome == Reply(Response(500, Message(InvalidCodeMsg)))
  {
  }

  /**
   The end-to-end scenario: register, try a wrong code (500), the right code (200),
   then the right code again (500).
   */
  lemma Scenario(clientId: string, clientSecret: string, code: string, wrong: string, mail: MailOutcome)
    requires wrong != code
    ensures var data := Registration("Acme", "a@example.com");
            var registered := Register(EmptyStore, Accepted(data), clientId, clientSecret, code, mail);
            var miss := VerifyEmail(registered.store, wrong);
            var hit := VerifyEmail(miss.store, code);
            var again := VerifyEmail(hit.store, code);
            && (!mail.OtherFailure? ==>
                  registered.outcome == Reply(Response(201, IssuedCredentials(clientId, clientSecret, "Acme", CheckEmailMsg))))
            && miss.outcome.response.status == 500
            && hit.outcome.response.status == 200
            && again.outcome.response.status == 500
  {
  }

  /**
   When the mailer raises anything but an SMTP error, the caller never sees the
   secret, yet the unverified application and its code remain stored.
   */
  lemma MailerCrashKeepsRecords(s: Store, data: Registration, clientId: string, clientSecret: string,
                                code: string, exception: string)
    ensures var r := Register(s, Accepted(data), clientId, clientSecret, code, OtherFailure(exception));
            && !r.outcome.Reply?
            && s.nextPk in r.store.applications
            && r.store.applications[s.nextPk].clientSecret == clientSecret
            && !r.store.applications[s.nextPk].verified
            && code in r.store.verifications
  {
  }

  /** One request to either view, with the values its foreign helpers produce. */
  datatype Request =
    | RegisterRequest(form: Validation, clientId: string, clientSecret: string, code: string, mail: MailOutcome)
    | VerifyRequest(code: string)

  function Apply(s: Store, req: Request): Step {
    match req
    case RegisterRequest(form, clientId, clientSecret, code, mail) => Register(s, form, clientId, clientSecret, code, mail)
    case VerifyRequest(code) => VerifyEmail(s, code)
  }

  /** True when no request in `reqs` registers with verification code `code`. */
  predicate NeverIssues(reqs: seq<Request>, code: string) {
    forall i :: 0 <= i < |reqs| ==> !(reqs[i].RegisterRequest? && reqs[i].code == code)
  }

  /**
   The store after serving `reqs` in order. Over any sequence of requests the store
   invariant holds, no application is ever removed, and no verified application
   goes back to unverified.
   */
  function Run(s: Store, reqs: seq<Request>): (r: Store)
    requires Valid(s)
    ensures Valid(r)
    ensures s.applications.Keys <= r.applications.Keys
    ensures forall pk :: pk in s.applications && s.applications[pk].verified ==> r.applications[pk].verified
    ensures |r.registrations| >= |s.registrations| && r.registrations[..|s.registrations|] == s.registrations
    decreases |reqs|
  {
    if reqs == [] then s else Run(Apply(s, reqs[0]).store, reqs[1..])
  }

  /**
   A code that is not live stays dead for as long as no registration issues it
   again: every later attempt to verify it answers 500.
   */
  lemma {:induction false} DeadCodeStaysDead(s: Store, code: string, reqs: seq<Request>)
    requires Valid(s) && code !in s.verifications
    requires NeverIssues(reqs, code)
    ensures code !in Run(s, reqs).verifications
    ensures VerifyEmail(Run(s, reqs), code).outcome == Reply(Response(500, Message(InvalidCodeMsg)))
    decreases |reqs|
  {
    if reqs != [] {
      var next := Apply(s, reqs[0]).store;
      assert code !in next.verifications;
      assert NeverIssues(reqs[1..], code) by {
        forall i | 0 <= i < |reqs[1..]|
          ensures !(reqs[1..][i].RegisterRequest? && reqs[1..][i].code == code)
        {
          assert reqs[1..][i] == reqs[i + 1];
        }
      }
      DeadCodeStaysDead(next, code, reqs[1..]);
    }
  }

  /** Once a code has verified its application, no later request can make it verify again. */
  lemma UsedCodeNeverVerifiesAgain(s: Store, code: string, reqs: seq<Request>)
    requires Valid(s) && code in s.verifications
    requires NeverIssues(reqs, code)
    ensures var after := VerifyEmail(s, code).store;
            VerifyEmail(Run(after, reqs), code).outcome == Reply(Response(500, Message(InvalidCodeMsg)))
  {
    DeadCodeStaysDead(VerifyEmail(s, code).store, code, reqs);
  }
}
