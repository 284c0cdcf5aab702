/** The run of the tool after the challenge has been obtained: route setup,
    validation, the responder's verdict, teardown and certificate install.
    Everything the certificate authority, the file system and the random
    id generator contribute is an input. */
module Orchestrator {
  import opened Messages
  import opened Orders
  import opened Proxying
  import opened Responder

  /** Why the process panics. */
  datatype Panic =
    | SetupRefused        // set_up_proxying returned false
    | AnswerIdMismatch    // an answer carried a foreign id
    | ValidationNotLaunched
    | CertificateNotSaved

  /** How the run ends. `Hung` is a run blocked forever on a channel read or
      on the responder; `ChallengeMissed` is the logged "did not receive
      challenge request"; `Finished` carries the teardown and install results,
      each of which is only logged. */
  datatype Exit =
    | Panicked(panic: Panic)
    | Hung
    | ChallengeMissed
    | Finished(teardownOk: bool, installOk: bool)

  /** What the process does: how it ends, every envelope it wrote to the
      control channel, and every HTTP response the responder wrote. */
  datatype Trace = Trace(exit: Exit, sent: seq<Envelope>, responses: seq<HttpResponse>)

  /** The inputs of one run. */
  datatype Inputs = Inputs(
    appId: string, domain: string,
    token: string, keyAuthorization: string,
    address: SocketAddr,
    certificatePath: string, chainPath: string, keyPath: string,
    setupIds: IdPair, teardownIds: IdPair, installIds: IdPair,
    answers: seq<Read>,
    requests: seq<Request>,
    validationLaunched: bool,
    certificateSaved: bool,
    files: Files)

  /** How an unfinished channel outcome ends the process. */
  function Unfinished(o: Outcome): (e: Exit)
    requires o == Abort || o == Stalled
    ensures o == Abort ==> e == Panicked(AnswerIdMismatch)
    ensures o == Stalled ==> e == Hung
  {
    if o == Abort then Panicked(AnswerIdMismatch) else Hung
  }

  /** The setup run of `inp`: the temporary route to the responder. */
  function SetupOf(inp: Inputs): Proxying.Run
  {
    SetUpProxying(inp.appId, inp.domain, ChallengePath(inp.token), inp.address, inp.setupIds, inp.answers)
  }

  /** The teardown run of `inp`, reading from what the setup left over. */
  function TeardownOf(inp: Inputs): Proxying.Run
  {
    RemoveProxying(inp.appId, inp.domain, ChallengePath(inp.token), inp.address, inp.teardownIds, SetupOf(inp).rest)
  }

  /** The install run of `inp`, reading from what the teardown left over;
      the HTTPS front has an empty path prefix. */
  function InstallOf(inp: Inputs, tools: CertificateTools): Proxying.Run
  {
    AddCertificateRun(inp.appId, inp.domain, "", inp.certificatePath, inp.chainPath,
                      inp.keyPath, inp.files, tools, inp.installIds, TeardownOf(inp).rest)
  }

  /** The branch taken once the responder saw the challenge: teardown, whose
      failure is only logged, then saving and installing the certificate. */
  function AfterChallenge(inp: Inputs, tools: CertificateTools, responses: seq<HttpResponse>): (t: Trace)
    // the setup orders stay at the head of what was written
    ensures |t.sent| >= 1 && t.sent[0] == SetupOf(inp).sent[0]
  {
    var down := TeardownOf(inp);
    var sent := SetupOf(inp).sent + down.sent;
    if down.outcome == Abort || down.outcome == Stalled then
      Trace(Unfinished(down.outcome), sent, responses)
    else if !inp.certificateSaved then
      Trace(Panicked(CertificateNotSaved), sent, responses)
    else
      var install := InstallOf(inp, tools);
      if install.outcome == Abort || install.outcome == Stalled then
        Trace(Unfinished(install.outcome), sent + install.sent, responses)
      else
        Trace(Finished(down.outcome == Success, install.outcome == Success), sent + install.sent, responses)
  }

  /** The tail of the run, from the setup of the temporary route onwards. */
  function Orchestrate(inp: Inputs, tools: CertificateTools): (t: Trace)
    // the temporary route is always requested first
    ensures |t.sent| >= 1 && t.sent[0].order == AddHttpFront(HttpFront(inp.appId, inp.domain, ChallengePath(inp.token)))
    // a refused setup aborts the run, having sent nothing after the setup orders
    ensures SetupOf(inp).outcome == Failure ==> t == Trace(Panicked(SetupRefused), SetupOf(inp).sent, [])
    // without the challenge answered, only the setup orders are written and the run does not finish
    ensures Serve(ChallengePath(inp.token), inp.keyAuthorization, inp.requests).end != Answered ==>
      t.sent == SetupOf(inp).sent && !t.exit.Finished?
  {
    var setup := SetupOf(inp);
    if setup.outcome == Failure then Trace(Panicked(SetupRefused), setup.sent, [])
    else if setup.outcome != Success then Trace(Unfinished(setup.outcome), setup.sent, [])
    else if !inp.validationLaunched then Trace(Panicked(ValidationNotLaunched), setup.sent, [])
    else
      var served := Serve(ChallengePath(inp.token), inp.keyAuthorization, inp.requests);
      match served.end
      case Waiting => Trace(Hung, setup.sent, served.responses)
      case Failed => Trace(ChallengeMissed, setup.sent, served.responses)
      case Answered => AfterChallenge(inp, tools, served.responses)
  }

  /** A run whose setup succeeded, whose validation launched and whose
      responder saw the challenge. */
  predicate ChallengeAnswered(inp: Inputs)
  {
    && SetupOf(inp).outcome == Success && inp.validationLaunched
    && Serve(ChallengePath(inp.token), inp.keyAuthorization, inp.requests).end == Answered
  }

  /** An order chain that returned, true or false. */
  predicate Decided(o: Outcome)
  {
    o == Success || o == Failure
  }

  /** When the responder does not see the challenge, nothing beyond the
      setup orders is written, so no certificate is installed. */
  lemma MissedChallengeInstallsNothing(inp: Inputs, tools: CertificateTools)
    requires SetupOf(inp).outcome == Success && inp.validationLaunched
    requires Serve(ChallengePath(inp.token), inp.keyAuthorization, inp.requests).end == Failed
    ensures Orchestrate(inp, tools).exit == ChallengeMissed
    ensures Orchestrate(inp, tools).sent == SetupOf(inp).sent
    ensures forall k :: 0 <= k < |Orchestrate(inp, tools).sent| ==>
      !Orchestrate(inp, tools).sent[k].order.AddCertificateOrder? && !Orchestrate(inp, tools).sent[k].order.AddHttpsFront?
  {
  }

  /** Once the challenge is answered, the run continues with teardown and install. */
  lemma AnsweredRunsAfterChallenge(inp: Inputs, tools: CertificateTools)
    requires ChallengeAnswered(inp)
    ensures Orchestrate(inp, tools) ==
      AfterChallenge(inp, tools, Serve(ChallengePath(inp.token), inp.keyAuthorization, inp.requests).responses)
  {
  }

  /** When the challenge was answered, teardown is attempted and then the
      certificate install, whatever the teardown returned: the orders written
      are setup's, then teardown's, then install's, and the run finishes
      reporting each step's result. */
  lemma InstallFollowsTeardown(inp: Inputs, tools: CertificateTools)
    ensures ChallengeAnswered(inp) && inp.certificateSaved && Decided(TeardownOf(inp).outcome) ==>
      Orchestrate(inp, tools).sent == SetupOf(inp).sent + TeardownOf(inp).sent + InstallOf(inp, tools).sent
    ensures ChallengeAnswered(inp) && inp.certificateSaved
            && Decided(TeardownOf(inp).outcome) && Decided(InstallOf(inp, tools).outcome) ==>
      Orchestrate(inp, tools).exit ==
        Finished(TeardownOf(inp).outcome == Success, InstallOf(inp, tools).outcome == Success)
  {
    if ChallengeAnswered(inp) {
      var responses := Serve(ChallengePath(inp.token), inp.keyAuthorization, inp.requests).responses;
      AnsweredRunsAfterChallenge(inp, tools);
      AfterChallengeSent(inp, tools, responses);
      AfterChallengeExit(inp, tools, responses);
    }
  }

  /** The install step writes AddCertificate exactly when every file and the
      fingerprint load; its orders follow the teardown orders. */
  lemma InstallWritesCertificate(inp: Inputs, tools: CertificateTools)
    ensures ChallengeAnswered(inp) && inp.certificateSaved && Decided(TeardownOf(inp).outcome) ==>
      var n := |SetupOf(inp).sent| + |TeardownOf(inp).sent|;
      (MaterialLoads(inp.files, tools, inp.certificatePath, inp.chainPath, inp.keyPath) <==>
        n < |Orchestrate(inp, tools).sent| && Orchestrate(inp, tools).sent[n].order.AddCertificateOrder?)
  {
    if ChallengeAnswered(inp) {
      AnsweredRunsAfterChallenge(inp, tools);
      AfterChallengeSent(inp, tools, Serve(ChallengePath(inp.token), inp.keyAuthorization, inp.requests).responses);
      InstallStartsWithCertificate(inp, tools);
      AfterPrefixes(SetupOf(inp).sent, TeardownOf(inp).sent, InstallOf(inp, tools).sent);
    }
  }

  /** The element right after two prefixes is the head of the third part. */
  lemma AfterPrefixes<T>(a: seq<T>, b: seq<T>, c: seq<T>)
    ensures |a| + |b| < |a + b + c| <==> |c| > 0
    ensures |c| > 0 ==> (a + b + c)[|a| + |b|] == c[0]
  {
  }

  /** The install run writes an order exactly when the material loads, and
      its first order is then AddCertificate. */
  lemma InstallStartsWithCertificate(inp: Inputs, tools: CertificateTools)
    ensures MaterialLoads(inp.files, tools, inp.certificatePath, inp.chainPath, inp.keyPath) <==>
      |InstallOf(inp, tools).sent| > 0 && InstallOf(inp, tools).sent[0].order.AddCertificateOrder?
  {
    if MaterialLoads(inp.files, tools, inp.certificatePath, inp.chainPath, inp.keyPath) {
      AddCertificateOrders(inp.appId, inp.domain, "", inp.certificatePath, inp.chainPath,
                           inp.keyPath, inp.files, tools, inp.installIds, TeardownOf(inp).rest);
    } else {
      AddCertificateLoadFailure(inp.appId, inp.domain, "", inp.certificatePath, inp.chainPath,
                                inp.keyPath, inp.files, tools, inp.installIds, TeardownOf(inp).rest);
    }
  }

  /** Once the certificate is saved after a decided teardown, the orders
      written are setup's, then teardown's, then install's. */
  lemma AfterChallengeSent(inp: Inputs, tools: CertificateTools, responses: seq<HttpResponse>)
    ensures inp.certificateSaved && Decided(TeardownOf(inp).outcome) ==>
      AfterChallenge(inp, tools, responses).sent ==
      SetupOf(inp).sent + TeardownOf(inp).sent + InstallOf(inp, tools).sent
  {
  }

  /** Once the certificate is saved after a decided teardown and a decided
      install, the run finishes reporting both results. */
  lemma AfterChallengeExit(inp: Inputs, tools: CertificateTools, responses: seq<HttpResponse>)
    ensures inp.certificateSaved && Decided(TeardownOf(inp).outcome) && Decided(InstallOf(inp, tools).outcome) ==>
      AfterChallenge(inp, tools, responses).exit ==
      Finished(TeardownOf(inp).outcome == Success, InstallOf(inp, tools).outcome == Success)
  {
  }

  /** A foreign answer id during setup panics the process; a setup left
      waiting hangs it. */
  lemma SetupFaultEndsRun(inp: Inputs, tools: CertificateTools)
    ensures SetupOf(inp).outcome == Abort ==> Orchestrate(inp, tools).exit == Panicked(AnswerIdMismatch)
    ensures SetupOf(inp).outcome == Stalled ==> Orchestrate(inp, tools).exit == Hung
  {
  }

  /** A responder that neither sees the challenge nor fails keeps the
      process waiting. */
  lemma WaitingResponderHangs(inp: Inputs, tools: CertificateTools)
    ensures SetupOf(inp).outcome == Success && inp.validationLaunched
            && Serve(ChallengePath(inp.token), inp.keyAuthorization, inp.requests).end == Waiting ==>
      Orchestrate(inp, tools).exit == Hung
  {
  }

  /** After the challenge was answered, a foreign answer id during teardown
      panics the process, and a teardown left waiting hangs it. */
  lemma TeardownFaultEndsRun(inp: Inputs, tools: CertificateTools)
    ensures ChallengeAnswered(inp) && TeardownOf(inp).outcome == Abort ==>
      Orchestrate(inp, tools).exit == Panicked(AnswerIdMismatch)
    ensures ChallengeAnswered(inp) && TeardownOf(inp).outcome == Stalled ==>
      Orchestrate(inp, tools).exit == Hung
  {
    if ChallengeAnswered(inp) {
      AnsweredRunsAfterChallenge(inp, tools);
    }
  }

  /** After a decided teardown and a saved certificate, a foreign answer id
      during the install panics the process, and an install left waiting
      hangs it. */
  lemma InstallFaultEndsRun(inp: Inputs, tools: CertificateTools)
    ensures ChallengeAnswered(inp) && inp.certificateSaved && Decided(TeardownOf(inp).outcome)
            && InstallOf(inp, tools).outcome == Abort ==>
      Orchestrate(inp, tools).exit == Panicked(AnswerIdMismatch)
    ensures ChallengeAnswered(inp) && inp.certificateSaved && Decided(TeardownOf(inp).outcome)
            && InstallOf(inp, tools).outcome == Stalled ==>
      Orchestrate(inp, tools).exit == Hung
  {
    if ChallengeAnswered(inp) {
      AnsweredRunsAfterChallenge(inp, tools);
    }
  }
}
