/** The compound operations built from single orders: installing and
    removing the temporary challenge route, and installing the certificate.
    Each is a short-circuit conjunction of two orders. */
module Proxying {
  import opened Messages
  import opened Orders

  /** The ids the two `generate_id` calls of a compound operation return
      (the second is unused when the second order is never sent). */
  datatype IdPair = IdPair(first: string, second: string)

  /** What a chain of orders did: how it ended, the envelopes it wrote to
      the channel in order, and the reads it left unconsumed. */
  datatype Run = Run(outcome: Outcome, sent: seq<Envelope>, rest: seq<Read>)

  /** A run that touched nothing: used when a step fails before any order is written. */
  function NoOrder(script: seq<Read>): Run
  {
    Run(Failure, [], script)
  }

  /** `first && second`: the second order is written only when the first
      one returned true. */
  function Both(ids: IdPair, first: Order, second: Order, script: seq<Read>): (r: Run)
    ensures |r.rest| <= |script| && r.rest == script[|script| - |r.rest|..]
  {
    var r1 := OrderCommand(ids.first, first, script);
    if r1.outcome == Success then
      var r2 := OrderCommand(ids.second, second, r1.rest);
      Run(r2.outcome, [Envelope(ids.first, first), Envelope(ids.second, second)], r2.rest)
    else
      Run(r1.outcome, [Envelope(ids.first, first)], r1.rest)
  }

  /** Short-circuit semantics of `Both`: the first order is always written;
      the second exactly when the first succeeded; a failing, aborting or
      stalled first order ends the chain with that same outcome; after a
      successful first order the chain ends as the second order does. */
  lemma BothShortCircuits(ids: IdPair, first: Order, second: Order, script: seq<Read>)
    ensures var r := Both(ids, first, second, script);
      var r1 := OrderCommand(ids.first, first, script);
      && 1 <= |r.sent| <= 2
      && r.sent[0] == Envelope(ids.first, first)
      && (|r.sent| == 2 <==> r1.outcome == Success)
      && (|r.sent| == 2 ==> r.sent[1] == Envelope(ids.second, second))
      && (r1.outcome != Success ==> r.outcome == r1.outcome && r.rest == r1.rest)
      && (r1.outcome == Success ==>
            var r2 := OrderCommand(ids.second, second, r1.rest);
            r.outcome == r2.outcome && r.rest == r2.rest)
      && (r.outcome == Success <==>
            r1.outcome == Success && OrderCommand(ids.second, second, r1.rest).outcome == Success)
  {
  }

  /** Request `ids.first` is confirmed by the read at `i`, and request
      `ids.second` by the read at `j` of what follows it. */
  predicate BothConfirmed(ids: IdPair, script: seq<Read>, i: int, j: int)
  {
    ConfirmedAt(ids.first, script, i) && ConfirmedAt(ids.second, script[i + 1..], j)
  }

  /** Both orders of the chain succeed exactly when the first decisive read
      for the first id is its Ok, and the first decisive read after that for
      the second id is its Ok. */
  lemma BothSucceedsIff(ids: IdPair, first: Order, second: Order, script: seq<Read>)
    ensures Both(ids, first, second, script).outcome == Success <==>
      exists i, j :: BothConfirmed(ids, script, i, j)
  {
    BothShortCircuits(ids, first, second, script);
    OrderSucceedsIff(ids.first, first, script);
    if Both(ids, first, second, script).outcome == Success {
      var i :| ConfirmedAt(ids.first, script, i);
      ConfirmedLeavesRest(ids.first, first, script, i);
      OrderSucceedsIff(ids.second, second, script[i + 1..]);
      var j :| ConfirmedAt(ids.second, script[i + 1..], j);
      assert BothConfirmed(ids, script, i, j);
    }
    forall i0, j0 | BothConfirmed(ids, script, i0, j0)
      ensures Both(ids, first, second, script).outcome == Success
    {
      ConfirmedLeavesRest(ids.first, first, script, i0);
      ConfirmedLeavesRest(ids.second, second, script[i0 + 1..], j0);
    }
  }

  /** The backend pointing at the challenge responder. */
  function ChallengeBackend(appId: string, address: SocketAddr): Backend
  {
    Backend(appId, BackendId(appId), address.ip, address.port)
  }

  /** The removal request for the challenge backend. */
  function ChallengeBackendRemoval(appId: string, address: SocketAddr): (b: RemoveBackend)
    ensures Withdraws(b, ChallengeBackend(appId, address))
  {
    RemoveBackend(appId, BackendId(appId), address.ip, address.port)
  }

  /** Installs the route to the challenge responder: AddHttpFront, then
      AddBackend only if the front was added. */
  function SetUpProxying(appId: string, hostname: string, pathBegin: string, address: SocketAddr,
                         ids: IdPair, script: seq<Read>): (r: Run)
    ensures |r.sent| >= 1 && r.sent[0] == Envelope(ids.first, AddHttpFront(HttpFront(appId, hostname, pathBegin)))
    ensures (|r.sent| == 2) == (OrderCommand(ids.first, r.sent[0].order, script).outcome == Success)
    ensures |r.sent| <= 2
    ensures |r.sent| == 2 ==> r.sent[1] == Envelope(ids.second, AddBackend(ChallengeBackend(appId, address)))
    ensures r.outcome == Success ==> |r.sent| == 2
  {
    BothShortCircuits(ids, AddHttpFront(HttpFront(appId, hostname, pathBegin)),
                      AddBackend(ChallengeBackend(appId, address)), script);
    Both(ids, AddHttpFront(HttpFront(appId, hostname, pathBegin)),
         AddBackend(ChallengeBackend(appId, address)), script)
  }

  /** Removes the route to the challenge responder: RemoveHttpFront, then
      RemoveBackend only if the front was removed. */
  function RemoveProxying(appId: string, hostname: string, pathBegin: string, address: SocketAddr,
                          ids: IdPair, script: seq<Read>): (r: Run)
    ensures |r.sent| >= 1 && r.sent[0] == Envelope(ids.first, RemoveHttpFront(HttpFront(appId, hostname, pathBegin)))
    ensures (|r.sent| == 2) == (OrderCommand(ids.first, r.sent[0].order, script).outcome == Success)
    ensures |r.sent| <= 2
    ensures |r.sent| == 2 ==> r.sent[1] == Envelope(ids.second, RemoveBackendOrder(ChallengeBackendRemoval(appId, address)))
    ensures r.outcome == Success ==> |r.sent| == 2
  {
    BothShortCircuits(ids, RemoveHttpFront(HttpFront(appId, hostname, pathBegin)),
                      RemoveBackendOrder(ChallengeBackendRemoval(appId, address)), script);
    Both(ids, RemoveHttpFront(HttpFront(appId, hostname, pathBegin)),
         RemoveBackendOrder(ChallengeBackendRemoval(appId, address)), script)
  }

  /** Setup returns true exactly when AddHttpFront returned true and then
      AddBackend, read from what followed, returned true as well; otherwise
      it ends as the first order that did not return true. */
  lemma SetUpProxyingIsConjunction(appId: string, hostname: string, pathBegin: string, address: SocketAddr,
                                   ids: IdPair, script: seq<Read>)
    ensures var front := OrderCommand(ids.first, AddHttpFront(HttpFront(appId, hostname, pathBegin)), script);
      SetUpProxying(appId, hostname, pathBegin, address, ids, script).outcome == Success <==>
        && front.outcome == Success
        && OrderCommand(ids.second, AddBackend(ChallengeBackend(appId, address)), front.rest).outcome == Success
    ensures var front := OrderCommand(ids.first, AddHttpFront(HttpFront(appId, hostname, pathBegin)), script);
      var r := SetUpProxying(appId, hostname, pathBegin, address, ids, script);
      && (front.outcome != Success ==> r.outcome == front.outcome)
      && (front.outcome == Success ==> r.outcome == OrderCommand(ids.second, AddBackend(ChallengeBackend(appId, address)), front.rest).outcome)
  {
    BothShortCircuits(ids, AddHttpFront(HttpFront(appId, hostname, pathBegin)),
                      AddBackend(ChallengeBackend(appId, address)), script);
  }

  /** Teardown returns true exactly when RemoveHttpFront returned true and
      then RemoveBackend, read from what followed, returned true as well;
      otherwise it ends as the first order that did not return true. */
  lemma RemoveProxyingIsConjunction(appId: string, hostname: string, pathBegin: string, address: SocketAddr,
                                    ids: IdPair, script: seq<Read>)
    ensures var front := OrderCommand(ids.first, RemoveHttpFront(HttpFront(appId, hostname, pathBegin)), script);
      RemoveProxying(appId, hostname, pathBegin, address, ids, script).outcome == Success <==>
        && front.outcome == Success
        && OrderCommand(ids.second, RemoveBackendOrder(ChallengeBackendRemoval(appId, address)), front.rest).outcome == Success
    ensures var front := OrderCommand(ids.first, RemoveHttpFront(HttpFront(appId, hostname, pathBegin)), script);
      var r := RemoveProxying(appId, hostname, pathBegin, address, ids, script);
      && (front.outcome != Success ==> r.outcome == front.outcome)
      && (front.outcome == Success ==> r.outcome == OrderCommand(ids.second, RemoveBackendOrder(ChallengeBackendRemoval(appId, address)), front.rest).outcome)
  {
    BothShortCircuits(ids, RemoveHttpFront(HttpFront(appId, hostname, pathBegin)),
                      RemoveBackendOrder(ChallengeBackendRemoval(appId, address)), script);
  }

  /** Teardown undoes setup: for the same arguments, the front removed is
      the front added and the backend removed is the backend added, under
      the backend id derived from the application id. */
  lemma RemovalMatchesSetUp(appId: string, hostname: string, pathBegin: string, address: SocketAddr,
                            setupIds: IdPair, teardownIds: IdPair, s1: seq<Read>, s2: seq<Read>)
    requires |SetUpProxying(appId, hostname, pathBegin, address, setupIds, s1).sent| == 2
    requires |RemoveProxying(appId, hostname, pathBegin, address, teardownIds, s2).sent| == 2
    ensures var up := SetUpProxying(appId, hostname, pathBegin, address, setupIds, s1).sent;
      var down := RemoveProxying(appId, hostname, pathBegin, address, teardownIds, s2).sent;
      && up[0].order.AddHttpFront? && down[0].order.RemoveHttpFront?
      && up[0].order.front == down[0].order.front
      && up[1].order.AddBackend? && down[1].order.RemoveBackendOrder?
      && Withdraws(down[1].order.removal, up[1].order.backend)
      && up[1].order.backend.backendId == appId + "-0"
  {
  }

  /** The file store as this tool reads it: a path maps to its contents, a
      path that does not load is absent. */
  type Files = map<string, string>

  /** The foreign certificate helpers: fingerprint computation (which may
      fail) and chain splitting. */
  datatype CertificateTools = CertificateTools(
    fingerprintOf: string -> Option<seq<byte>>,
    splitChain: string -> seq<string>)

  /** True when every load and the fingerprint succeed, so that orders are sent. */
  predicate MaterialLoads(files: Files, tools: CertificateTools,
                          certificatePath: string, chainPath: string, keyPath: string)
  {
    && certificatePath in files
    && tools.fingerprintOf(files[certificatePath]).Some?
    && chainPath in files
    && keyPath in files
  }

  /** Loads the certificate, its fingerprint, the chain and the key; then
      AddCertificate for the hostname, and AddHttpsFront bound to that
      fingerprint only if the certificate was added. Any failing load
      returns false without writing to the channel. */
  function AddCertificateRun(appId: string, hostname: string, pathBegin: string,
                             certificatePath: string, chainPath: string, keyPath: string,
                             files: Files, tools: CertificateTools, ids: IdPair, script: seq<Read>): (r: Run)
  {
    if certificatePath !in files then NoOrder(script)
    else
      var certificate := files[certificatePath];
      match tools.fingerprintOf(certificate)
      case None => NoOrder(script)
      case Some(fingerprint) =>
        if chainPath !in files then NoOrder(script)
        else
          var chain := tools.splitChain(files[chainPath]);
          if keyPath !in files then NoOrder(script)
          else
            var addition := AddCertificateOrder(AddCertificate(
              CertificateAndKey(certificate, chain, files[keyPath]), [hostname]));
            var front := AddHttpsFront(HttpsFront(appId, hostname, pathBegin, fingerprint));
            Both(ids, addition, front, script)
  }

  /** Any failing load or fingerprint returns false without writing to the
      channel or consuming a read. */
  lemma AddCertificateLoadFailure(appId: string, hostname: string, pathBegin: string,
                                  certificatePath: string, chainPath: string, keyPath: string,
                                  files: Files, tools: CertificateTools, ids: IdPair, script: seq<Read>)
    requires !MaterialLoads(files, tools, certificatePath, chainPath, keyPath)
    ensures AddCertificateRun(appId, hostname, pathBegin, certificatePath, chainPath, keyPath,
                              files, tools, ids, script) == Run(Failure, [], script)
  {
  }

  /** With everything loaded, AddCertificate carries the loaded certificate,
      split chain and key for the single name `hostname`; AddHttpsFront,
      bound to the certificate's fingerprint, is written only if the
      certificate was added; the install ends as the first of the two orders
      that did not return true, and succeeds only if both did. */
  lemma AddCertificateOrders(appId: string, hostname: string, pathBegin: string,
                             certificatePath: string, chainPath: string, keyPath: string,
                             files: Files, tools: CertificateTools, ids: IdPair, script: seq<Read>)
    requires MaterialLoads(files, tools, certificatePath, chainPath, keyPath)
    ensures var r := AddCertificateRun(appId, hostname, pathBegin, certificatePath, chainPath, keyPath,
                                       files, tools, ids, script);
      && 1 <= |r.sent| <= 2
      && r.sent[0] == Envelope(ids.first, AddCertificateOrder(AddCertificate(
           CertificateAndKey(files[certificatePath], tools.splitChain(files[chainPath]), files[keyPath]),
           [hostname])))
      && (|r.sent| == 2 <==> OrderCommand(ids.first, r.sent[0].order, script).outcome == Success)
      && (var r1 := OrderCommand(ids.first, r.sent[0].order, script);
          && (r1.outcome != Success ==> r.outcome == r1.outcome && r.rest == r1.rest)
          && (|r.sent| == 2 ==>
                var r2 := OrderCommand(ids.second, r.sent[1].order, r1.rest);
                r.outcome == r2.outcome && r.rest == r2.rest))
      && (|r.sent| == 2 ==> r.sent[1] == Envelope(ids.second, AddHttpsFront(HttpsFront(
           appId, hostname, pathBegin, tools.fingerprintOf(files[certificatePath]).value))))
      && (r.outcome == Success <==>
            |r.sent| == 2 && OrderCommand(ids.second, r.sent[1].order,
                                          OrderCommand(ids.first, r.sent[0].order, script).rest).outcome == Success)
  {
    var addition := InstalledCertificate(hostname, certificatePath, chainPath, keyPath, files, tools);
    var front := InstalledFront(appId, hostname, pathBegin, certificatePath, files, tools);
    assert AddCertificateRun(appId, hostname, pathBegin, certificatePath, chainPath, keyPath, files, tools, ids, script)
        == Both(ids, addition, front, script);
    BothShortCircuits(ids, addition, front, script);
  }

  /** The AddCertificate order for loaded material. */
  function InstalledCertificate(hostname: string, certificatePath: string, chainPath: string, keyPath: string,
                                files: Files, tools: CertificateTools): Order
    requires certificatePath in files && chainPath in files && keyPath in files
  {
    AddCertificateOrder(AddCertificate(
      CertificateAndKey(files[certificatePath], tools.splitChain(files[chainPath]), files[keyPath]), [hostname]))
  }

  /** The AddHttpsFront order bound to the loaded certificate's fingerprint. */
  function InstalledFront(appId: string, hostname: string, pathBegin: string, certificatePath: string,
                          files: Files, tools: CertificateTools): Order
    requires certificatePath in files && tools.fingerprintOf(files[certificatePath]).Some?
  {
    AddHttpsFront(HttpsFront(appId, hostname, pathBegin, tools.fingerprintOf(files[certificatePath]).value))
  }

  /** The install returns true exactly when its material loads, the
      AddCertificate request is confirmed by its first decisive answer, and
      the AddHttpsFront request by the first decisive answer after that. */
  lemma AddCertificateSucceedsIff(appId: string, hostname: string, pathBegin: string,
                                  certificatePath: string, chainPath: string, keyPath: string,
                                  files: Files, tools: CertificateTools, ids: IdPair, script: seq<Read>)
    ensures AddCertificateRun(appId, hostname, pathBegin, certificatePath, chainPath, keyPath,
                              files, tools, ids, script).outcome == Success <==>
      MaterialLoads(files, tools, certificatePath, chainPath, keyPath) && exists i, j :: BothConfirmed(ids, script, i, j)
  {
    if MaterialLoads(files, tools, certificatePath, chainPath, keyPath) {
      var addition := InstalledCertificate(hostname, certificatePath, chainPath, keyPath, files, tools);
      var front := InstalledFront(appId, hostname, pathBegin, certificatePath, files, tools);
      assert AddCertificateRun(appId, hostname, pathBegin, certificatePath, chainPath, keyPath, files, tools, ids, script)
          == Both(ids, addition, front, script);
      BothSucceedsIff(ids, addition, front, script);
    } else {
      AddCertificateLoadFailure(appId, hostname, pathBegin, certificatePath, chainPath, keyPath, files, tools, ids, script);
    }
  }
}
