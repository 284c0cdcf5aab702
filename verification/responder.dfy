/** The challenge responder: a single-shot HTTP server that answers the one
    well-known challenge path with the key authorization and stops. Only the
    sequential body of its loop is modelled; the requests it receives are a
    finite script. */
module Responder {
  import opened Messages

  const ChallengePrefix: string := "/.well-known/acme-challenge/"

  /** The URL path the certificate authority fetches for a token. */
  function ChallengePath(token: string): (path: string)
    ensures |path| == |ChallengePrefix| + |token|
    ensures path[..|ChallengePrefix|] == ChallengePrefix
  {
    ChallengePrefix + token
  }

  /** The token a challenge path carries, or None for any other path. */
  function TokenOf(path: string): (t: Option<string>)
    ensures t.Some? <==> |path| >= |ChallengePrefix| && path[..|ChallengePrefix|] == ChallengePrefix
  {
    if |path| >= |ChallengePrefix| && path[..|ChallengePrefix|] == ChallengePrefix
    then Some(path[|ChallengePrefix|..]) else None
  }

  /** Building a challenge path from a token and reading it back agree, so
      distinct tokens never share a path. */
  lemma ChallengePathRoundTrip(token: string, path: string)
    ensures TokenOf(ChallengePath(token)) == Some(token)
    ensures TokenOf(path) == Some(token) ==> ChallengePath(token) == path
  {
    assert ChallengePath(token)[|ChallengePrefix|..] == token;
    if TokenOf(path) == Some(token) {
      assert path == path[..|ChallengePrefix|] + path[|ChallengePrefix|..];
    }
  }

  /** One result of `server.recv()`: a request for a URL, or a receive error. */
  datatype Request = Received(url: string) | ReceiveError

  datatype HttpResponse = HttpResponse(status: nat, body: string)

  const NotFound: HttpResponse := HttpResponse(404, "not found")

  /** How the serve loop ends: it answered the challenge (`true`), it hit a
      receive error (`false`), or it ran out of requests and is still
      blocked in `recv`. */
  datatype ServeEnd = Answered | Failed | Waiting

  /** The loop's result: how it ended, the responses it wrote in order, and
      how many requests it took from the script. */
  datatype Served = Served(end: ServeEnd, responses: seq<HttpResponse>, handled: nat)

  /** A request that ends the loop. */
  predicate Stops(path: string, rq: Request)
  {
    rq.ReceiveError? || rq.url == path
  }

  function Serve(path: string, keyAuthorization: string, requests: seq<Request>): (s: Served)
    ensures s.handled <= |requests|
    ensures s.end == Waiting ==> s.handled == |requests|
    decreases |requests|
  {
    if |requests| == 0 then Served(Waiting, [], 0)
    else match requests[0]
      case ReceiveError => Served(Failed, [], 1)
      case Received(url) =>
        if url == path then Served(Answered, [HttpResponse(200, keyAuthorization)], 1)
        else
          var s := Serve(path, keyAuthorization, requests[1..]);
          Served(s.end, [NotFound] + s.responses, s.handled + 1)
  }

  /** Position of the first request that ends the loop, or |requests|. */
  function StopIndex(path: string, requests: seq<Request>): (i: nat)
    ensures i <= |requests|
    ensures forall k :: 0 <= k < i ==> !Stops(path, requests[k])
    ensures i < |requests| ==> Stops(path, requests[i])
    decreases |requests|
  {
    if |requests| == 0 || Stops(path, requests[0]) then 0
    else 1 + StopIndex(path, requests[1..])
  }

  function NotFounds(n: nat): (rs: seq<HttpResponse>)
    ensures |rs| == n && forall k :: 0 <= k < n ==> rs[k] == NotFound
  {
    seq(n, _ => NotFound)
  }

  /** The loop answers 404 to every request before the first stopping one;
      on the challenge path it answers 200 with the key authorization and
      returns true; on a receive error it returns false; with no stopping
      request it is still waiting, having answered everything with 404. */
  lemma {:induction false} ServeByFirstStop(path: string, keyAuthorization: string, requests: seq<Request>)
    ensures var i := StopIndex(path, requests);
      var s := Serve(path, keyAuthorization, requests);
      if i == |requests| then s == Served(Waiting, NotFounds(i), i)
      else if requests[i].ReceiveError? then s == Served(Failed, NotFounds(i), i + 1)
      else s == Served(Answered, NotFounds(i) + [HttpResponse(200, keyAuthorization)], i + 1)
    decreases |requests|
  {
    if |requests| > 0 && !Stops(path, requests[0]) {
      ServeByFirstStop(path, keyAuthorization, requests[1..]);
      var i' := StopIndex(path, requests[1..]);
      assert [NotFound] + NotFounds(i') == NotFounds(i' + 1);
      assert [NotFound] + (NotFounds(i') + [HttpResponse(200, keyAuthorization)])
          == NotFounds(i' + 1) + [HttpResponse(200, keyAuthorization)];
    }
  }

  /** Single shot: once the loop has stopped, requests arriving later are
      never handled. */
  lemma {:induction false} ServeIgnoresLaterRequests(path: string, keyAuthorization: string,
                                                     requests: seq<Request>, later: seq<Request>)
    requires Serve(path, keyAuthorization, requests).end != Waiting
    ensures Serve(path, keyAuthorization, requests + later) == Serve(path, keyAuthorization, requests)
    decreases |requests|
  {
    assert (requests + later)[0] == requests[0];
    if requests[0].Received? && requests[0].url != path {
      assert (requests + later)[1..] == requests[1..] + later;
      ServeIgnoresLaterRequests(path, keyAuthorization, requests[1..], later);
    }
  }

  /** A waiting loop picks up where it left off when more requests arrive. */
  lemma {:induction false} ServeResumes(path: string, keyAuthorization: string,
                                        requests: seq<Request>, later: seq<Request>)
    requires Serve(path, keyAuthorization, requests).end == Waiting
    ensures var s := Serve(path, keyAuthorization, requests);
      var t := Serve(path, keyAuthorization, later);
      Serve(path, keyAuthorization, requests + later)
        == Served(t.end, s.responses + t.responses, |requests| + t.handled)
    decreases |requests|
  {
    if |requests| == 0 {
      assert requests + later == later;
    } else {
      var s := Serve(path, keyAuthorization, requests);
      var s' := Serve(path, keyAuthorization, requests[1..]);
      assert requests[0].Received? && requests[0].url != path;
      assert s == Served(s'.end, [NotFound] + s'.responses, s'.handled + 1);
      assert (requests + later)[0] == requests[0];
      assert (requests + later)[1..] == requests[1..] + later;
      ServeResumes(path, keyAuthorization, requests[1..], later);
      assert [NotFound] + s'.responses + Serve(path, keyAuthorization, later).responses
          == [NotFound] + (s'.responses + Serve(path, keyAuthorization, later).responses);
    }
  }

  /** The serve loop of the responder thread in `main`, written as a loop. */
  method ServeLoop(path: string, keyAuthorization: string, requests: seq<Request>)
    returns (end: ServeEnd, responses: seq<HttpResponse>)
    ensures Serve(path, keyAuthorization, requests).end == end
    ensures Serve(path, keyAuthorization, requests).responses == responses
  {
    responses := [];
    var k := 0;
    while k < |requests|
      invariant 0 <= k <= |requests|
      invariant responses == NotFounds(k)
      invariant forall j :: 0 <= j < k ==> !Stops(path, requests[j])
      decreases |requests| - k
    {
      match requests[k] {
        case ReceiveError =>
          ServeByFirstStop(path, keyAuthorization, requests);
          assert StopIndex(path, requests) == k;
          return Failed, responses;
        case Received(url) =>
          if url == path {
            ServeByFirstStop(path, keyAuthorization, requests);
            assert StopIndex(path, requests) == k;
            return Answered, responses + [HttpResponse(200, keyAuthorization)];
          }
          responses := responses + [NotFound];
      }
      k := k + 1;
    }
    ServeByFirstStop(path, keyAuthorization, requests);
    assert StopIndex(path, requests) == |requests|;
    end := Waiting;
  }
}
