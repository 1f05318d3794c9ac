/**
 * The dispatch of one registry endpoint call as a function of the client's fields, the
 * provider and the transport's scripted answers: URL choice, the request sent, the
 * classification of failures and the following of temporary redirects.
 */
module Endpoint {
  import opened RegistryTypes
  import opened ApiRoutes

  /** The read-only fields of a registry client. */
  datatype Target = Target(authorization: Option<Authorization>, serverUrl: string, imageName: string)

  /** The outcome of a call: its result, the requests it issued, the answers left unread. */
  datatype Exchange<T> = Exchange(result: Result<T>, sent: seq<Issued>, rest: seq<Outcome>)

  /** An answer that the client follows: a temporary redirect that names where to go. */
  predicate FollowsRedirect(o: Outcome) {
    o.HttpFail? && o.failure.status == 307 && o.failure.location.Some?
  }

  /** Bad request, not found, method not allowed: the registry explains why in the body. */
  predicate RejectedStatus(status: int) {
    status == 400 || status == 404 || status == 405
  }

  /** Unauthorized, forbidden: the credential is missing or not enough. */
  predicate DeniedStatus(status: int) {
    status == 401 || status == 403
  }

  /** The URL a call goes to: the one given, or else the provider's default route. */
  function TargetUrl<T>(t: Target, url: Option<string>, p: Provider<T>): string {
    if url.None? then ApiRoute(t.serverUrl, t.imageName, p.routeSuffix) else url.value
  }

  /** The request every attempt of a call sends. */
  function RequestFor<T>(t: Target, p: Provider<T>): Request {
    Request(t.authorization, p.payload)
  }

  /**
   * The result of a call that stops at answer o (o is not a redirect that is followed): a
   * reply goes to the handler; 400, 404 and 405 give a registry error built from the parsed
   * body; 401 and 403 give unauthorized whatever the body; a 307 without a Location cannot
   * become a URL; every other status is passed on as it came.
   */
  function Settle<T>(t: Target, p: Provider<T>, o: Outcome): (r: Result<T>)
    requires !FollowsRedirect(o)
    ensures r.Ok? <==> o.Reply? && p.handle(o.response).Value?
    ensures r.Ok? ==> p.handle(o.response) == Value(r.value)
    ensures r.Err? && r.error.RegistryError? <==>
      o.HttpFail? && RejectedStatus(o.failure.status) && o.failure.content.Parsed?
    ensures r.Err? && r.error.RegistryError? ==>
      r.error.action == p.describe(t.serverUrl, t.imageName) &&
      r.error.reasons == o.failure.content.errors && r.error.cause == o.failure
    ensures r.Err? && r.error.Unauthorized? <==> o.HttpFail? && DeniedStatus(o.failure.status)
    ensures r.Err? && r.error.Propagated? <==>
      o.HttpFail? && !RejectedStatus(o.failure.status) && !DeniedStatus(o.failure.status) && o.failure.status != 307
    ensures r.Err? && r.error.Unauthorized? ==> r.error.cause == o.failure
    ensures r.Err? && r.error.Propagated? ==> r.error.failure == o.failure
    ensures r == Err(NoResponse) <==> o == NoHttpResponse
    ensures r.Err? && r.error.ErrorBodyUnreadable? <==>
      o.HttpFail? && RejectedStatus(o.failure.status) && o.failure.content.Malformed?
    ensures r.Err? && r.error.ErrorBodyUnreadable? ==> r.error.cause == o.failure
    ensures o.HttpFail? && o.failure.status == 307 ==> r == Err(MalformedUrl)
    ensures o.TransportFailure? ==> r == Err(Io(o.detail))
    ensures o.Reply? && p.handle(o.response).ParseFailed? ==> r == Err(HandlerFailed(p.handle(o.response).detail))
  {
    match o
    case Reply(response) =>
      (match p.handle(response)
       case Value(v) => Ok(v)
       case ParseFailed(d) => Err(HandlerFailed(d)))
    case HttpFail(f) =>
      if RejectedStatus(f.status) then
        (match f.content
         case Parsed(es) => Err(RegistryError(p.describe(t.serverUrl, t.imageName), es, f))
         case Malformed => Err(ErrorBodyUnreadable(f)))
      else if DeniedStatus(f.status) then Err(Unauthorized(f))
      else if f.status == 307 then Err(MalformedUrl)
      else Err(Propagated(f))
    case NoHttpResponse => Err(NoResponse)
    case TransportFailure(d) => Err(Io(d))
  }

  /** The answer that settled a call: the one given to its last request. */
  function Settling<T>(script: seq<Outcome>, x: Exchange<T>): Outcome
    requires |x.sent| >= 1
  {
    Next(Drop(script, |x.sent| - 1))
  }

  /**
   * One call of an endpoint against the scripted answers: every attempt goes out with the
   * provider's method and request; each followed redirect re-issues it at the Location URL.
   */
  function Dispatch<T>(t: Target, url: Option<string>, p: Provider<T>, script: seq<Outcome>): (x: Exchange<T>)
    decreases |script|
    ensures 1 <= |x.sent| <= |script| + 1
    ensures x.rest == Drop(script, |x.sent|)
    ensures x.sent[0] == Issued(if url.None? then ApiRoute(t.serverUrl, t.imageName, p.routeSuffix) else url.value,
                                p.httpMethod, Request(t.authorization, p.payload))
  {
    var issued := Issued(TargetUrl(t, url, p), p.httpMethod, RequestFor(t, p));
    var o := Next(script);
    if FollowsRedirect(o) then
      var x := Dispatch(t, Some(o.failure.location.value), p, Rest(script));
      DropSucc(script, |x.sent|);
      DropSucc(script, |x.sent| - 1);
      Exchange(x.result, [issued] + x.sent, x.rest)
    else
      Exchange(Settle(t, p, o), [issued], Rest(script))
  }

  /** A call ends on its last answer, which is not a followed redirect, and takes that answer's result. */
  lemma {:induction false} DispatchSettles<T>(t: Target, url: Option<string>, p: Provider<T>, script: seq<Outcome>)
    ensures var x := Dispatch(t, url, p, script);
            !FollowsRedirect(Settling(script, x)) && x.result == Settle(t, p, Settling(script, x))
    decreases |script|
  {
    var x := Dispatch(t, url, p, script);
    var o := Next(script);
    if FollowsRedirect(o) {
      var loc := Some(o.failure.location.value);
      var y := Dispatch(t, loc, p, Rest(script));
      DispatchSettles(t, loc, p, Rest(script));
      DropSucc(script, |y.sent| - 1);
    } else {
      assert Drop(script, 0) == script;
    }
  }

  /**
   * Every attempt of a call goes out with the provider's method and the same request, the
   * credential attached exactly when the client has one; every attempt but the last was
   * answered by a followed redirect, and the next attempt goes to its Location.
   */
  lemma {:induction false} EveryAttemptAlike<T>(t: Target, url: Option<string>, p: Provider<T>, script: seq<Outcome>)
    ensures var x := Dispatch(t, url, p, script);
            forall i | 0 <= i < |x.sent| ::
              x.sent[i].httpMethod == p.httpMethod && x.sent[i].request == Request(t.authorization, p.payload)
    ensures var x := Dispatch(t, url, p, script);
            forall i | 0 <= i < |x.sent| - 1 ::
              FollowsRedirect(script[i]) && x.sent[i + 1].url == script[i].failure.location.value
    decreases |script|
  {
    var x := Dispatch(t, url, p, script);
    var o := Next(script);
    if FollowsRedirect(o) {
      var loc := Some(o.failure.location.value);
      var y := Dispatch(t, loc, p, Rest(script));
      EveryAttemptAlike(t, loc, p, Rest(script));
      assert x.sent == [x.sent[0]] + y.sent;
      forall i | 0 <= i < |x.sent| - 1
        ensures FollowsRedirect(script[i]) && x.sent[i + 1].url == script[i].failure.location.value
      {
        if i > 0 {
          assert script[i] == Rest(script)[i - 1];
        }
      }
    }
  }

  /**
   * A followed redirect re-issues the call with the same provider at the Location URL: the
   * call sends its first attempt and then exactly what the redirected call sends, and ends
   * with the redirected call's result and unread answers.
   */
  lemma RedirectFollowed<T>(t: Target, url: Option<string>, p: Provider<T>, script: seq<Outcome>)
    requires FollowsRedirect(Next(script))
    ensures var x := Dispatch(t, url, p, script);
            var location := script[0].failure.location.value;
            var y := Dispatch(t, Some(location), p, script[1..]);
            x.result == y.result && x.rest == y.rest && x.sent == [x.sent[0]] + y.sent &&
            y.sent[0] == Issued(location, x.sent[0].httpMethod, x.sent[0].request)
  {
  }

  /** A call whose first answer is not a followed redirect issues one request and settles on it. */
  lemma SettledAtOnce<T>(t: Target, url: Option<string>, p: Provider<T>, script: seq<Outcome>)
    requires !FollowsRedirect(Next(script))
    ensures var x := Dispatch(t, url, p, script);
            |x.sent| == 1 && x.result == Settle(t, p, Next(script))
  {
    assert Drop(script, 0) == script;
  }

  /**
   * A chain of k followed redirects and then a final answer: the call issues k + 1 requests
   * and its result is the one the final answer settles.
   */
  lemma {:induction false} RedirectChainTransparent<T>(t: Target, url: Option<string>, p: Provider<T>, script: seq<Outcome>, k: nat)
    requires k <= |script|
    requires forall i | 0 <= i < k :: FollowsRedirect(script[i])
    requires !FollowsRedirect(Next(Drop(script, k)))
    ensures var x := Dispatch(t, url, p, script);
            |x.sent| == k + 1 && x.rest == Drop(script, k + 1) &&
            x.result == Settle(t, p, Next(Drop(script, k)))
    decreases k
  {
    if k == 0 {
      SettledAtOnce(t, url, p, script);
      assert Drop(script, 0) == script;
    } else {
      var loc := Some(script[0].failure.location.value);
      RedirectChainTransparent(t, loc, p, script[1..], k - 1);
      assert Drop(script[1..], k - 1) == Drop(script, k);
      DropSucc(script, k);
    }
  }

  /** A call reads only the answers to its own requests: later answers change nothing. */
  lemma {:induction false} IgnoresLaterAnswers<T>(t: Target, url: Option<string>, p: Provider<T>, script: seq<Outcome>, more: seq<Outcome>)
    requires |Dispatch(t, url, p, script).sent| <= |script|
    ensures var x := Dispatch(t, url, p, script);
            Dispatch(t, url, p, script + more) == Exchange(x.result, x.sent, x.rest + more)
    decreases |script|
  {
    var x := Dispatch(t, url, p, script);
    var o := Next(script);
    assert script != [];
    assert (script + more)[0] == o;
    assert (script + more)[1..] == script[1..] + more;
    if FollowsRedirect(o) {
      var loc := Some(o.failure.location.value);
      IgnoresLaterAnswers(t, loc, p, script[1..], more);
    }
  }

  /**
   * Calling the same endpoint twice against a server that answers both calls alike gives
   * equal results: the client keeps no state between calls.
   */
  lemma RepeatedCallAgrees<T>(t: Target, url: Option<string>, p: Provider<T>, answers: seq<Outcome>, more: seq<Outcome>)
    requires |Dispatch(t, url, p, answers).sent| == |answers|
    ensures var first := Dispatch(t, url, p, answers + (answers + more));
            var second := Dispatch(t, url, p, first.rest);
            first.result == second.result && first.sent == second.sent && second.rest == more
  {
    var x := Dispatch(t, url, p, answers);
    DropAll(answers);
    assert x.rest == [];
    IgnoresLaterAnswers(t, url, p, answers, answers + more);
    assert Dispatch(t, url, p, answers + (answers + more)).rest == answers + more;
    IgnoresLaterAnswers(t, url, p, answers, more);
  }

  /**
   * A temporary redirect to u2 and then a reply: exactly two requests, the second to u2 with
   * the first one's method and request, and the result is the handler's reading of the reply.
   */
  lemma RedirectThenReply<T>(t: Target, url: Option<string>, p: Provider<T>, u2: string, content: ErrorBody, response: Response)
    ensures var x := Dispatch(t, url, p, [HttpFail(HttpFailure(307, Some(u2), content)), Reply(response)]);
            |x.sent| == 2 && x.sent[1] == Issued(u2, x.sent[0].httpMethod, x.sent[0].request) && x.rest == [] &&
            x.result == (match p.handle(response) case Value(v) => Ok(v) case ParseFailed(d) => Err(HandlerFailed(d)))
  {
    var script := [HttpFail(HttpFailure(307, Some(u2), content)), Reply(response)];
    assert script[1..] == [Reply(response)];
  }

  /** A 404 whose body lists one entry fails with a registry error carrying that one reason. */
  lemma NotFoundCarriesReason<T>(t: Target, url: Option<string>, p: Provider<T>, location: Option<string>, code: string, message: string)
    ensures var f := HttpFailure(404, location, Parsed([ErrorEntry(code, message)]));
            Dispatch(t, url, p, [HttpFail(f)]).result ==
              Err(RegistryError(p.describe(t.serverUrl, t.imageName), [ErrorEntry(code, message)], f))
  {
  }
}
