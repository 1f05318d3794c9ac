/**
 * The registry client: read-only server identity and credential, the dispatch of one
 * endpoint call over a connection per attempt, and the public operations built on it.
 */
module Client {
  import opened RegistryTypes
  import opened ApiRoutes
  import opened Endpoint
  import opened BlobUpload
  import opened Transport

  /**
   * The structured registry error for an action: one reason per parsed error entry, added
   * in the order the body lists them.
   */
  method BuildRegistryError(action: string, cause: HttpFailure, errors: seq<ErrorEntry>) returns (e: RegistryError)
    ensures e.RegistryError? && e.action == action && e.cause == cause
    ensures |e.reasons| == |errors|
    ensures forall i | 0 <= i < |errors| :: e.reasons[i] == errors[i]
  {
    var reasons: seq<ErrorEntry> := [];
    var i := 0;
    while i < |errors|
      invariant 0 <= i <= |errors|
      invariant reasons == errors[..i]
    {
      reasons := reasons + [errors[i]];
      i := i + 1;
    }
    assert errors[..i] == errors;
    e := RegistryError(action, reasons, cause);
  }

  lemma AppendAssoc(a: seq<Issued>, b: seq<Issued>, c: seq<Issued>)
    ensures a + b + c == a + (b + c)
  {
  }

  class RegistryClient {
    const authorization: Option<Authorization>
    const serverUrl: string
    const imageName: string

    constructor (authorization: Option<Authorization>, serverUrl: string, imageName: string)
      ensures this.authorization == authorization
      ensures this.serverUrl == serverUrl && this.imageName == imageName
    {
      this.authorization := authorization;
      this.serverUrl := serverUrl;
      this.imageName := imageName;
    }

    /** The client's fields as the dispatch specification takes them. */
    function Fields(): Target {
      Target(authorization, serverUrl, imageName)
    }

    /**
     * Calls an endpoint: at url, or at the provider's default route when there is none;
     * one connection per attempt, released before a failure is classified and before a
     * temporary redirect with a Location calls again with the same provider there. (The
     * response handler runs while the connection is still open; the model releases it
     * first, which no outcome here can tell apart.)
     */
    method CallRegistryEndpoint<T>(url: Option<string>, provider: Provider<T>, transport: ScriptedTransport)
      returns (r: Result<T>)
      requires transport.connectedTo.None?
      modifies transport
      ensures var x := Dispatch(Fields(), url, provider, old(transport.pending));
              r == x.result && transport.log == old(transport.log) + x.sent && transport.pending == x.rest &&
              transport.opens == old(transport.opens) + |x.sent|
      ensures transport.connectedTo.None?
      decreases |transport.pending|
    {
      ghost var log, script := transport.log, transport.pending;
      ghost var x := Dispatch(Fields(), url, provider, script);
      var target := if url.None? then ApiRoute(serverUrl, imageName, provider.routeSuffix) else url.value;
      transport.Open(target);
      var auth: Option<Authorization> := None;
      if authorization.Some? {
        auth := authorization;
      }
      var request := Request(auth, provider.payload);
      ghost var issued := Issued(target, provider.httpMethod, request);
      assert issued == Issued(TargetUrl(Fields(), url, provider), provider.httpMethod, RequestFor(Fields(), provider));
      var o := transport.Send(provider.httpMethod, request);
      transport.Close();
      assert transport.log == log + [issued];
      assert !FollowsRedirect(o) ==> x == Exchange(Settle(Fields(), provider, o), [issued], Rest(script));
      match o {
        case Reply(response) =>
          var handled := provider.handle(response);
          match handled {
            case Value(v) => r := Ok(v);
            case ParseFailed(d) => r := Err(HandlerFailed(d));
          }
        case HttpFail(f) =>
          if f.status == 400 || f.status == 404 || f.status == 405 {
            match f.content {
              case Malformed => r := Err(ErrorBodyUnreadable(f));
              case Parsed(errors) =>
                var action := provider.describe(serverUrl, imageName);
                var e := BuildRegistryError(action, f, errors);
                assert e.reasons == errors;
                r := Err(e);
            }
          } else if f.status == 401 || f.status == 403 {
            r := Err(Unauthorized(f));
          } else if f.status == 307 {
            match f.location {
              case None => r := Err(MalformedUrl);
              case Some(location) =>
                ghost var y := Dispatch(Fields(), Some(location), provider, Rest(script));
                assert x == Exchange(y.result, [issued] + y.sent, y.rest);
                r := CallRegistryEndpoint(Some(location), provider, transport);
                AppendAssoc(log, [issued], y.sent);
            }
          } else {
            r := Err(Propagated(f));
          }
        case NoHttpResponse => r := Err(NoResponse);
        case TransportFailure(d) => r := Err(Io(d));
      }
    }

    /** Pulls the manifest the puller names, at its default route. */
    method PullManifest<M>(puller: Provider<M>, transport: ScriptedTransport) returns (r: Result<M>)
      requires transport.connectedTo.None?
      modifies transport
      ensures var x := Dispatch(Fields(), None, puller, old(transport.pending));
              r == x.result && transport.log == old(transport.log) + x.sent && transport.pending == x.rest &&
              transport.opens == old(transport.opens) + |x.sent|
      ensures transport.connectedTo.None?
    {
      r := CallRegistryEndpoint(None, puller, transport);
    }

    /** Pushes the manifest the pusher carries, at its default route; the value is dropped. */
    method PushManifest(pusher: Provider<()>, transport: ScriptedTransport) returns (r: Result<()>)
      requires transport.connectedTo.None?
      modifies transport
      ensures var x := Dispatch(Fields(), None, pusher, old(transport.pending));
              r == x.result && transport.log == old(transport.log) + x.sent && transport.pending == x.rest &&
              transport.opens == old(transport.opens) + |x.sent|
      ensures transport.connectedTo.None?
    {
      r := CallRegistryEndpoint(None, pusher, transport);
    }

    /** Pulls the blob the puller names, at its default route, into the puller's destination. */
    method PullBlob<B>(puller: Provider<B>, transport: ScriptedTransport) returns (r: Result<B>)
      requires transport.connectedTo.None?
      modifies transport
      ensures var x := Dispatch(Fields(), None, puller, old(transport.pending));
              r == x.result && transport.log == old(transport.log) + x.sent && transport.pending == x.rest &&
              transport.opens == old(transport.opens) + |x.sent|
      ensures transport.connectedTo.None?
    {
      r := CallRegistryEndpoint(None, puller, transport);
    }

    /**
     * The write and commit phases of a blob push: write at the Location the initiate phase
     * returned, then commit at the URL derived from the Location the write returned.
     */
    method FinishUpload(pusher: BlobPusher, location: string, transport: ScriptedTransport) returns (r: Result<bool>)
      requires transport.connectedTo.None?
      modifies transport
      ensures var x := WriteAndCommit(Fields(), pusher, location, old(transport.pending));
              r == x.result && transport.log == old(transport.log) + x.sent && transport.pending == x.rest &&
              transport.opens == old(transport.opens) + |x.sent|
      ensures transport.connectedTo.None?
    {
      ghost var log := transport.log;
      ghost var y := WriteAndCommit(Fields(), pusher, location, transport.pending);
      ghost var w := Write(Fields(), pusher, location, transport.pending);
      var written := CallRegistryEndpoint(Some(location), pusher.writer, transport);
      if written.Err? {
        return Err(written.error);
      }
      if written.value.None? {
        return Err(MalformedUrl);
      }
      var next := written.value.value;
      ghost var c := Commit(Fields(), pusher, next, w.rest);
      var committed := CallRegistryEndpoint(Some(pusher.commitUrl(next)), pusher.committer, transport);
      assert y == Exchange(if c.result.Ok? then Ok(false) else Err(c.result.error), w.sent + c.sent, c.rest);
      AppendAssoc(log, w.sent, c.sent);
      if committed.Err? {
        return Err(committed.error);
      }
      return Ok(false);
    }

    /**
     * Pushes a blob: initiate at the default route; true when that returns no Location,
     * otherwise the write and commit phases at that Location, and false.
     */
    method PushBlob(pusher: BlobPusher, transport: ScriptedTransport) returns (r: Result<bool>)
      requires transport.connectedTo.None?
      modifies transport
      ensures var x := PushBlobExchange(Fields(), pusher, old(transport.pending));
              r == x.result && transport.log == old(transport.log) + x.sent && transport.pending == x.rest &&
              transport.opens == old(transport.opens) + |x.sent|
      ensures transport.connectedTo.None?
    {
      ghost var log := transport.log;
      ghost var i := Initiate(Fields(), pusher, transport.pending);
      var initiated := CallRegistryEndpoint(None, pusher.initializer, transport);
      if initiated.Err? {
        return Err(initiated.error);
      }
      if initiated.value.None? {
        return Ok(true);
      }
      var location := initiated.value.value;
      r := FinishUpload(pusher, location, transport);
      AppendAssoc(log, i.sent, WriteAndCommit(Fields(), pusher, location, i.rest).sent);
    }
  }
}
