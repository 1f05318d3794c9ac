/**
 * The three-phase blob push as a function of the scripted answers: initiate at the default
 * route, write at the Location the initiate phase returned, commit at the URL derived from
 * the Location the write phase returned. A missing Location after initiate means the blob
 * already exists and ends the push.
 */
module BlobUpload {
  import opened RegistryTypes
  import opened ApiRoutes
  import opened Endpoint

  /** The initiate phase: the initializer at its default route. */
  function Initiate(t: Target, b: BlobPusher, script: seq<Outcome>): Exchange<Option<string>> {
    Dispatch(t, None, b.initializer, script)
  }

  /** The write phase: the writer at the Location the initiate phase returned. */
  function Write(t: Target, b: BlobPusher, location: string, script: seq<Outcome>): Exchange<Option<string>> {
    Dispatch(t, Some(location), b.writer, script)
  }

  /** The commit phase: the committer at the commit URL derived from the write's Location. */
  function Commit(t: Target, b: BlobPusher, location: string, script: seq<Outcome>): Exchange<()> {
    Dispatch(t, Some(b.commitUrl(location)), b.committer, script)
  }

  /**
   * The write and commit phases of a push whose initiate phase returned location: false
   * once the commit succeeded; a failing phase ends with its error, and a write that
   * returns no Location cannot become the commit URL.
   */
  function WriteAndCommit(t: Target, b: BlobPusher, location: string, script: seq<Outcome>): (x: Exchange<bool>)
    ensures 1 <= |x.sent| && x.rest == Drop(script, |x.sent|)
    ensures x.sent[0] == Issued(location, b.writer.httpMethod, Request(t.authorization, b.writer.payload))
    ensures x.result != Ok(true)
    ensures var w := Write(t, b, location, script);
            x.result == Ok(false) <==>
              w.result.Ok? && w.result.value.Some? && Commit(t, b, w.result.value.value, w.rest).result.Ok?
    ensures var w := Write(t, b, location, script);
            w.result.Err? ==> x.result == Err(w.result.error) && x.sent == w.sent
    ensures var w := Write(t, b, location, script);
            w.result == Ok(None) ==> x.result == Err(MalformedUrl) && x.sent == w.sent
    ensures var w := Write(t, b, location, script);
            w.result.Ok? && w.result.value.Some? ==>
              var c := Commit(t, b, w.result.value.value, w.rest);
              x.sent == w.sent + c.sent &&
              x.sent[|w.sent|] == Issued(b.commitUrl(w.result.value.value), b.committer.httpMethod,
                                         Request(t.authorization, b.committer.payload)) &&
              (c.result.Err? ==> x.result == Err(c.result.error))
  {
    var w := Write(t, b, location, script);
    if w.result.Err? then Exchange(Err(w.result.error), w.sent, w.rest)
    else if w.result.value.None? then Exchange(Err(MalformedUrl), w.sent, w.rest)
    else
      var c := Commit(t, b, w.result.value.value, w.rest);
      DropAdd(script, |w.sent|, |c.sent|);
      Exchange(if c.result.Ok? then Ok(false) else Err(c.result.error), w.sent + c.sent, c.rest)
  }

  /**
   * One blob push: true when the initiate phase returned no Location (the blob already
   * exists), otherwise the write and commit phases at the Location it returned; a failing
   * initiate ends the push with its error.
   */
  function PushBlobExchange(t: Target, b: BlobPusher, script: seq<Outcome>): (x: Exchange<bool>)
    ensures 1 <= |x.sent| && x.rest == Drop(script, |x.sent|)
    ensures x.sent[0] == Issued(ApiRoute(t.serverUrl, t.imageName, b.initializer.routeSuffix),
                                b.initializer.httpMethod, Request(t.authorization, b.initializer.payload))
    ensures x.result == Ok(true) <==> Initiate(t, b, script).result == Ok(None)
    ensures x.result == Ok(true) ==> x.sent == Initiate(t, b, script).sent
    ensures Initiate(t, b, script).result.Err? ==>
              x.result == Err(Initiate(t, b, script).result.error) && x.sent == Initiate(t, b, script).sent
  {
    var i := Initiate(t, b, script);
    if i.result.Err? then Exchange(Err(i.result.error), i.sent, i.rest)
    else if i.result.value.None? then Exchange(Ok(true), i.sent, i.rest)
    else
      var y := WriteAndCommit(t, b, i.result.value.value, i.rest);
      DropAdd(script, |i.sent|, |y.sent|);
      assert (i.sent + y.sent)[0] == i.sent[0];
      assert y.result != Ok(true);
      Exchange(y.result, i.sent + y.sent, y.rest)
  }

  /**
   * A push that got a Location from initiate goes on with the write and commit phases
   * there: it issues initiate's requests and then theirs, the first of which is the write
   * at that Location, and it ends with their result, so false exactly when they succeed and
   * their error when one fails. (WriteAndCommit says where the commit goes and what
   * each failure gives.)
   */
  lemma PushBlobUploaded(t: Target, b: BlobPusher, script: seq<Outcome>)
    ensures var i := Initiate(t, b, script);
            PushBlobExchange(t, b, script).result == Ok(false) <==>
              i.result.Ok? && i.result.value.Some? &&
              WriteAndCommit(t, b, i.result.value.value, i.rest).result == Ok(false)
    ensures var x := PushBlobExchange(t, b, script);
            var i := Initiate(t, b, script);
            i.result.Ok? && i.result.value.Some? ==>
              var y := WriteAndCommit(t, b, i.result.value.value, i.rest);
              x.result == y.result && x.sent == i.sent + y.sent &&
              x.sent[|i.sent|] == Issued(i.result.value.value, b.writer.httpMethod,
                                         Request(t.authorization, b.writer.payload))
  {
    var x := PushBlobExchange(t, b, script);
    var i := Initiate(t, b, script);
    if i.result.Ok? && i.result.value.Some? {
      var y := WriteAndCommit(t, b, i.result.value.value, i.rest);
      assert x.sent == i.sent + y.sent;
      assert x.sent[|i.sent|] == y.sent[0];
    }
  }
}
