/**
 * A scripted stand-in for the HTTP connection the client opens for every call: it answers
 * each request sent with the next outcome of its script and records what was sent. At most
 * one connection is open at a time, since every call is a blocking round trip.
 */
module Transport {
  import opened RegistryTypes

  class ScriptedTransport {
    /** The answers still to give, in order. */
    var pending: seq<Outcome>
    /** Every request sent so far, in order. */
    var log: seq<Issued>
    /** The URL of the open connection, if one is open. */
    var connectedTo: Option<string>
    /** How many connections have been opened so far. */
    ghost var opens: nat

    constructor (script: seq<Outcome>)
      ensures pending == script && log == [] && connectedTo == None && opens == 0
    {
      opens := 0;
      pending := script;
      log := [];
      connectedTo := None;
    }

    /** Opens a connection to url. */
    method Open(url: string)
      requires connectedTo.None?
      modifies this
      ensures connectedTo == Some(url) && opens == old(opens) + 1
      ensures pending == old(pending) && log == old(log)
    {
      connectedTo := Some(url);
      opens := opens + 1;
    }

    /** Sends one request on the open connection and takes the next scripted answer. */
    method Send(httpMethod: HttpMethod, request: Request) returns (o: Outcome)
      requires connectedTo.Some?
      modifies this
      ensures o == Next(old(pending)) && pending == Rest(old(pending))
      ensures log == old(log) + [Issued(old(connectedTo).value, httpMethod, request)]
      ensures connectedTo == old(connectedTo) && opens == old(opens)
    {
      o := Next(pending);
      pending := Rest(pending);
      log := log + [Issued(connectedTo.value, httpMethod, request)];
    }

    /** Releases the open connection. */
    method Close()
      requires connectedTo.Some?
      modifies this
      ensures connectedTo == None && opens == old(opens)
      ensures pending == old(pending) && log == old(log)
    {
      connectedTo := None;
    }
  }
}
