/**
 * The datafeed transport, as the loop sees it: four authenticated calls
 * (list, create, read, delete) against the server-side feed resource.
 *
 * The HTTP client is replaced by a scripted stand-in that answers list with
 * a fixed sequence of feed ids, create with a fixed new id, and read with the
 * next outcome of a finite script. It records every call it receives, with
 * its arguments, in the order received.
 */
module DatafeedApi {
  import opened Wrappers
  import opened Events

  /** The tokens of the bot's authenticated session. */
  datatype AuthSession = AuthSession(sessionToken: string, keyManagerToken: string)

  /** One transport call, with the keyword arguments it was made with. */
  datatype Call =
    | ListCall(sessionToken: string, keyManagerToken: string)
    | CreateCall(sessionToken: string, keyManagerToken: string)
    | DeleteCall(sessionToken: string, keyManagerToken: string, datafeedId: string)
    | ReadCall(sessionToken: string, keyManagerToken: string, datafeedId: string, ackId: string)

  /** Whether a call carries exactly the session's two tokens. */
  predicate CarriesTokens(c: Call, auth: AuthSession)
  {
    c.sessionToken == auth.sessionToken && c.keyManagerToken == auth.keyManagerToken
  }

  /**
   * What a read answers: a batch of events with the new ack id, or the
   * client error (HTTP 400) the server gives for a feed id it no longer knows.
   */
  datatype ReadOutcome = Ok(events: seq<Event>, ackId: string) | Stale

  /** The scripted answers: list's feed ids, create's new id, read's outcomes in turn. */
  datatype Script = Script(feeds: seq<string>, createdId: string, outcomes: seq<ReadOutcome>)

  class ScriptedDatafeedApi {
    const script: Script
    /** The calls received so far, oldest first. */
    var calls: seq<Call>
    /** How many scripted read outcomes have been handed out. */
    var served: nat

    ghost predicate Valid()
      reads this
    {
      served <= |script.outcomes|
    }

    constructor (script: Script)
      ensures Valid()
      ensures this.script == script && calls == [] && served == 0
    {
      this.script := script;
      calls := [];
      served := 0;
    }

    /** `list_datafeed`: the existing feeds' ids. */
    method ListDatafeed(auth: AuthSession) returns (ids: seq<string>)
      requires Valid()
      modifies this
      ensures Valid()
      ensures ids == script.feeds
      ensures calls == old(calls) + [ListCall(auth.sessionToken, auth.keyManagerToken)]
      ensures served == old(served)
    {
      ids := script.feeds;
      calls := calls + [ListCall(auth.sessionToken, auth.keyManagerToken)];
    }

    /** `create_datafeed`: the id of a newly created feed. */
    method CreateDatafeed(auth: AuthSession) returns (id: string)
      requires Valid()
      modifies this
      ensures Valid()
      ensures id == script.createdId
      ensures calls == old(calls) + [CreateCall(auth.sessionToken, auth.keyManagerToken)]
      ensures served == old(served)
    {
      id := script.createdId;
      calls := calls + [CreateCall(auth.sessionToken, auth.keyManagerToken)];
    }

    /** `delete_datafeed`: removes the feed `datafeedId`. */
    method DeleteDatafeed(auth: AuthSession, datafeedId: string)
      requires Valid()
      modifies this
      ensures Valid()
      ensures calls == old(calls) + [DeleteCall(auth.sessionToken, auth.keyManagerToken, datafeedId)]
      ensures served == old(served)
    {
      calls := calls + [DeleteCall(auth.sessionToken, auth.keyManagerToken, datafeedId)];
    }

    /**
     * `read_datafeed`: the next scripted outcome for a read of `datafeedId`
     * from `ackId`. Once the script is used up the answer is `None` and no
     * call is recorded: the scripted run has nothing more to say.
     */
    method ReadDatafeed(auth: AuthSession, datafeedId: string, ackId: string) returns (r: Option<ReadOutcome>)
      requires Valid()
      modifies this
      ensures Valid()
      ensures old(served) < |script.outcomes| ==>
        && r == Some(script.outcomes[old(served)])
        && served == old(served) + 1
        && calls == old(calls) + [ReadCall(auth.sessionToken, auth.keyManagerToken, datafeedId, ackId)]
      ensures old(served) == |script.outcomes| ==>
        r == None && served == old(served) && calls == old(calls)
    {
      if served < |script.outcomes| {
        r := Some(script.outcomes[served]);
        served := served + 1;
        calls := calls + [ReadCall(auth.sessionToken, auth.keyManagerToken, datafeedId, ackId)];
      } else {
        r := None;
      }
    }
  }
}
