/**
 The request handler of the synthetic-population service, run sequentially:
 the process-wide `dataStore` map is a field of one object, a request is one
 call of `Submit` (or of `HandleRequest`, which adds the decoding outcome), and
 the background completion started for a processing job is a separate, later
 call of `Complete`. Random draws are nondeterministic choices in their range;
 the 30% coin is the boolean `fast`.
 */
module Server {
  import opened Jobs

  /** What the handler writes back: a client error, or the record as JSON. */
  datatype Reply = BadRequest | Json(response: Response)

  /** A draw in [0, n): any value in range; the library's draw is uniform and panics on n <= 0. */
  method Intn(n: int) returns (r: int)
    requires n > 0
    ensures 0 <= r < n
  {
    r :| 0 <= r < n;
  }

  /** A ready record with a freshly drawn population, as the fast path and a completion build it. */
  method NewReadyRecord() returns (r: Response)
    ensures IsReadyRecord(r)
  {
    var population := Intn(POPULATION_BOUND);
    r := Response(Ready, None, population);
  }

  /** A processing record with an estimate of 30 minutes plus a draw in [0, 60). */
  method NewProcessingRecord() returns (r: Response)
    ensures IsProcessingRecord(r)
  {
    var draw := Intn(EST_SPAN);
    r := Response(Processing, Some(draw + EST_BASE), 0);
  }

  class JobServer {
    /** The stored record of every key seen so far. */
    var dataStore: map<string, Response>
    /** Every background completion ever started, by key. */
    ghost var launched: multiset<string>
    /** The started completions that have not run yet, by key. */
    ghost var pending: multiset<string>

    ghost function State(): Store
      reads this
    {
      Store(dataStore, launched, pending)
    }

    ghost predicate Valid()
      reads this
    {
      Inv(State())
    }

    /** The store is empty at process start. */
    constructor ()
      ensures Valid() && State() == EMPTY
    {
      dataStore := map[];
      launched := multiset{};
      pending := multiset{};
    }

    /**
     The handler after decoding: look the key up; if it is absent, decide the
     disposition, start a completion on the slow path, and store the record.
     */
    method Submit(req: Request, fast: bool) returns (res: Response)
      requires Valid()
      modifies this
      ensures Valid()
      ensures SubmitStep(old(State()), Key(req), fast, State(), res)
    {
      var key := Key(req);
      if key in dataStore {
        res := dataStore[key];
      } else {
        if fast {
          res := NewReadyRecord();
        } else {
          res := NewProcessingRecord();
          launched := launched + multiset{key};
          pending := pending + multiset{key};
        }
        dataStore := dataStore[key := res];
      }
      SubmitKeepsInv(old(State()), key, fast, State(), res);
    }

    /** The background completion for `key`: overwrite its record with a fresh ready record. */
    method Complete(key: string)
      requires Valid() && key in pending
      modifies this
      ensures Valid()
      ensures CompleteStep(old(State()), key, State())
    {
      var done := NewReadyRecord();
      dataStore := dataStore[key := done];
      pending := pending - multiset{key};
      CompleteKeepsInv(old(State()), key, State());
    }

    /**
     The whole handler: a body that did not decode (`None`) is answered with a
     client error and leaves everything untouched; otherwise the request is
     submitted and its record returned.
     */
    method HandleRequest(body: Option<Request>, fast: bool) returns (reply: Reply)
      requires Valid()
      modifies this
      ensures Valid()
      ensures body.None? ==> reply == BadRequest && State() == old(State())
      ensures body.Some? ==> reply.Json? && SubmitStep(old(State()), Key(body.value), fast, State(), reply.response)
    {
      if body.None? {
        reply := BadRequest;
        return;
      }
      var res := Submit(body.value, fast);
      reply := Json(res);
    }
  }

  /**
   Two requests for the same region, year and population, from the same or
   different contacts, arriving back to back on a fresh server: both get the same record,
   which the first request's coin decided.
   */
  method SameJobForRepeatedRequest(first: Request, second: Request, fast1: bool, fast2: bool)
    returns (r1: Response, r2: Response)
    requires first.region == second.region && first.year == second.year
    requires first.population == second.population
    ensures r1 == r2
    ensures fast1 ==> IsReadyRecord(r1)
    ensures !fast1 ==> IsProcessingRecord(r1)
  {
    var server := new JobServer();
    r1 := server.Submit(first, fast1);
    KeyIgnoresEmail(first, second);
    r2 := server.Submit(second, fast2);
  }

  /**
   A request that took the slow path, its completion, and the same request
   again: the second answer is a ready record, and a third request gets it again.
   */
  method ReadyAfterCompletion(req: Request) returns (before: Response, after: Response, again: Response)
    ensures IsProcessingRecord(before)
    ensures IsReadyRecord(after) && again == after
  {
    var server := new JobServer();
    before := server.Submit(req, false);
    server.Complete(Key(req));
    after := server.Submit(req, false);
    again := server.Submit(req, true);
  }
}
