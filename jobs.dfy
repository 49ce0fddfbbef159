/**
 The keyed, deduplicating job store of the synthetic-population service, stated
 on values: the request, its key, the two kinds of stored record, the store's
 state and the two transitions that change it (a request being handled, and a
 background completion running). The class in module Server implements these
 transitions on a mutable map; the lemmas here say what every run of them keeps.
 */
module Jobs {

  datatype Option<T> = None | Some(value: T)

  /** A decoded request body: three identifying fields and a contact address. */
  datatype Request = Request(region: string, year: string, population: string, email: string)

  /** The `Status` field, sent on the wire as "ready" or "processing". */
  datatype Status = Ready | Processing

  /**
   A stored and returned record. `estimatedMinutes` is None where the handler
   leaves the estimate empty (and so omits it); `syntheticPopulation` is 0 where
   the handler leaves it at its zero value. The verification score is not modelled.
   */
  datatype Response = Response(status: Status, estimatedMinutes: Option<nat>, syntheticPopulation: int)

  /** Upper bound (exclusive) of a drawn synthetic population. */
  const POPULATION_BOUND: nat := 1000000
  /** A processing estimate is EST_BASE plus a draw in [0, EST_SPAN) minutes. */
  const EST_BASE: nat := 30
  const EST_SPAN: nat := 60

  /** The deduplication key: the three identifying fields, concatenated without a separator. */
  function Key(req: Request): string
  {
    req.region + req.year + req.population
  }

  /** The key depends on the three identifying fields only, never on the email. */
  lemma KeyIgnoresEmail(a: Request, b: Request)
    requires a.region == b.region && a.year == b.year && a.population == b.population
    ensures Key(a) == Key(b)
  {
  }

  /**
   The key loses only the field boundaries: once the lengths of region and year
   are known, equal keys mean equal identifying fields.
   */
  lemma KeyDeterminesFields(a: Request, b: Request)
    requires |a.region| == |b.region| && |a.year| == |b.year|
    requires Key(a) == Key(b)
    ensures a.region == b.region && a.year == b.year && a.population == b.population
  {
    var k := Key(a);
    var r, y := |a.region|, |a.year|;
    assert a.region == k[..r] == b.region;
    assert a.year == k[r..r + y] == b.year;
    assert a.population == k[r + y..] == b.population;
  }

  /** Plain concatenation is not injective: different requests can share a key. */
  lemma KeyCollides()
    ensures exists a: Request, b: Request :: Key(a) == Key(b) && a.region != b.region
  {
    var a := Request("A", "B1", "", "");
    var b := Request("AB", "1", "", "");
    assert Key(a) == "AB1" == Key(b);
  }

  /** A record of the fast path and of a completion: ready, no estimate, a bounded population. */
  predicate IsReadyRecord(r: Response)
  {
    && r.status == Ready
    && r.estimatedMinutes == None
    && 0 <= r.syntheticPopulation < POPULATION_BOUND
  }

  /** A record of the slow path: processing, an estimate in [30, 90) minutes, no population. */
  predicate IsProcessingRecord(r: Response)
  {
    && r.status == Processing
    && r.estimatedMinutes.Some?
    && EST_BASE <= r.estimatedMinutes.value < EST_BASE + EST_SPAN
    && r.syntheticPopulation == 0
  }

  /**
   The state of the service: the map of stored records, every background
   completion ever started (`launched`) and those not yet run (`pending`).
   */
  datatype Store = Store(jobs: map<string, Response>, launched: multiset<string>, pending: multiset<string>)

  /** The state at process start. */
  const EMPTY: Store := Store(map[], multiset{}, multiset{})

  /**
   What every reachable state satisfies: each record is a ready or a processing
   record; each key has had at most one completion started, and only for a key
   that is stored; a completion still to run belongs to a started one; and a
   key's record is processing exactly when its completion is still to run.
   */
  ghost predicate Inv(s: Store)
  {
    && (forall k :: k in s.jobs ==> IsReadyRecord(s.jobs[k]) || IsProcessingRecord(s.jobs[k]))
    && (forall k :: s.launched[k] <= 1)
    && (forall k :: k in s.launched ==> k in s.jobs)
    && s.pending <= s.launched
    && (forall k :: k in s.jobs ==> (k in s.pending <==> s.jobs[k].status == Processing))
  }

  /**
   Handling a request with key `key`, where `fast` is the outcome of the 30% coin:
   a stored key returns its record and changes nothing; an absent key is stored
   with the returned record, which is a ready record on the fast path, and a
   processing record with exactly one completion started on the slow path.
   */
  predicate SubmitStep(s: Store, key: string, fast: bool, s': Store, res: Response)
  {
    if key in s.jobs then
      res == s.jobs[key] && s' == s
    else if fast then
      && IsReadyRecord(res)
      && s' == Store(s.jobs[key := res], s.launched, s.pending)
    else
      && IsProcessingRecord(res)
      && s' == Store(s.jobs[key := res], s.launched + multiset{key}, s.pending + multiset{key})
  }

  /**
   A started completion for `key` runs: it stores a fresh ready record under
   `key`, leaves every other key alone, and is no longer pending.
   */
  predicate CompleteStep(s: Store, key: string, s': Store)
  {
    && key in s.pending
    && key in s'.jobs
    && IsReadyRecord(s'.jobs[key])
    && s'.jobs == s.jobs[key := s'.jobs[key]]
    && s'.launched == s.launched
    && s'.pending == s.pending - multiset{key}
  }

  /** One observable step of the service. */
  datatype Event =
    | Submitted(key: string, fast: bool, response: Response)
    | Completed(key: string)

  predicate Step(s: Store, e: Event, s': Store)
  {
    match e
    case Submitted(key, fast, res) => SubmitStep(s, key, fast, s', res)
    case Completed(key) => CompleteStep(s, key, s')
  }

  /** `states[i + 1]` follows from `states[i]` by `events[i]`. */
  ghost predicate StepAt(states: seq<Store>, events: seq<Event>, i: nat)
    requires i < |events| < |states|
  {
    Step(states[i], events[i], states[i + 1])
  }

  /** A run: every state but the first follows from the one before it by its event. */
  ghost predicate IsRun(states: seq<Store>, events: seq<Event>)
  {
    && |states| == |events| + 1
    && forall i: nat :: i < |events| ==> StepAt(states, events, i)
  }

  lemma InitialInv()
    ensures Inv(EMPTY)
  {
  }

  /** Handling a request keeps the invariant. */
  lemma SubmitKeepsInv(s: Store, key: string, fast: bool, s': Store, res: Response)
    requires Inv(s) && SubmitStep(s, key, fast, s', res)
    ensures Inv(s')
  {
  }

  /** A completion always replaces a processing record, and keeps the invariant. */
  lemma CompleteKeepsInv(s: Store, key: string, s': Store)
    requires Inv(s) && CompleteStep(s, key, s')
    ensures key in s.jobs && s.jobs[key].status == Processing
    ensures Inv(s')
  {
  }

  lemma StepKeepsInv(s: Store, e: Event, s': Store)
    requires Inv(s) && Step(s, e, s')
    ensures Inv(s')
  {
    match e
    case Submitted(key, fast, res) => SubmitKeepsInv(s, key, fast, s', res);
    case Completed(key) => CompleteKeepsInv(s, key, s');
  }

  /**
   Between `a` and `b`, the key `key` stayed stored if it was, and kept its
   record if that record was ready.
   */
  ghost predicate Kept(a: Store, b: Store, key: string)
  {
    key in a.jobs ==> key in b.jobs && (a.jobs[key].status == Ready ==> b.jobs[key] == a.jobs[key])
  }

  /**
   No step removes a key, and no step changes a ready record: handling a
   request writes only absent keys, and a completion only replaces a
   processing record.
   */
  lemma StepKeepsRecords(s: Store, e: Event, s': Store, key: string)
    requires Inv(s) && Step(s, e, s')
    ensures Kept(s, s', key)
  {
  }

  /** Every state of a run that starts in the invariant satisfies it. */
  lemma {:induction false} RunKeepsInv(states: seq<Store>, events: seq<Event>, i: nat)
    requires IsRun(states, events) && Inv(states[0])
    requires i < |states|
    ensures Inv(states[i])
  {
    if i > 0 {
      RunKeepsInv(states, events, i - 1);
      assert StepAt(states, events, i - 1);
      StepKeepsInv(states[i - 1], events[i - 1], states[i]);
    }
  }

  /**
   Along any sequential run, a stored key stays stored, and once its record is
   ready that record never changes again: a job never disappears and never goes
   back to processing.
   */
  lemma {:induction false} RecordsPersist(states: seq<Store>, events: seq<Event>, i: nat, j: nat, key: string)
    requires IsRun(states, events) && Inv(states[0])
    requires i <= j < |states|
    ensures Kept(states[i], states[j], key)
  {
    if i < j {
      RecordsPersist(states, events, i, j - 1, key);
      RunKeepsInv(states, events, j - 1);
      assert StepAt(states, events, j - 1);
      StepKeepsRecords(states[j - 1], events[j - 1], states[j], key);
    }
  }

  /**
   Along any run, a request for a key whose record is ready is answered with
   exactly that record, however late it comes.
   */
  lemma ReadyRecordIsReturned(states: seq<Store>, events: seq<Event>, i: nat, j: nat, key: string)
    requires IsRun(states, events) && Inv(states[0])
    requires i <= j < |events|
    requires key in states[i].jobs && states[i].jobs[key].status == Ready
    requires events[j].Submitted? && events[j].key == key
    ensures events[j].response == states[i].jobs[key]
  {
    RecordsPersist(states, events, i, j, key);
    assert StepAt(states, events, j);
  }

  /**
   In any sequential run from the empty store, at most one background
   completion is ever started per key, however many requests share the key.
   */
  lemma AtMostOneCompletionPerKey(states: seq<Store>, events: seq<Event>, i: nat, key: string)
    requires IsRun(states, events) && states[0] == EMPTY
    requires i < |states|
    ensures states[i].launched[key] <= 1
  {
    InitialInv();
    RunKeepsInv(states, events, i);
  }

  /**
   A record that is processing now had no ready record for its key at any
   earlier point of a sequential run: status only moves from processing to ready.
   */
  lemma ProcessingOnlyBeforeReady(states: seq<Store>, events: seq<Event>, i: nat, j: nat, key: string)
    requires IsRun(states, events) && Inv(states[0])
    requires i <= j < |states|
    requires key in states[i].jobs
    requires key in states[j].jobs && states[j].jobs[key].status == Processing
    ensures states[i].jobs[key].status == Processing
  {
    RecordsPersist(states, events, i, j, key);
  }

  /**
   Two back-to-back requests with the same key see the same record, and the
   second one changes nothing, whatever the coin says the second time.
   */
  lemma RepeatedSubmitIsIdempotent(s0: Store, key: string, fast1: bool, s1: Store, r1: Response,
                                   fast2: bool, s2: Store, r2: Response)
    requires SubmitStep(s0, key, fast1, s1, r1)
    requires SubmitStep(s1, key, fast2, s2, r2)
    ensures r2 == r1 && s2 == s1
    ensures s1.launched[key] - s0.launched[key] == if key in s0.jobs || fast1 then 0 else 1
  {
  }
}
