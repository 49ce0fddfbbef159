# Synthetic-population job store

A model of the request handler of a small web service that answers requests
for synthetic population data. A request names a region, a year and a
population, plus a contact email. The handler keeps one process-wide map from
a request key to a stored record, and deduplicates on that key:

- a key already in the map returns its stored record, and nothing changes;
- an absent key gets a new record, chosen by a 30% coin:
  - a `ready` record with a synthetic population drawn from [0, 1000000), or
  - a `processing` record with an estimate of 30 plus a draw from [0, 60) minutes,
    together with a background completion;
- a background completion later overwrites the key's record with a fresh `ready` record.

The model is sequential. `jobs.dfy` (module `Jobs`) states the data model and
the store's two transitions as values and predicates:

- `Key` is the key;
- `IsReadyRecord` and `IsProcessingRecord` are the two kinds of record;
- `Store` is the map together with two ghost bookkeeping multisets: completions
  ever started (`launched`) and completions not yet run (`pending`);
- `Inv` is the store's invariant;
- `SubmitStep` and `CompleteStep` are the two transitions;
- `IsRun` is any sequence of transitions.

The lemmas there prove what every run keeps. `server.dfy` (module `Server`)
is the handler as a class. `JobServer` has the `dataStore` map as a field.
`Submit` is the handler after decoding, `Complete` is the background
completion called as a later, separate step, and `HandleRequest` adds the
decoding outcome. Each method is proved to perform exactly the transition that
`Jobs` specifies. Random draws are nondeterministic choices in their range
(`Intn`). The 30% coin is the boolean parameter `fast`.

The model follows the code as written. In particular:

- The key is plain concatenation of region, year and population, without a
  separator. So it is not collision-free (`KeyCollides`).
- There is no validation of individual fields. The only error is a body that
  fails to decode. A missing field decodes as the empty string and takes part
  in the key like any other.
- There is no `Failed` state. When requests are handled one at a time, every
  processing record becomes ready exactly when its completion runs.
- The estimate lies in [30, 89] minutes: 30 plus a draw from [0, 60).

## Model

| member | source | states |
|---|---|---|
| Jobs.Key | Synthpop.go:39 | the key is region, year and population concatenated without a separator |
| Jobs.KeyIgnoresEmail | Synthpop.go:39 | two requests that agree on region, year and population have the same key, whatever their emails |
| Jobs.KeyDeterminesFields | Synthpop.go:39 | the key loses only the field boundaries: equal keys with equal region and year lengths mean equal region, year and population |
| Jobs.KeyCollides | Synthpop.go:39 | the key is not injective: two requests with different regions can share a key |
| Jobs.InitialInv | Synthpop.go:27 | the empty store at process start satisfies the store invariant |
| Jobs.SubmitStep | Synthpop.go:41-68 | a stored key returns its record with the state unchanged; an absent key is stored with a ready record (fast path) or with a processing record plus one started completion (slow path) |
| Jobs.CompleteStep | Synthpop.go:57-63 | a pending completion stores a ready record under its key, leaves every other key and `launched` alone, and leaves `pending` |
| Jobs.SubmitKeepsInv | Synthpop.go:41-68 | handling a request keeps the invariant: records are ready or processing, at most one completion per key, only for stored keys, and a record is processing exactly when its completion is still to run |
| Jobs.CompleteKeepsInv | Synthpop.go:57-63 | a completion only ever replaces a processing record, and keeps the invariant |
| Jobs.StepKeepsInv | Synthpop.go:41-68 | either kind of step keeps the invariant |
| Jobs.StepKeepsRecords | Synthpop.go:41-68 | no step removes a key, and no step changes a ready record |
| Jobs.RunKeepsInv | Synthpop.go:27-69 | every state of a run from an invariant state satisfies the invariant |
| Jobs.RecordsPersist | Synthpop.go:41-68 | along any sequential run, a stored key stays stored, and a ready record never changes again |
| Jobs.ReadyRecordIsReturned | Synthpop.go:41-42 | along any sequential run, every later request for a key whose record is ready is answered with exactly that record |
| Jobs.AtMostOneCompletionPerKey | Synthpop.go:41-66 | in any sequential run from the empty store, at most one background completion is ever started per key |
| Jobs.ProcessingOnlyBeforeReady | Synthpop.go:57-63 | in any sequential run, a key whose record is processing now was processing at every earlier point where it was stored: status never goes back from ready |
| Jobs.RepeatedSubmitIsIdempotent | Synthpop.go:41-68 | two back-to-back requests with one key return the same record, and the second changes nothing; the first starts a completion exactly when the key was absent and the slow path was taken |
| Server.Intn | Synthpop.go:47 | a random draw lies in [0, n) |
| Server.NewReadyRecord | Synthpop.go:45-49 | a fast-path record is ready, has no estimate and a population in [0, 1000000) |
| Server.NewProcessingRecord | Synthpop.go:51-55 | a slow-path record is processing, has an estimate in [30, 90) minutes and no population |
| Server.JobServer.constructor | Synthpop.go:27 | the store is empty at process start |
| Server.JobServer.Submit | Synthpop.go:38-69 | a stored key returns its record and leaves map and completions unchanged; an absent key is mapped to exactly the returned record, all other keys keep their records, and exactly one completion is started on the slow path and none on the fast path |
| Server.JobServer.Complete | Synthpop.go:57-63 | the key's record is replaced by a ready record with a population in [0, 1000000), every other key keeps its record, and the completion is no longer pending |
| Server.JobServer.HandleRequest | Synthpop.go:29-73 | a body that fails to decode is answered with a client error and touches nothing; otherwise the reply carries the record `Submit` returns |
| Server.SameJobForRepeatedRequest | Synthpop.go:39-68 | two back-to-back requests that agree on region, year and population, whatever their emails, get the same record, decided by the first request's coin |
| Server.ReadyAfterCompletion | Synthpop.go:41-68 | after a slow-path request and its completion, the same request gets a ready record, and gets that record again later |

## Left out

- HTTP routing, the logging middleware, static file serving and `main`
  (Synthpop.go:75-102) are framework plumbing.
- JSON decoding and encoding (Synthpop.go:31-36, 71-72) are library calls.
  A decode failure is the input `None` to `HandleRequest`.
- Concurrency is not modelled. The completion runs in a goroutine after
  `time.Sleep` (Synthpop.go:57-58), and the model runs it as one later
  sequential step (`Complete`).
  - The unsynchronised access to the shared map is a data race. The sequential
    model cannot speak to it.
  - Nor can it speak to a completion that runs before the slow path's own
    store at Synthpop.go:68, which would then overwrite the ready record.
  - Each request is also handled on its own goroutine, and the lookup at
    Synthpop.go:41 and the store at Synthpop.go:68 are not one atomic step.
    So two overlapping requests for an absent key can both miss. Locking every
    single map access would not remove this check-then-insert race. The model
    serialises whole handler calls, and the four lemmas below hold only under
    that serialisation.
- The verification score and the `rand.Float32() < 0.3` comparison
  (Synthpop.go:24, 44, 48, 62) are floating point. The score is omitted, and the coin is a boolean input.
- The estimate is kept as a whole number of minutes. Its formatting by
  `time.Duration.String()` (Synthpop.go:54) is a library formatter.
- The "email sent" log line (Synthpop.go:65) is logging only.
- Jobs.RecordsPersist: holds only for serialised handlers. Two overlapping
  requests for an absent key can both miss at Synthpop.go:41. Both can take the
  slow path, so two completions start at Synthpop.go:57, and the second
  completion at Synthpop.go:59 replaces a ready record. Or one request stores
  a ready record at Synthpop.go:68, and then the other, which also missed,
  stores a processing record over it.
- Jobs.AtMostOneCompletionPerKey: holds only for serialised handlers. Two
  overlapping requests for an absent key can both miss at Synthpop.go:41, both
  take the slow path, and start two completions for one key at Synthpop.go:57.
- Jobs.ProcessingOnlyBeforeReady: holds only for serialised handlers. A request
  that stores a ready record at Synthpop.go:68 can be followed by an overlapping
  request that also missed at Synthpop.go:41 and then stores a processing
  record at Synthpop.go:68, so the status goes back from ready.
- Jobs.ReadyRecordIsReturned: holds only for serialised handlers, for the same
  reason as Jobs.RecordsPersist: a ready record can be overwritten by an
  overlapping request or by a second completion.
- `Server.Intn`: the draw is an arbitrary value in range, not a uniform one. The model says nothing about the probabilities.
