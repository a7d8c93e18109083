/** The values that dstate nodes keep and exchange: node identities, generations,
    state and view envelopes, wire messages and engine actions. */
module Types {

  datatype Option<+T> = None | Some(value: T)

  datatype Result<+T, +E> = Ok(value: T) | Err(error: E)

  datatype NodeId = NodeId(name: string)

  /** Serialized payloads are opaque: nothing in the protocol looks inside them. */
  type Bytes = seq<bv8>

  /** One reading of the clock: a monotonic instant and wall-clock Unix milliseconds. */
  datatype Time = Time(now: nat, unixMs: nat)

  /** Logical version of a state, ordered lexicographically by incarnation and then age. */
  datatype Generation = Generation(incarnation: nat, age: nat) {
    predicate Lt(other: Generation) {
      incarnation < other.incarnation || (incarnation == other.incarnation && age < other.age)
    }

    predicate Le(other: Generation) {
      !other.Lt(this)
    }

    function Next(): Generation {
      Generation(incarnation, age + 1)
    }
  }

  /** The sentinel of a join placeholder; real generations have a positive incarnation. */
  const ZERO := Generation(0, 0)

  function Max(a: Generation, b: Generation): Generation {
    if a.Lt(b) then b else a
  }

  /** The local node's authoritative copy of its state. */
  datatype StateObject<S> = StateObject(
    generation: Generation,
    storageVersion: nat,
    value: S,
    createdTime: nat,
    modifiedTime: nat)

  /** A node's replicated view of one peer (or of itself). */
  datatype ViewObject<V> = ViewObject(
    generation: Generation,
    wireVersion: nat,
    value: V,
    createdTime: nat,
    modifiedTime: nat,
    syncedAt: nat,
    pending: Option<Generation>,
    sourceNode: NodeId)

  type Views<V> = map<NodeId, ViewObject<V>>

  function Lookup<K, T>(m: map<K, T>, key: K): Option<T> {
    if key in m then Some(m[key]) else None
  }

  datatype DeserializeError = UnknownVersion(version: nat) | Malformed(message: string)

  // ── Wire messages ──────────────────────────────────────────────

  datatype SyncMessage =
    | FullSnapshot(stateName: string, source: NodeId, generation: Generation, wireVersion: nat, data: Bytes)
    | DeltaUpdate(stateName: string, source: NodeId, generation: Generation, wireVersion: nat, data: Bytes)
    | RequestSnapshot(stateName: string, requester: NodeId)

  datatype Notification = Notification(stateName: string, source: NodeId, generation: Generation)

  datatype Batch = Batch(source: NodeId, notifications: seq<Notification>)

  datatype WireMessage = Sync(message: SyncMessage) | Feed(batch: Batch)

  /** A message on its way from one node to another. */
  datatype Packet = Packet(from: NodeId, to: NodeId, msg: WireMessage)

  datatype Action =
    | BroadcastSync(message: SyncMessage)
    | SendSync(target: NodeId, message: SyncMessage)
    | ScheduleDelayed(delay: nat, message: SyncMessage)

  // ── Configuration ──────────────────────────────────────────────

  datatype Urgency = Immediate | Delayed(delay: nat) | Suppressed | Default

  datatype PushMode = ActivePush | ActiveFeedLazyPull

  datatype Strategy = Strategy(
    pushMode: Option<PushMode>,
    periodicFullSync: Option<nat>,
    pullOnQuery: bool,
    batchInterval: nat)

  datatype MismatchPolicy = KeepStale | DropAndWait

  /** Some invariants are stated under `forall k: nat :: Inside(topic, k) ==> ...`, so that
      code that only passes them along need not unfold them. A proof that uses or establishes
      one names `Inside` with its topic to open it. */
  datatype Topic =
    | Uniformity
    | Soundness
    | Keeping
    | Sending
    | Welcoming
    | Standing
    | Mid
    | Likeness
    | Firing
    | Gaining
    | Feeding
    | Deadline

  predicate Inside(topic: Topic, k: nat) {
    true
  }
}
