/** Fixed-width Java integers and the values of collaborating classes that the
    core passes around without looking inside them. */
module JavaTypes {
  import opened Wrappers

  newtype int8 = x: int | -0x80 <= x < 0x80
  newtype int32 = x: int | -0x8000_0000 <= x < 0x8000_0000
  newtype int64 = x: int | -0x8000_0000_0000_0000 <= x < 0x8000_0000_0000_0000

  /** `java.util.UUID`: two signed 64-bit halves. */
  datatype UUID = UUID(mostSignificantBits: int64, leastSignificantBits: int64)

  /** An expression tree (`Symbol`); serialized by `Symbols.toStream`, which is opaque here. */
  datatype Symbol = Symbol(text: string)

  /** Session settings travelling with an update request; serialized opaquely. */
  datatype SessionSettings = SessionSettings(userName: string, searchPath: seq<string>)

  /** Identity of a shard: the index it belongs to and its number. */
  datatype ShardId = ShardId(indexName: string, id: int32)

  /** `TimeValue`, a duration. */
  datatype TimeValue = TimeValue(millis: int64)

  /** The raw document payload (`BytesReference`). */
  type Bytes = seq<bv8>

  /** The fields a `ReplicationRequest` keeps for its subclasses: the target
      shard, the index name and the timeout. `None` for the timeout stands for
      the superclass's own default, which this model does not fix. */
  datatype ReplicationHeader = ReplicationHeader(shardId: ShardId, index: string, timeout: Option<TimeValue>)

  /** Protocol version of the peer a stream talks to. */
  datatype Version = Version(major: nat, minor: nat, revision: nat)

  const V_4_2_0: Version := Version(4, 2, 0)

  predicate OnOrAfter(v: Version, w: Version)
  {
    v.major > w.major
    || (v.major == w.major && v.minor > w.minor)
    || (v.major == w.major && v.minor == w.minor && v.revision >= w.revision)
  }

  /** The unchecked exceptions `java.util.Iterator` implementations throw. */
  datatype IterationError = NoSuchElement | UnsupportedOperation | ConcurrentModification
}
