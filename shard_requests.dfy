/** The batched shard write request: `ShardRequest` (routing header, job id,
    continue-on-error flag, ordered items, return values) as specialised by
    `ShardUpdateRequest` (update columns, session settings and a second,
    shadowing continue-on-error flag), its codec, its `equals`, its item
    iterator and the `Builder` that stamps out one request per shard. */
module ShardRequests {
  import opened Wrappers
  import opened JavaTypes
  import opened Streams
  import opened CountedArrays
  import opened ShardItems

  /** The content of a request, as the codec sees it. `continueOnError` is the
      field of `ShardRequest`; `ownContinueOnError` the private field of the
      same name that `ShardUpdateRequest` declares again. */
  datatype RequestValue = RequestValue(
    header: ReplicationHeader,
    jobId: UUID,
    continueOnError: bool,
    updateColumns: Option<seq<string>>,
    ownContinueOnError: bool,
    sessionSettings: SessionSettings,
    items: seq<ItemValue>,
    returnValues: Option<seq<Symbol>>)

  /** What `ShardRequest(StreamInput)` reads. */
  datatype RequestHeader = RequestHeader(header: ReplicationHeader, jobId: UUID, continueOnError: bool)

  // ---------------------------------------------------------------- encoding

  /** `ShardRequest.writeTo`: the replication header, the job id as most- then
      least-significant half, then the flag. */
  function EncodeHeader(v: RequestValue): seq<Token>
  {
    [ReplicationTok(v.header), LongTok(v.jobId.mostSignificantBits),
     LongTok(v.jobId.leastSignificantBits), BoolTok(v.continueOnError)]
  }

  /** `Item.writeTo`, as a value that `EncodeMany` can apply to each item. */
  function ItemEncoder(wire: ItemWire, version: Version): ItemValue -> seq<Token>
  {
    v => EncodeItem(wire, v, version)
  }

  /** The items, one after the other. */
  function EncodeItems(wire: ItemWire, items: seq<ItemValue>, version: Version): seq<Token>
  {
    EncodeMany(ItemEncoder(wire, version), items)
  }

  /** `ShardUpdateRequest.writeTo`, for a given way `enc` of writing one item:
      the base part, the update columns, the subclass's flag, the session
      settings, the item count, the items and the return values. */
  function EncodeRequestWith(enc: ItemValue -> seq<Token>, v: RequestValue): seq<Token>
  {
    EncodeHeader(v) + (EncodeStringArray(v.updateColumns)
    + ([BoolTok(v.ownContinueOnError), SettingsTok(v.sessionSettings), VIntTok(|v.items|)]
    + (EncodeMany(enc, v.items) + EncodeSymbolArray(v.returnValues))))
  }

  /** `ShardUpdateRequest.writeTo` with `Item.writeTo` on the given wire. */
  function EncodeRequest(wire: ItemWire, v: RequestValue, version: Version): seq<Token>
  {
    EncodeRequestWith(ItemEncoder(wire, version), v)
  }

  // ---------------------------------------------------------------- decoding

  function DecodeHeader(ts: seq<Token>, pos: nat): Read<RequestHeader>
  {
    var header :- ReadReplicationAt(ts, pos);
    var most :- ReadLongAt(ts, header.next);
    var least :- ReadLongAt(ts, most.next);
    var continueOnError :- ReadBoolAt(ts, least.next);
    Ok(RequestHeader(header.value, UUID(most.value, least.value), continueOnError.value), continueOnError.next)
  }

  /** `ShardUpdateRequest.Item(StreamInput)`, as a value `DecodeMany` can apply. */
  function ItemDecoder(wire: ItemWire, version: Version): (seq<Token>, nat) -> Read<ItemValue>
  {
    (ts: seq<Token>, p: nat) => DecodeItem(wire, ts, p, version)
  }

  /** `readItems(in, n)`: `n` items, one after the other. */
  function DecodeItems(wire: ItemWire, ts: seq<Token>, pos: nat, n: nat, version: Version): Read<seq<ItemValue>>
  {
    DecodeMany(ItemDecoder(wire, version), ts, pos, n)
  }

  /** What the stream constructor reads before the items. */
  datatype RequestPrefix = RequestPrefix(
    header: RequestHeader, updateColumns: Option<seq<string>>, ownContinueOnError: bool,
    sessionSettings: SessionSettings)

  /** The base constructor, then the update columns, the subclass's flag and
      the session settings. */
  function DecodePrefix(ts: seq<Token>, pos: nat): Read<RequestPrefix>
  {
    var h :- DecodeHeader(ts, pos);
    var updateColumns :- DecodeStringArray(ts, h.next);
    var own :- ReadBoolAt(ts, updateColumns.next);
    var settings :- ReadSettingsAt(ts, own.next);
    Ok(RequestPrefix(h.value, updateColumns.value, own.value, settings.value), settings.next)
  }

  function Assemble(pre: RequestPrefix, items: seq<ItemValue>, returnValues: Option<seq<Symbol>>): RequestValue
  {
    RequestValue(pre.header.header, pre.header.jobId, pre.header.continueOnError, pre.updateColumns,
                 pre.ownContinueOnError, pre.sessionSettings, items, returnValues)
  }

  /** The part of `v` the constructor reads before the items; empty update
      columns come back as `null`. */
  function PrefixOf(v: RequestValue): RequestPrefix
  {
    RequestPrefix(RequestHeader(v.header, v.jobId, v.continueOnError), NullIfEmpty(v.updateColumns),
                  v.ownContinueOnError, v.sessionSettings)
  }

  /** `ShardUpdateRequest(StreamInput)`, for a given way `dec` of reading one
      item. A negative item count makes `new ArrayList<>(size)` throw. */
  function DecodeRequestWith(dec: (seq<Token>, nat) -> Read<ItemValue>, ts: seq<Token>, pos: nat): Read<RequestValue>
  {
    var pre :- DecodePrefix(ts, pos);
    var n :- ReadVIntAt(ts, pre.next);
    if n.value < 0 then Fail(NegativeSize(pre.next))
    else
      var items :- DecodeMany(dec, ts, n.next, n.value);
      var returnValues :- DecodeSymbolArray(ts, items.next);
      Ok(Assemble(pre.value, items.value, returnValues.value), returnValues.next)
  }

  /** `ShardUpdateRequest(StreamInput)` with `Item(StreamInput)` on the given wire. */
  function DecodeRequest(wire: ItemWire, ts: seq<Token>, pos: nat, version: Version): Read<RequestValue>
  {
    DecodeRequestWith(ItemDecoder(wire, version), ts, pos)
  }

  // ---------------------------------------------------------------- round trips, for any item codec

  /** The job id and the base flag survive: they are read in the order written. */
  lemma HeaderRoundTrip(ts: seq<Token>, pos: nat, v: RequestValue)
    requires At(ts, pos, EncodeHeader(v))
    ensures DecodeHeader(ts, pos) == Ok(RequestHeader(v.header, v.jobId, v.continueOnError), pos + 4)
  {
    var e := EncodeHeader(v);
    AtIndex(ts, pos, e, 0);
    AtIndex(ts, pos, e, 1);
    AtIndex(ts, pos, e, 2);
    AtIndex(ts, pos, e, 3);
  }

  /** The three tokens between the update columns and the items. */
  lemma MiddleRoundTrip(ts: seq<Token>, pos: nat, v: RequestValue)
    requires At(ts, pos, [BoolTok(v.ownContinueOnError), SettingsTok(v.sessionSettings), VIntTok(|v.items|)])
    ensures ReadBoolAt(ts, pos) == Ok(v.ownContinueOnError, pos + 1)
    ensures ReadSettingsAt(ts, pos + 1) == Ok(v.sessionSettings, pos + 2)
    ensures ReadVIntAt(ts, pos + 2) == Ok(|v.items|, pos + 3)
  {
    var e: seq<Token> := [BoolTok(v.ownContinueOnError), SettingsTok(v.sessionSettings), VIntTok(|v.items|)];
    AtIndex(ts, pos, e, 0);
    AtIndex(ts, pos, e, 1);
    AtIndex(ts, pos, e, 2);
  }

  /** The fields before the items read back, empty update columns as null. */
  lemma PrefixRoundTrip(ts: seq<Token>, pos: nat, v: RequestValue)
    requires At(ts, pos, EncodeHeader(v))
    requires At(ts, pos + 4, EncodeStringArray(v.updateColumns))
    requires At(ts, pos + 4 + |EncodeStringArray(v.updateColumns)|, [BoolTok(v.ownContinueOnError), SettingsTok(v.sessionSettings), VIntTok(|v.items|)])
    ensures DecodePrefix(ts, pos) == Ok(PrefixOf(v), pos + 6 + |EncodeStringArray(v.updateColumns)|)
  {
    HeaderRoundTrip(ts, pos, v);
    StringArrayRoundTrip(ts, pos + 4, v.updateColumns);
    MiddleRoundTrip(ts, pos + 4 + |EncodeStringArray(v.updateColumns)|, v);
  }

  /** Where the parts of an encoded request before its items sit. */
  lemma PrefixLayout(enc: ItemValue -> seq<Token>, ts: seq<Token>, pos: nat, v: RequestValue)
    requires At(ts, pos, EncodeRequestWith(enc, v))
    ensures At(ts, pos, EncodeHeader(v))
    ensures At(ts, pos + 4, EncodeStringArray(v.updateColumns))
    ensures At(ts, pos + 4 + |EncodeStringArray(v.updateColumns)|, [BoolTok(v.ownContinueOnError), SettingsTok(v.sessionSettings), VIntTok(|v.items|)])
  {
    var b := EncodeStringArray(v.updateColumns);
    var d := EncodeMany(enc, v.items);
    AtSplit5(ts, pos, EncodeHeader(v), b, [BoolTok(v.ownContinueOnError), SettingsTok(v.sessionSettings), VIntTok(|v.items|)], d, EncodeSymbolArray(v.returnValues),
             pos + 4, pos + 4 + |b|, pos + 7 + |b|, pos + 7 + |b| + |d|);
  }

  /** An encoded request reads back its prefix and its item count. */
  lemma PrefixReadsBack(enc: ItemValue -> seq<Token>, ts: seq<Token>, pos: nat, v: RequestValue)
    requires At(ts, pos, EncodeRequestWith(enc, v))
    ensures DecodePrefix(ts, pos) == Ok(PrefixOf(v), pos + 6 + |EncodeStringArray(v.updateColumns)|)
    ensures ReadVIntAt(ts, pos + 6 + |EncodeStringArray(v.updateColumns)|) == Ok(|v.items|, pos + 7 + |EncodeStringArray(v.updateColumns)|)
  {
    PrefixLayout(enc, ts, pos, v);
    PrefixRoundTrip(ts, pos, v);
    MiddleRoundTrip(ts, pos + 4 + |EncodeStringArray(v.updateColumns)|, v);
  }

  /** The return values after the items of an encoded request read back,
      empty ones as `null`. */
  lemma ReturnValuesReadBack(enc: ItemValue -> seq<Token>, ts: seq<Token>, pos: nat, v: RequestValue)
    requires At(ts, pos, EncodeRequestWith(enc, v))
    ensures DecodeSymbolArray(ts, pos + 7 + |EncodeStringArray(v.updateColumns)| + |EncodeMany(enc, v.items)|)
         == Ok(NullIfEmpty(v.returnValues), pos + 7 + |EncodeStringArray(v.updateColumns)| + |EncodeMany(enc, v.items)| + |EncodeSymbolArray(v.returnValues)|)
  {
    AtFifth(ts, pos, EncodeHeader(v), EncodeStringArray(v.updateColumns), [BoolTok(v.ownContinueOnError), SettingsTok(v.sessionSettings), VIntTok(|v.items|)],
            EncodeMany(enc, v.items), EncodeSymbolArray(v.returnValues),
            pos + 7 + |EncodeStringArray(v.updateColumns)| + |EncodeMany(enc, v.items)|);
    SymbolArrayRoundTrip(ts, pos + 7 + |EncodeStringArray(v.updateColumns)| + |EncodeMany(enc, v.items)|, v.returnValues);
  }

  lemma RequestLength(enc: ItemValue -> seq<Token>, v: RequestValue)
    ensures |EncodeRequestWith(enc, v)|
         == 7 + |EncodeStringArray(v.updateColumns)| + |EncodeMany(enc, v.items)| + |EncodeSymbolArray(v.returnValues)|
  {
  }

  /** `DecodeRequestWith` when each of its parts reads. */
  lemma DecodeRequestOk(dec: (seq<Token>, nat) -> Read<ItemValue>, ts: seq<Token>, pos: nat, pre: RequestPrefix,
                        p: nat, p1: nat, n: nat, items: seq<ItemValue>, p2: nat,
                        returnValues: Option<seq<Symbol>>, q: nat)
    requires DecodePrefix(ts, pos) == Ok(pre, p)
    requires ReadVIntAt(ts, p) == Ok(n, p1)
    requires DecodeMany(dec, ts, p1, n) == Ok(items, p2)
    requires DecodeSymbolArray(ts, p2) == Ok(returnValues, q)
    ensures DecodeRequestWith(dec, ts, pos) == Ok(Assemble(pre, items, returnValues), q)
  {
  }

  /** `DecodeRequestWith` when its items do not read: it fails the same way. */
  lemma DecodeRequestItemsFail(dec: (seq<Token>, nat) -> Read<ItemValue>, ts: seq<Token>, pos: nat,
                               pre: RequestPrefix, p: nat, p1: nat, n: nat, e: ReadError)
    requires DecodePrefix(ts, pos) == Ok(pre, p)
    requires ReadVIntAt(ts, p) == Ok(n, p1)
    requires DecodeMany(dec, ts, p1, n) == Fail(e)
    ensures DecodeRequestWith(dec, ts, pos) == Fail(e)
  {
  }

  /** `dec` reads back `items` as `delivered` wherever `enc` laid them out. */
  ghost predicate ItemsReadBack(enc: ItemValue -> seq<Token>, dec: (seq<Token>, nat) -> Read<ItemValue>, ts: seq<Token>,
                          items: seq<ItemValue>, delivered: seq<ItemValue>)
  {
    forall p: nat :: At(ts, p, EncodeMany(enc, items))
      ==> DecodeMany(dec, ts, p, |items|) == Ok(delivered, p + |EncodeMany(enc, items)|)
  }

  /** Wherever `enc` laid out `items`, `dec` fails on them at `off` tokens in. */
  ghost predicate ItemsFailAt(enc: ItemValue -> seq<Token>, dec: (seq<Token>, nat) -> Read<ItemValue>, ts: seq<Token>,
                        items: seq<ItemValue>, off: nat)
  {
    forall p: nat :: At(ts, p, EncodeMany(enc, items)) ==> DecodeMany(dec, ts, p, |items|) == Fail(UnexpectedToken(p + off))
  }

  /** With an item codec that reads its items back, the whole request reads
      back: job id, both flags, session settings, header and item order all
      survive; empty update columns and return values come back as `null`. */
  lemma RequestRoundTripWith(enc: ItemValue -> seq<Token>, dec: (seq<Token>, nat) -> Read<ItemValue>,
                             ts: seq<Token>, pos: nat, v: RequestValue, delivered: seq<ItemValue>)
    requires At(ts, pos, EncodeRequestWith(enc, v))
    requires ItemsReadBack(enc, dec, ts, v.items, delivered)
    ensures DecodeRequestWith(dec, ts, pos)
         == Ok(v.(updateColumns := NullIfEmpty(v.updateColumns), items := delivered,
                  returnValues := NullIfEmpty(v.returnValues)),
               pos + |EncodeRequestWith(enc, v)|)
  {
    PrefixReadsBack(enc, ts, pos, v);
    AtFourth(ts, pos, EncodeHeader(v), EncodeStringArray(v.updateColumns), [BoolTok(v.ownContinueOnError), SettingsTok(v.sessionSettings), VIntTok(|v.items|)],
             EncodeMany(enc, v.items), EncodeSymbolArray(v.returnValues), pos + 7 + |EncodeStringArray(v.updateColumns)|);
    ReturnValuesReadBack(enc, ts, pos, v);
    DecodeRequestOk(dec, ts, pos, PrefixOf(v), pos + 6 + |EncodeStringArray(v.updateColumns)|, pos + 7 + |EncodeStringArray(v.updateColumns)|, |v.items|, delivered,
                    pos + 7 + |EncodeStringArray(v.updateColumns)| + |EncodeMany(enc, v.items)|, NullIfEmpty(v.returnValues),
                    pos + 7 + |EncodeStringArray(v.updateColumns)| + |EncodeMany(enc, v.items)| + |EncodeSymbolArray(v.returnValues)|);
    RequestLength(enc, v);
  }

  /** With an item codec that fails on its items, reading the request fails
      there too, `off` tokens into the items. */
  lemma RequestItemsFailWith(enc: ItemValue -> seq<Token>, dec: (seq<Token>, nat) -> Read<ItemValue>,
                             ts: seq<Token>, pos: nat, v: RequestValue, off: nat)
    requires At(ts, pos, EncodeRequestWith(enc, v))
    requires ItemsFailAt(enc, dec, ts, v.items, off)
    ensures DecodeRequestWith(dec, ts, pos) == Fail(UnexpectedToken(pos + 7 + |EncodeStringArray(v.updateColumns)| + off))
  {
    PrefixReadsBack(enc, ts, pos, v);
    AtFourth(ts, pos, EncodeHeader(v), EncodeStringArray(v.updateColumns), [BoolTok(v.ownContinueOnError), SettingsTok(v.sessionSettings), VIntTok(|v.items|)],
             EncodeMany(enc, v.items), EncodeSymbolArray(v.returnValues), pos + 7 + |EncodeStringArray(v.updateColumns)|);
    DecodeRequestItemsFail(dec, ts, pos, PrefixOf(v), pos + 6 + |EncodeStringArray(v.updateColumns)|, pos + 7 + |EncodeStringArray(v.updateColumns)|, |v.items|,
                           UnexpectedToken(pos + 7 + |EncodeStringArray(v.updateColumns)| + off));
  }

  // ---------------------------------------------------------------- round trips, for Item's codec

  function DeliveredItems(items: seq<ItemValue>, version: Version): (r: seq<ItemValue>)
    ensures |r| == |items|
    ensures forall k :: 0 <= k < |items| ==> r[k] == Delivered(items[k], version)
  {
    if items == [] then [] else [Delivered(items[0], version)] + DeliveredItems(items[1..], version)
  }

  /** What a reader of `version` gets for request `v`: empty update columns and
      return values come back as `null`, items as `Delivered` says. */
  function DeliveredRequest(v: RequestValue, version: Version): RequestValue
  {
    v.(updateColumns := NullIfEmpty(v.updateColumns), items := DeliveredItems(v.items, version),
       returnValues := NullIfEmpty(v.returnValues))
  }

  /** With aligned item codecs, `readItems` gives back every item written, in
      order. */
  lemma ItemsRoundTrip(ts: seq<Token>, pos: nat, items: seq<ItemValue>, version: Version)
    requires At(ts, pos, EncodeItems(Aligned, items, version))
    ensures DecodeItems(Aligned, ts, pos, |items|, version)
         == Ok(DeliveredItems(items, version), pos + |EncodeItems(Aligned, items, version)|)
  {
    AlignedItemsDecode(ts, items, version);
    ManyRoundTrip(ItemEncoder(Aligned, version), ItemDecoder(Aligned, version), ts, pos, items,
                  DeliveredItems(items, version));
  }

  /** Each aligned item reads back wherever it is laid out. */
  lemma AlignedItemsDecode(ts: seq<Token>, items: seq<ItemValue>, version: Version)
    ensures forall k, p: nat :: 0 <= k < |items| && At(ts, p, ItemEncoder(Aligned, version)(items[k])) ==>
      ItemDecoder(Aligned, version)(ts, p)
      == Ok(DeliveredItems(items, version)[k], p + |ItemEncoder(Aligned, version)(items[k])|)
  {
    forall k, p: nat | 0 <= k < |items| && At(ts, p, ItemEncoder(Aligned, version)(items[k])) {
      ItemRoundTrip(ts, p, items[k], version);
    }
  }

  /** `readItems` gives back what `Delivered` says, wherever the items were
      written, when the aligned codec is used or there is nothing to read. */
  lemma ItemsDelivered(wire: ItemWire, ts: seq<Token>, items: seq<ItemValue>, version: Version)
    requires wire == Aligned || items == []
    ensures ItemsReadBack(ItemEncoder(wire, version), ItemDecoder(wire, version), ts, items,
                          DeliveredItems(items, version))
  {
    forall p: nat | At(ts, p, EncodeMany(ItemEncoder(wire, version), items))
      ensures DecodeMany(ItemDecoder(wire, version), ts, p, |items|)
           == Ok(DeliveredItems(items, version), p + |EncodeMany(ItemEncoder(wire, version), items)|)
    {
      if wire == Aligned {
        ItemsRoundTrip(ts, p, items, version);
      } else {
        assert DeliveredItems(items, version) == [];
      }
    }
  }

  /** As written, reading a non-empty item list fails at the seventh token of
      the first item, wherever the list was written (in the token model; see
      `ItemRoundTripFailsAsWritten` for what the byte stream does instead). */
  lemma ItemsFailAsWritten(ts: seq<Token>, items: seq<ItemValue>, version: Version)
    requires items != []
    ensures ItemsFailAt(ItemEncoder(AsWritten, version), ItemDecoder(AsWritten, version), ts, items, 6)
  {
    var enc := ItemEncoder(AsWritten, version);
    forall p: nat | At(ts, p, EncodeMany(enc, items))
      ensures DecodeMany(ItemDecoder(AsWritten, version), ts, p, |items|) == Fail(UnexpectedToken(p + 6))
    {
      AtSplit(ts, p, enc(items[0]), EncodeMany(enc, items[1..]));
      ItemRoundTripFailsAsWritten(ts, p, items[0], version);
    }
  }

  /** A request whose items are decoded by the aligned reader, or a request
      with no items, reads back as `DeliveredRequest` says. */
  lemma RequestRoundTrip(wire: ItemWire, ts: seq<Token>, pos: nat, v: RequestValue, version: Version)
    requires wire == Aligned || v.items == []
    requires At(ts, pos, EncodeRequest(wire, v, version))
    ensures DecodeRequest(wire, ts, pos, version)
         == Ok(DeliveredRequest(v, version), pos + |EncodeRequest(wire, v, version)|)
  {
    ItemsDelivered(wire, ts, v.items, version);
    RequestRoundTripWith(ItemEncoder(wire, version), ItemDecoder(wire, version), ts, pos, v,
                         DeliveredItems(v.items, version));
  }

  /** As written, in the token model no request that carries an item can be
      read back: reading fails at the seventh token of its first item. */
  lemma RequestWithItemsFailsAsWritten(ts: seq<Token>, pos: nat, v: RequestValue, version: Version)
    requires v.items != []
    requires At(ts, pos, EncodeRequest(AsWritten, v, version))
    ensures DecodeRequest(AsWritten, ts, pos, version) == Fail(UnexpectedToken(pos + 7 + |EncodeStringArray(v.updateColumns)| + 6))
  {
    ItemsFailAsWritten(ts, v.items, version);
    RequestItemsFailWith(ItemEncoder(AsWritten, version), ItemDecoder(AsWritten, version), ts, pos, v, 6);
  }

  // ---------------------------------------------------------------- the objects

  function ValuesOf(items: seq<Item>): (r: seq<ItemValue>)
    reads set i | i in items, set i | i in items :: i.returnValues
    ensures |r| == |items|
    ensures forall k :: 0 <= k < |items| ==> r[k] == items[k].Value()
  {
    if items == [] then [] else [items[0].Value()] + ValuesOf(items[1..])
  }

  /** `Iterators.unmodifiableIterator(items.iterator())`: a view of the
      request's live `ArrayList`. Its iterator is fail-fast: once the list
      has been added to, `next()` throws `ConcurrentModificationException`,
      and it checks that before it checks for the end. */
  class ItemIterator {
    const request: ShardUpdateRequest
    /** The list's modification count when the iterator was made. */
    const expectedModCount: nat
    var index: nat

    constructor (request: ShardUpdateRequest)
      ensures this.request == request && expectedModCount == request.modCount && index == 0
    {
      this.request := request;
      expectedModCount := request.modCount;
      index := 0;
    }

    predicate HasNext()
      reads this, request
    {
      index < |request.items|
    }

    method Next() returns (r: Result<Item, IterationError>)
      modifies this
      ensures request.modCount != expectedModCount ==> r == Failure(ConcurrentModification) && index == old(index)
      ensures request.modCount == expectedModCount && old(index) < |request.items|
              ==> r == Success(request.items[old(index)]) && index == old(index) + 1
      ensures request.modCount == expectedModCount && |request.items| <= old(index)
              ==> r == Failure(NoSuchElement) && index == old(index)
    {
      if request.modCount != expectedModCount {
        r := Failure(ConcurrentModification);
      } else if index < |request.items| {
        r := Success(request.items[index]);
        index := index + 1;
      } else {
        r := Failure(NoSuchElement);
      }
    }

    /** The wrapper refuses `remove` whatever the state. */
    method Remove() returns (e: IterationError)
      ensures e == UnsupportedOperation
    {
      e := UnsupportedOperation;
    }
  }

  /** `ShardUpdateRequest`, with the fields of `ShardRequest` it inherits. */
  class ShardUpdateRequest {
    var header: ReplicationHeader
    const jobId: UUID
    const continueOnError: bool
    var items: seq<Item>
    /** How often `items` has been structurally changed (the list's `modCount`). */
    var modCount: nat
    const returnValues: Option<seq<Symbol>>
    const ownContinueOnError: bool
    const sessionSettings: SessionSettings
    const updateColumns: Option<seq<string>>

    function Value(): RequestValue
      reads this, set i | i in items, set i | i in items :: i.returnValues
    {
      RequestValue(header, jobId, continueOnError, updateColumns, ownContinueOnError, sessionSettings,
                   ValuesOf(items), returnValues)
    }

    /** The private constructor: `ShardRequest`'s constructor sets the shard,
        index, job id and the base flag and starts with no items; the body sets
        settings, update columns and return values. The subclass's own flag
        is left at its default. */
    constructor (sessionSettings: SessionSettings, shardId: ShardId, updateColumns: Option<seq<string>>,
                 returnValues: Option<seq<Symbol>>, jobId: UUID, continueOnError: bool)
      requires updateColumns.Some?
      ensures header == ReplicationHeader(shardId, shardId.indexName, None)
      ensures this.jobId == jobId && this.continueOnError == continueOnError && items == []
      ensures this.sessionSettings == sessionSettings && this.updateColumns == updateColumns
      ensures this.returnValues == returnValues && !ownContinueOnError && modCount == 0
    {
      header := ReplicationHeader(shardId, shardId.indexName, None);
      this.jobId := jobId;
      this.continueOnError := continueOnError;
      items := [];
      modCount := 0;
      this.sessionSettings := sessionSettings;
      this.updateColumns := updateColumns;
      this.returnValues := returnValues;
      ownContinueOnError := false;
    }

    /** The request the stream constructor builds. */
    constructor Decoded(h: RequestHeader, updateColumns: Option<seq<string>>, ownContinueOnError: bool,
                        sessionSettings: SessionSettings, items: seq<Item>, returnValues: Option<seq<Symbol>>,
                        ghost values: seq<ItemValue>)
      requires ValuesOf(items) == values
      ensures header == h.header && jobId == h.jobId && continueOnError == h.continueOnError
      ensures this.updateColumns == updateColumns && this.ownContinueOnError == ownContinueOnError
      ensures this.sessionSettings == sessionSettings && this.items == items && this.returnValues == returnValues
      ensures modCount == |items|
      ensures Value() == Assemble(RequestPrefix(h, updateColumns, ownContinueOnError, sessionSettings),
                                  values, returnValues)
    {
      header := h.header;
      jobId := h.jobId;
      continueOnError := h.continueOnError;
      this.updateColumns := updateColumns;
      this.ownContinueOnError := ownContinueOnError;
      this.sessionSettings := sessionSettings;
      this.items := items;
      modCount := |items|;
      this.returnValues := returnValues;
    }

    /** `ReplicationRequest.timeout(TimeValue)`. */
    method SetTimeout(timeout: TimeValue)
      modifies this
      ensures header == old(header).(timeout := Some(timeout)) && items == old(items) && modCount == old(modCount)
    {
      header := header.(timeout := Some(timeout));
    }

    /** `add(location, item)`: stamps the item with its position in the
        client batch and appends it; no other item changes. The append counts
        as a modification, so iterators made before it fail on their next
        `next()`. */
    method Add(location: int32, item: Item)
      modifies this, item
      ensures items == old(items) + [item] && modCount == old(modCount) + 1
      ensures header == old(header)
      ensures item.Value() == old(item.Value()).(location := location)
      ensures item.returnValues == old(item.returnValues)
      ensures item !in old(items) ==> ValuesOf(items) == old(ValuesOf(items)) + [item.Value()]
    {
      item.SetLocation(location);
      items := items + [item];
      modCount := modCount + 1;
    }

    /** `iterator()`. */
    method Iterator() returns (it: ItemIterator)
      ensures fresh(it) && it.request == this && it.expectedModCount == modCount && it.index == 0
    {
      it := new ItemIterator(this);
    }

    /** `writeTo`, as written: the base header, then the subclass fields. */
    method WriteTo(out: StreamOutput)
      modifies out
      ensures out.tokens == old(out.tokens) + EncodeRequest(AsWritten, Value(), out.version)
    {
      ghost var t0 := out.tokens;
      WriteHeader(out, header, jobId, continueOnError);
      WriteStringArray(out, updateColumns);
      WriteCounts(out, ownContinueOnError, sessionSettings, |items|);
      ghost var t1 := out.tokens;
      WriteItems(out, items);
      ghost var values := ValuesOf(items);
      WriteSymbolArray(out, returnValues);
      assert ValuesOf(items) == values;
      ghost var v := Value();
      assert t1 == t0 + EncodeHeader(v) + EncodeStringArray(v.updateColumns)
        + [BoolTok(v.ownContinueOnError), SettingsTok(v.sessionSettings), VIntTok(|v.items|)];
      Associate5(t0, EncodeHeader(v), EncodeStringArray(v.updateColumns),
                 [BoolTok(v.ownContinueOnError), SettingsTok(v.sessionSettings), VIntTok(|v.items|)],
                 EncodeItems(AsWritten, v.items, out.version), EncodeSymbolArray(v.returnValues));
    }
  }

  /** The part `ShardRequest.writeTo` writes. */
  method WriteHeader(out: StreamOutput, header: ReplicationHeader, jobId: UUID, continueOnError: bool)
    modifies out
    ensures out.tokens == old(out.tokens)
      + [ReplicationTok(header), LongTok(jobId.mostSignificantBits), LongTok(jobId.leastSignificantBits),
         BoolTok(continueOnError)]
  {
    out.WriteReplication(header);
    out.WriteLong(jobId.mostSignificantBits);
    out.WriteLong(jobId.leastSignificantBits);
    out.WriteBoolean(continueOnError);
  }

  /** The subclass's flag, the session settings and the item count. */
  method WriteCounts(out: StreamOutput, continueOnError: bool, settings: SessionSettings, size: nat)
    modifies out
    ensures out.tokens == old(out.tokens) + [BoolTok(continueOnError), SettingsTok(settings), VIntTok(size)]
  {
    out.WriteBoolean(continueOnError);
    out.WriteSettings(settings);
    out.WriteVInt(size);
  }

  /** The loop of `writeTo` over the items. */
  method WriteItems(out: StreamOutput, items: seq<Item>)
    modifies out
    ensures out.tokens == old(out.tokens) + EncodeItems(AsWritten, ValuesOf(items), out.version)
  {
    ghost var values := ValuesOf(items);
    ghost var start := out.tokens;
    var i := 0;
    while i < |items|
      invariant 0 <= i <= |items|
      invariant out.tokens == start + EncodeItems(AsWritten, values[..i], out.version)
    {
      ghost var before := out.tokens;
      items[i].WriteTo(out);
      assert ItemEncoder(AsWritten, out.version)(values[i]) == EncodeItem(AsWritten, values[i], out.version);
      WriteManyStep(ItemEncoder(AsWritten, out.version), values, i, start, before, out.tokens);
      i := i + 1;
    }
    assert values[..i] == values;
  }

  /** `ShardRequest(StreamInput)`. */
  method ReadHeader(input: StreamInput) returns (r: Result<RequestHeader, ReadError>)
    modifies input
    ensures Mirrors(r, DecodeHeader(input.tokens, old(input.pos)), input.pos)
  {
    var header := input.ReadReplication();
    if header.Failure? { return Failure(header.error); }
    var most := input.ReadLong();
    if most.Failure? { return Failure(most.error); }
    var least := input.ReadLong();
    if least.Failure? { return Failure(least.error); }
    var continueOnError := input.ReadBoolean();
    if continueOnError.Failure? { return Failure(continueOnError.error); }
    return Success(RequestHeader(header.value, UUID(most.value, least.value), continueOnError.value));
  }

  /** The fields the stream constructor reads before the items. */
  method ReadPrefix(input: StreamInput) returns (r: Result<RequestPrefix, ReadError>)
    modifies input
    ensures Mirrors(r, DecodePrefix(input.tokens, old(input.pos)), input.pos)
  {
    var h := ReadHeader(input);
    if h.Failure? { return Failure(h.error); }
    var updateColumns := ReadStringArray(input);
    if updateColumns.Failure? { return Failure(updateColumns.error); }
    var own := input.ReadBoolean();
    if own.Failure? { return Failure(own.error); }
    var settings := input.ReadSettings();
    if settings.Failure? { return Failure(settings.error); }
    return Success(RequestPrefix(h.value, updateColumns.value, own.value, settings.value));
  }

  /** One round of the `readItems` loop: reads the item after the `i` already
      decoded ones, or reports why the `size` items cannot be read. */
  method ReadNextItem(input: StreamInput, ghost dec: (seq<Token>, nat) -> Read<ItemValue>, ghost p0: nat,
                      ghost size: nat, ghost i: nat, ghost values: seq<ItemValue>)
    returns (r: Result<Item, ReadError>)
    requires dec == ItemDecoder(AsWritten, input.version) && i < size
    requires DecodeMany(dec, input.tokens, p0, i) == Ok(values, input.pos)
    modifies input
    ensures r.Success? ==> fresh(r.value) && DecodeMany(dec, input.tokens, p0, i + 1) == Ok(values + [r.value.Value()], input.pos)
    ensures r.Failure? ==> DecodeMany(dec, input.tokens, p0, size) == Fail(r.error)
  {
    ghost var p := input.pos;
    r := ReadItem(input);
    if r.Failure? {
      DecodeManyStop(dec, input.tokens, p0, i, size, values, p, r.error);
    } else {
      DecodeManyExtend(dec, input.tokens, p0, i, values, p, r.value.Value(), input.pos);
    }
  }

  /** `readItems(in, size)`: exactly `size` new items, in stream order. */
  method ReadItems(input: StreamInput, size: nat) returns (r: Result<seq<Item>, ReadError>)
    modifies input
    ensures r.Success? ==> |r.value| == size
    ensures match DecodeItems(AsWritten, input.tokens, old(input.pos), size, input.version)
            case Ok(vs, q) => r.Success? && ValuesOf(r.value) == vs && input.pos == q
                              && forall i :: i in r.value ==> fresh(i)
            case Fail(e) => r == Failure(e)
  {
    var items: seq<Item> := [];
    ghost var values: seq<ItemValue> := [];
    ghost var dec := ItemDecoder(AsWritten, input.version);
    ghost var p0 := input.pos;
    for i := 0 to size
      invariant |items| == |values| == i
      invariant forall k :: 0 <= k < i ==> fresh(items[k]) && items[k].Value() == values[k]
      invariant DecodeMany(dec, input.tokens, p0, i) == Ok(values, input.pos)
    {
      var item := ReadNextItem(input, dec, p0, size, i, values);
      if item.Failure? {
        return Failure(item.error);
      }
      values := values + [item.value.Value()];
      items := items + [item.value];
    }
    assert ValuesOf(items) == values;
    return Success(items);
  }

  /** The stream constructor `ShardUpdateRequest(StreamInput)`, as written. */
  method ReadRequest(input: StreamInput) returns (r: Result<ShardUpdateRequest, ReadError>)
    modifies input
    ensures match DecodeRequest(AsWritten, input.tokens, old(input.pos), input.version)
            case Ok(v, q) => r.Success? && fresh(r.value) && r.value.Value() == v && input.pos == q
            case Fail(e) => r == Failure(e)
  {
    var pre := ReadPrefix(input);
    if pre.Failure? { return Failure(pre.error); }
    var at := input.pos;
    var n := input.ReadVInt();
    if n.Failure? { return Failure(n.error); }
    if n.value < 0 { return Failure(NegativeSize(at)); }
    var items := ReadItems(input, n.value);
    if items.Failure? { return Failure(items.error); }
    ghost var values := ValuesOf(items.value);
    var returnValues := ReadSymbolArray(input);
    if returnValues.Failure? { return Failure(returnValues.error); }
    assert ValuesOf(items.value) == values;
    var request := new ShardUpdateRequest.Decoded(pre.value.header, pre.value.updateColumns,
                                                  pre.value.ownContinueOnError, pre.value.sessionSettings,
                                                  items.value, Contents(returnValues.value), values);
    return Success(request);
  }

  // ---------------------------------------------------------------- equality

  predicate ItemsEqual(xs: seq<Item>, ys: seq<Item>)
    reads set x | x in xs, set y | y in ys
  {
    |xs| == |ys| && forall k :: 0 <= k < |xs| ==> ItemEquals(xs[k], ys[k])
  }

  /** `ShardUpdateRequest.equals` after `ShardRequest.equals`: both flags, job
      id, items (by `Item.equals`), return values and update columns (by
      content). The header and the session settings play no part. */
  predicate RequestEquals(a: ShardUpdateRequest, b: ShardUpdateRequest)
    reads a, b, set x | x in a.items, set y | y in b.items
  {
    a == b
    || (a.continueOnError == b.continueOnError && a.jobId == b.jobId && ItemsEqual(a.items, b.items)
        && a.returnValues == b.returnValues && a.ownContinueOnError == b.ownContinueOnError
        && a.updateColumns == b.updateColumns)
  }

  /** `equals` is reflexive, symmetric and transitive. */
  lemma RequestEqualsIsEquivalence(a: ShardUpdateRequest, b: ShardUpdateRequest, c: ShardUpdateRequest)
    ensures RequestEquals(a, a)
    ensures RequestEquals(a, b) ==> RequestEquals(b, a)
    ensures RequestEquals(a, b) && RequestEquals(b, c) ==> RequestEquals(a, c)
  {
  }

  // ---------------------------------------------------------------- the builder

  /** `ShardUpdateRequest.Builder`: the final fields every request it stamps
      out shares. */
  datatype Builder = Builder(
    sessionSettings: SessionSettings,
    timeout: TimeValue,
    continueOnError: bool,
    assignmentsColumns: Option<seq<string>>,
    returnValues: Option<seq<Symbol>>,
    jobId: UUID)
  {
    /** `newRequest(shardId)`. */
    method NewRequest(shardId: ShardId) returns (r: ShardUpdateRequest)
      requires assignmentsColumns.Some?
      ensures fresh(r) && r.items == [] && r.Value() == Built(this, shardId)
    {
      r := new ShardUpdateRequest(sessionSettings, shardId, assignmentsColumns, returnValues, jobId, continueOnError);
      r.SetTimeout(timeout);
    }
  }

  /** The content of the request `b.newRequest(shardId)` returns. */
  function Built(b: Builder, shardId: ShardId): RequestValue
  {
    RequestValue(ReplicationHeader(shardId, shardId.indexName, Some(b.timeout)), b.jobId, b.continueOnError,
                 b.assignmentsColumns, false, b.sessionSettings, [], b.returnValues)
  }

  /** A request fresh from the builder does read back as written, since it has
      no items yet: the base flag carries the builder's `continueOnError`, the
      flag the subclass writes and compares is always false, and empty update
      columns or return values come back as null. */
  lemma BuiltRequestRoundTrip(b: Builder, shardId: ShardId, ts: seq<Token>, pos: nat, version: Version)
    requires At(ts, pos, EncodeRequest(AsWritten, Built(b, shardId), version))
    ensures DecodeRequest(AsWritten, ts, pos, version).Ok?
    ensures var r := DecodeRequest(AsWritten, ts, pos, version).value;
            r.jobId == b.jobId && r.continueOnError == b.continueOnError && !r.ownContinueOnError
            && r.header.timeout == Some(b.timeout) && r.header.shardId == shardId
            && r.sessionSettings == b.sessionSettings && r.items == []
            && r.updateColumns == NullIfEmpty(b.assignmentsColumns) && r.returnValues == NullIfEmpty(b.returnValues)
  {
    RequestRoundTrip(AsWritten, ts, pos, Built(b, shardId), version);
  }
}
