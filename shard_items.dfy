/** One per-document write of a shard request: the abstract `ShardRequest.Item`
    (document id, optimistic-concurrency tokens, source, position in the client
    batch) together with the fields `ShardUpdateRequest.Item` adds (update
    assignments and per-item return values), and the item codec. */
module ShardItems {
  import opened Wrappers
  import opened JavaTypes
  import opened Streams
  import opened CountedArrays

  /** `Versions.MATCH_ANY`: no version was given. */
  const MATCH_ANY: int64 := -3
  /** `SequenceNumbers.UNASSIGNED_SEQ_NO`. */
  const UNASSIGNED_SEQ_NO: int64 := -2
  /** `SequenceNumbers.UNASSIGNED_PRIMARY_TERM`. */
  const UNASSIGNED_PRIMARY_TERM: int64 := 0

  /** The content of an item, as the codec sees it. */
  datatype ItemValue = ItemValue(
    id: string,
    version: int64,
    location: int32,
    seqNo: int64,
    primaryTerm: int64,
    source: Option<Bytes>,
    returnValues: Option<seq<Symbol>>,
    updateAssignments: Option<seq<Symbol>>)

  /** The six fields every item starts with. */
  datatype ItemFields = ItemFields(
    id: string, version: int64, location: int32, seqNo: int64, primaryTerm: int64, source: Option<Bytes>)

  /** Which item codec: the one in the source, or one whose reader and writer
      agree (the base reader does not read a return-values count, and the
      writer emits the item's return values only to peers on or after 4.2.0). */
  datatype ItemWire = AsWritten | Aligned

  // ---------------------------------------------------------------- encoding

  /** `ShardRequest.Item.writeTo`: id, version, location, seqNo, primaryTerm,
      source (a `null` source as an empty reference). */
  function EncodeItemFields(v: ItemValue): seq<Token>
  {
    [StringTok(v.id), LongTok(v.version), IntTok(v.location), LongTok(v.seqNo),
     LongTok(v.primaryTerm), BytesTok(BytesOrEmpty(v.source))]
  }

  /** A presence flag, then count and symbols when present. */
  function EncodeAssignments(ua: Option<seq<Symbol>>): seq<Token>
  {
    match ua
    case None => [BoolTok(false)]
    case Some(s) => [BoolTok(true), VIntTok(|s|)] + SymbolTokens(s)
  }

  /** A presence flag, then the source when present. */
  function EncodeSource(source: Option<Bytes>): seq<Token>
  {
    match source
    case None => [BoolTok(false)]
    case Some(b) => [BoolTok(true), BytesTok(b)]
  }

  /** Whether the writer emits the item's return-values block. */
  predicate WritesItemReturnValues(wire: ItemWire, version: Version)
  {
    wire == AsWritten || OnOrAfter(version, V_4_2_0)
  }

  /** `ShardUpdateRequest.Item.writeTo`. */
  function EncodeItem(wire: ItemWire, v: ItemValue, version: Version): seq<Token>
  {
    EncodeItemFields(v) + (EncodeAssignments(v.updateAssignments) + (EncodeSource(v.source)
    + (if WritesItemReturnValues(wire, version) then EncodeSymbolArray(v.returnValues) else [])))
  }

  // ---------------------------------------------------------------- decoding

  function DecodeItemFields(ts: seq<Token>, pos: nat): Read<ItemFields>
  {
    var id :- ReadStringAt(ts, pos);
    var version :- ReadLongAt(ts, id.next);
    var location :- ReadIntAt(ts, version.next);
    var seqNo :- ReadLongAt(ts, location.next);
    var primaryTerm :- ReadLongAt(ts, seqNo.next);
    var source :- ReadBytesAt(ts, primaryTerm.next);
    Ok(ItemFields(id.value, version.value, location.value, seqNo.value, primaryTerm.value, source.value),
       source.next)
  }

  /** `if (readBoolean()) { n = readVInt(); new Symbol[n]; ... }` */
  function DecodeAssignments(ts: seq<Token>, pos: nat): Read<Option<seq<Symbol>>>
  {
    var present :- ReadBoolAt(ts, pos);
    if !present.value then Ok(None, present.next)
    else
      var n :- ReadVIntAt(ts, present.next);
      if n.value < 0 then Fail(NegativeSize(present.next))
      else
        var s :- DecodeSymbols(ts, n.next, n.value);
        Ok(Some(s.value), s.next)
  }

  /** `if (readBoolean()) source = readBytesReference();` keeping `current` otherwise. */
  function DecodeSource(ts: seq<Token>, pos: nat, current: Option<Bytes>): Read<Option<Bytes>>
  {
    var present :- ReadBoolAt(ts, pos);
    if present.value then
      var b :- ReadBytesAt(ts, present.next);
      Ok(b.value, b.next)
    else
      Ok(current, present.next)
  }

  /** The stream constructors `ShardRequest.Item(StreamInput)` followed by
      `ShardUpdateRequest.Item(StreamInput)`. The return values read last
      replace the earlier ones only when their count is positive. */
  function DecodeItem(wire: ItemWire, ts: seq<Token>, pos: nat, version: Version): Read<ItemValue>
  {
    var f :- DecodeItemFields(ts, pos);
    var base :- if wire == AsWritten then DecodeSymbolArray(ts, f.next) else Ok(None, f.next);
    var ua :- DecodeAssignments(ts, base.next);
    var source :- DecodeSource(ts, ua.next, f.value.source);
    var rv :- if OnOrAfter(version, V_4_2_0) then DecodeSymbolArray(ts, source.next) else Ok(None, source.next);
    Ok(ItemValue(f.value.id, f.value.version, f.value.location, f.value.seqNo, f.value.primaryTerm,
                 source.value, if rv.value.Some? then rv.value else base.value, ua.value),
       rv.next)
  }

  // ---------------------------------------------------------------- round trips

  /** As written, reader and writer disagree after the six common fields: the
      reader expects the return-values count of `ShardRequest.Item(StreamInput)`
      where the writer put the update-assignments presence flag. In the token
      model that mismatch is a decode failure, for every item. On the byte
      stream it is a misreading instead: the flag byte is taken as a count,
      which goes wrong for an item with update assignments or a source, and
      for every item once the reader is on or after 4.2.0 (it then reads one
      count more than was written). */
  lemma ItemRoundTripFailsAsWritten(ts: seq<Token>, pos: nat, v: ItemValue, version: Version)
    requires At(ts, pos, EncodeItem(AsWritten, v, version))
    ensures DecodeItem(AsWritten, ts, pos, version) == Fail(UnexpectedToken(pos + 6))
  {
    var rest := EncodeAssignments(v.updateAssignments) + EncodeSource(v.source) + EncodeSymbolArray(v.returnValues);
    assert EncodeItem(AsWritten, v, version) == EncodeItemFields(v) + rest;
    AtSplit(ts, pos, EncodeItemFields(v), rest);
    FieldsRoundTrip(ts, pos, v);
    AtHead(ts, pos + 6, rest);
    assert ReadVIntAt(ts, pos + 6) == Fail(UnexpectedToken(pos + 6));
  }

  /** The six base fields read back as written, except that a `null` source
      comes back as an empty reference. */
  lemma FieldsRoundTrip(ts: seq<Token>, pos: nat, v: ItemValue)
    requires At(ts, pos, EncodeItemFields(v))
    ensures DecodeItemFields(ts, pos)
         == Ok(ItemFields(v.id, v.version, v.location, v.seqNo, v.primaryTerm, Some(BytesOrEmpty(v.source))), pos + 6)
  {
    var e := EncodeItemFields(v);
    AtIndex(ts, pos, e, 0);
    AtIndex(ts, pos, e, 1);
    AtIndex(ts, pos, e, 2);
    AtIndex(ts, pos, e, 3);
    AtIndex(ts, pos, e, 4);
    AtIndex(ts, pos, e, 5);
  }

  lemma AssignmentsRoundTrip(ts: seq<Token>, pos: nat, ua: Option<seq<Symbol>>)
    requires At(ts, pos, EncodeAssignments(ua))
    ensures DecodeAssignments(ts, pos) == Ok(ua, pos + |EncodeAssignments(ua)|)
  {
    AtHead(ts, pos, EncodeAssignments(ua));
    if ua.Some? {
      AtSplit(ts, pos, [BoolTok(true), VIntTok(|ua.value|)], SymbolTokens(ua.value));
      AtIndex(ts, pos, [BoolTok(true), VIntTok(|ua.value|)], 1);
      SymbolsRoundTrip(ts, pos + 2, ua.value);
    }
  }

  /** A present source reads back exactly; an absent one leaves the source
      the base constructor read (`current`) in place. */
  lemma SourceRoundTrip(ts: seq<Token>, pos: nat, source: Option<Bytes>, current: Option<Bytes>)
    requires At(ts, pos, EncodeSource(source))
    ensures DecodeSource(ts, pos, current) == Ok(if source.Some? then source else current, pos + |EncodeSource(source)|)
  {
    AtHead(ts, pos, EncodeSource(source));
    if source.Some? {
      AtIndex(ts, pos, EncodeSource(source), 1);
    }
  }

  /** What a reader of `version` gets for item `v`: a `null` source comes back
      as an empty reference (the base fields carry it so), return values reach
      only peers on or after 4.2.0, and an empty array comes back as `null`. */
  function Delivered(v: ItemValue, version: Version): ItemValue
  {
    v.(source := Some(BytesOrEmpty(v.source)),
       returnValues := if OnOrAfter(version, V_4_2_0) then NullIfEmpty(v.returnValues) else None)
  }

  /** With reader and writer aligned, every field survives: id, the three
      concurrency tokens, location and update assignments exactly, the source
      and the return values as `Delivered` says. */
  lemma {:induction false} ItemRoundTrip(ts: seq<Token>, pos: nat, v: ItemValue, version: Version)
    requires At(ts, pos, EncodeItem(Aligned, v, version))
    ensures DecodeItem(Aligned, ts, pos, version) == Ok(Delivered(v, version), pos + |EncodeItem(Aligned, v, version)|)
  {
    var p1 := pos + 6;
    var p2 := p1 + |EncodeAssignments(v.updateAssignments)|;
    var p3 := p2 + |EncodeSource(v.source)|;
    ItemLayout(ts, pos, v, version);
    FieldsRoundTrip(ts, pos, v);
    AssignmentsRoundTrip(ts, p1, v.updateAssignments);
    var read := v.(source := Some(BytesOrEmpty(v.source)));
    SourceRoundTrip(ts, p2, v.source, read.source);
    var rv: Read<Option<seq<Symbol>>> := if OnOrAfter(version, V_4_2_0) then DecodeSymbolArray(ts, p3) else Ok(None, p3);
    if OnOrAfter(version, V_4_2_0) {
      SymbolArrayRoundTrip(ts, p3, v.returnValues);
    }
    DecodeItemAligned(ts, pos, version, read, p1, p2, p3, rv);
  }

  /** Where each part of an aligned item sits. */
  lemma ItemLayout(ts: seq<Token>, pos: nat, v: ItemValue, version: Version)
    requires At(ts, pos, EncodeItem(Aligned, v, version))
    ensures At(ts, pos, EncodeItemFields(v))
    ensures At(ts, pos + 6, EncodeAssignments(v.updateAssignments))
    ensures At(ts, pos + 6 + |EncodeAssignments(v.updateAssignments)|, EncodeSource(v.source))
    ensures OnOrAfter(version, V_4_2_0) ==>
      At(ts, pos + 6 + |EncodeAssignments(v.updateAssignments)| + |EncodeSource(v.source)|, EncodeSymbolArray(v.returnValues))
    ensures |EncodeItem(Aligned, v, version)|
         == 6 + |EncodeAssignments(v.updateAssignments)| + |EncodeSource(v.source)|
            + (if OnOrAfter(version, V_4_2_0) then |EncodeSymbolArray(v.returnValues)| else 0)
  {
    var a := EncodeItemFields(v);
    var b := EncodeAssignments(v.updateAssignments);
    var c := EncodeSource(v.source);
    var d := if OnOrAfter(version, V_4_2_0) then EncodeSymbolArray(v.returnValues) else [];
    AtSplit4(ts, pos, a, b, c, d, pos + 6, pos + 6 + |b|, pos + 6 + |b| + |c|);
  }

  /** `DecodeItem` on the aligned wire, given what each of its parts reads. */
  lemma DecodeItemAligned(ts: seq<Token>, pos: nat, version: Version, v: ItemValue, p1: nat, p2: nat, p3: nat,
                          rv: Read<Option<seq<Symbol>>>)
    requires DecodeItemFields(ts, pos) == Ok(ItemFields(v.id, v.version, v.location, v.seqNo, v.primaryTerm, v.source), p1)
    requires DecodeAssignments(ts, p1) == Ok(v.updateAssignments, p2)
    requires DecodeSource(ts, p2, v.source) == Ok(v.source, p3)
    requires rv == (if OnOrAfter(version, V_4_2_0) then DecodeSymbolArray(ts, p3) else Ok(None, p3))
    requires rv.Ok?
    ensures DecodeItem(Aligned, ts, pos, version) == Ok(v.(returnValues := rv.value), rv.next)
  {
  }

  method WriteItemFields(out: StreamOutput, v: ItemValue)
    modifies out
    ensures out.tokens == old(out.tokens) + EncodeItemFields(v)
  {
    out.WriteString(v.id);
    out.WriteLong(v.version);
    out.WriteInt(v.location);
    out.WriteLong(v.seqNo);
    out.WriteLong(v.primaryTerm);
    out.WriteBytesReference(v.source);
  }

  method WriteAssignments(out: StreamOutput, ua: Option<seq<Symbol>>)
    modifies out
    ensures out.tokens == old(out.tokens) + EncodeAssignments(ua)
  {
    if ua.Some? {
      out.WriteBoolean(true);
      out.WriteVInt(|ua.value|);
      WriteSymbols(out, ua.value);
    } else {
      out.WriteBoolean(false);
    }
  }

  method WriteSource(out: StreamOutput, source: Option<Bytes>)
    modifies out
    ensures out.tokens == old(out.tokens) + EncodeSource(source)
  {
    var sourceAvailable := source.Some?;
    out.WriteBoolean(sourceAvailable);
    if sourceAvailable {
      out.WriteBytesReference(source);
    }
  }

  // ---------------------------------------------------------------- the object

  /** `ShardUpdateRequest.Item`, with the fields it inherits. The return values
      are a Java array whose identity `equals` compares. */
  class Item {
    const id: string
    var version: int64
    var source: Option<Bytes>
    var location: int32
    var seqNo: int64
    var primaryTerm: int64
    var returnValues: array?<Symbol>
    var updateAssignments: Option<seq<Symbol>>

    function Value(): ItemValue
      reads this, returnValues
    {
      ItemValue(id, version, location, seqNo, primaryTerm, source, Contents(returnValues), updateAssignments)
    }

    /** `retryOnConflict()`: neither a sequence number nor a version was pinned. */
    predicate RetryOnConflict()
      reads this
    {
      seqNo == UNASSIGNED_SEQ_NO && version == MATCH_ANY
    }

    /** `new ShardUpdateRequest.Item(id, updateAssignments, version, seqNo,
        primaryTerm, returnValues)`: the base constructor's defaults, each token
        overridden only when its argument is not null. */
    constructor (id: string, updateAssignments: Option<seq<Symbol>>, version: Option<int64>,
                 seqNo: Option<int64>, primaryTerm: Option<int64>, returnValues: array?<Symbol>)
      ensures this.id == id && this.updateAssignments == updateAssignments
      ensures this.returnValues == returnValues && source == None && location == -1
      ensures this.version == (if version.Some? then version.value else MATCH_ANY)
      ensures this.seqNo == (if seqNo.Some? then seqNo.value else UNASSIGNED_SEQ_NO)
      ensures this.primaryTerm == (if primaryTerm.Some? then primaryTerm.value else UNASSIGNED_PRIMARY_TERM)
      ensures RetryOnConflict()
          <==> (version.None? || version.value == MATCH_ANY) && (seqNo.None? || seqNo.value == UNASSIGNED_SEQ_NO)
    {
      this.id := id;
      this.version := MATCH_ANY;
      this.source := None;
      this.location := -1;
      this.seqNo := UNASSIGNED_SEQ_NO;
      this.primaryTerm := UNASSIGNED_PRIMARY_TERM;
      this.updateAssignments := updateAssignments;
      this.returnValues := returnValues;
      new;
      if version.Some? {
        this.version := version.value;
      }
      if seqNo.Some? {
        this.seqNo := seqNo.value;
      }
      if primaryTerm.Some? {
        this.primaryTerm := primaryTerm.value;
      }
    }

    /** The item the stream constructor builds, field by field. */
    constructor Decoded(f: ItemFields, source: Option<Bytes>, returnValues: array?<Symbol>,
                        updateAssignments: Option<seq<Symbol>>)
      ensures id == f.id && version == f.version && location == f.location && seqNo == f.seqNo
      ensures primaryTerm == f.primaryTerm && this.source == source
      ensures this.returnValues == returnValues && this.updateAssignments == updateAssignments
    {
      id := f.id;
      version := f.version;
      location := f.location;
      seqNo := f.seqNo;
      primaryTerm := f.primaryTerm;
      this.source := source;
      this.returnValues := returnValues;
      this.updateAssignments := updateAssignments;
    }

    method SetVersion(version: int64)
      modifies this
      ensures Value() == old(Value()).(version := version)
      ensures returnValues == old(returnValues)
    {
      this.version := version;
    }

    method SetLocation(location: int32)
      modifies this
      ensures Value() == old(Value()).(location := location)
      ensures returnValues == old(returnValues)
    {
      this.location := location;
    }

    method SetSeqNo(seqNo: int64)
      modifies this
      ensures Value() == old(Value()).(seqNo := seqNo)
      ensures returnValues == old(returnValues)
    {
      this.seqNo := seqNo;
    }

    method SetPrimaryTerm(primaryTerm: int64)
      modifies this
      ensures Value() == old(Value()).(primaryTerm := primaryTerm)
      ensures returnValues == old(returnValues)
    {
      this.primaryTerm := primaryTerm;
    }

    method SetSource(source: Option<Bytes>)
      modifies this
      ensures Value() == old(Value()).(source := source)
      ensures returnValues == old(returnValues)
    {
      this.source := source;
    }

    /** `writeTo`: the base fields, then the update-specific ones. */
    method WriteTo(out: StreamOutput)
      modifies out
      ensures out.tokens == old(out.tokens) + EncodeItem(AsWritten, Value(), out.version)
    {
      var v := Value();
      ghost var t0 := out.tokens;
      WriteItemFields(out, v);
      WriteAssignments(out, updateAssignments);
      WriteSource(out, source);
      WriteSymbolArray(out, Contents(returnValues));
      Associate(t0, EncodeItemFields(v), EncodeAssignments(v.updateAssignments), EncodeSource(v.source),
                EncodeSymbolArray(v.returnValues));
    }
  }

  /** `ItemFields` read by the first lines of `ShardRequest.Item(StreamInput)`. */
  method ReadItemFields(input: StreamInput) returns (r: Result<ItemFields, ReadError>)
    modifies input
    ensures Mirrors(r, DecodeItemFields(input.tokens, old(input.pos)), input.pos)
  {
    var id := input.ReadString();
    if id.Failure? { return Failure(id.error); }
    var version := input.ReadLong();
    if version.Failure? { return Failure(version.error); }
    var location := input.ReadInt();
    if location.Failure? { return Failure(location.error); }
    var seqNo := input.ReadLong();
    if seqNo.Failure? { return Failure(seqNo.error); }
    var primaryTerm := input.ReadLong();
    if primaryTerm.Failure? { return Failure(primaryTerm.error); }
    var source := input.ReadBytesReference();
    if source.Failure? { return Failure(source.error); }
    return Success(ItemFields(id.value, version.value, location.value, seqNo.value, primaryTerm.value, source.value));
  }

  method ReadAssignments(input: StreamInput) returns (r: Result<Option<seq<Symbol>>, ReadError>)
    modifies input
    ensures Mirrors(r, DecodeAssignments(input.tokens, old(input.pos)), input.pos)
  {
    var present := input.ReadBoolean();
    if present.Failure? { return Failure(present.error); }
    if !present.value { return Success(None); }
    var at := input.pos;
    var n := input.ReadVInt();
    if n.Failure? { return Failure(n.error); }
    if n.value < 0 { return Failure(NegativeSize(at)); }
    var elements := ReadSymbolElements(input, n.value);
    if elements.Failure? { return Failure(elements.error); }
    return Success(Some(elements.value[..]));
  }

  method ReadSource(input: StreamInput, current: Option<Bytes>) returns (r: Result<Option<Bytes>, ReadError>)
    modifies input
    ensures Mirrors(r, DecodeSource(input.tokens, old(input.pos), current), input.pos)
  {
    var present := input.ReadBoolean();
    if present.Failure? { return Failure(present.error); }
    if present.value {
      r := input.ReadBytesReference();
    } else {
      r := Success(current);
    }
  }

  /** The stream constructor `ShardUpdateRequest.Item(StreamInput)`, with the
      base constructor it calls first, as written. Any return-values array it
      builds is fresh, so under `ItemEquals` the result never equals an item
      that existed before, unless neither has return values. */
  method ReadItem(input: StreamInput) returns (r: Result<Item, ReadError>)
    modifies input
    ensures match DecodeItem(AsWritten, input.tokens, old(input.pos), input.version)
            case Ok(v, q) => r.Success? && fresh(r.value) && r.value.Value() == v && input.pos == q
                             && (r.value.returnValues != null ==> fresh(r.value.returnValues))
            case Fail(e) => r == Failure(e)
  {
    var f := ReadItemFields(input);
    if f.Failure? { return Failure(f.error); }
    var returnValues := ReadSymbolArray(input);
    if returnValues.Failure? { return Failure(returnValues.error); }
    var updateAssignments := ReadAssignments(input);
    if updateAssignments.Failure? { return Failure(updateAssignments.error); }
    var source := ReadSource(input, f.value.source);
    if source.Failure? { return Failure(source.error); }
    var rv := returnValues.value;
    if OnOrAfter(input.version, V_4_2_0) {
      var later := ReadSymbolArray(input);
      if later.Failure? { return Failure(later.error); }
      if later.value != null {
        rv := later.value;
      }
    }
    var item := new Item.Decoded(f.value, source.value, rv, updateAssignments.value);
    return Success(item);
  }

  /** `Item.equals`: the return-values arrays are compared with
      `Objects.equals`, that is, by identity. */
  predicate ItemEquals(a: Item, b: Item)
    reads a, b
  {
    a == b
    || (a.version == b.version && a.location == b.location && a.seqNo == b.seqNo
        && a.primaryTerm == b.primaryTerm && a.id == b.id
        && a.returnValues == b.returnValues && a.source == b.source)
  }

  /** Two items with the same content are equal exactly when they share their
      return-values array (or both have none). */
  lemma ItemEqualsIsArrayIdentity(a: Item, b: Item)
    requires a.Value() == b.Value()
    ensures ItemEquals(a, b) <==> a.returnValues == b.returnValues
  {
  }
}
