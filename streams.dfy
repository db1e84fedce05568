/** The transport stream, abstracted to a sequence of typed tokens. Each
    `writeX` of Elasticsearch's `StreamOutput` appends one token; each `readX`
    of `StreamInput` consumes one and fails when the next token is missing or
    of another kind (the bytes of a well-formed stream would be misread). What
    the superclass, `Symbols`, `SessionSettings` and `BytesReference` put on the
    wire is not shown, so each of them is a single opaque token. */
module Streams {
  import opened Wrappers
  import opened JavaTypes

  datatype Token =
    | ReplicationTok(header: ReplicationHeader)
    | LongTok(l: int64)
    | IntTok(i: int32)
    | BoolTok(b: bool)
    | VIntTok(v: int)
    | StringTok(s: string)
    | BytesTok(bytes: Bytes)
    | SymbolTok(symbol: Symbol)
    | SettingsTok(settings: SessionSettings)

  /** Why reading stopped: the stream ended, the next token was of the wrong
      kind, or a decoded size was negative (`NegativeArraySizeException`, or the
      `IllegalArgumentException` of `new ArrayList<>(size)`). */
  datatype ReadError = EndOfStream | UnexpectedToken(at: nat) | NegativeSize(at: nat)

  /** A decoded value and the position just after it. */
  datatype Got<+T> = Got(value: T, next: nat)

  /** The result of decoding from position `pos` of a token sequence. */
  datatype Read<+T> = Ok(value: T, next: nat) | Fail(error: ReadError) {
    predicate IsFailure() { Fail? }

    function PropagateFailure<U>(): Read<U>
      requires Fail?
    {
      Fail(error)
    }

    function Extract(): Got<T>
      requires Ok?
    {
      Got(value, next)
    }
  }

  /** `e` is laid out in `ts` starting at `pos`. */
  predicate At(ts: seq<Token>, pos: nat, e: seq<Token>)
  {
    pos + |e| <= |ts| && forall k {:trigger e[k]} :: 0 <= k < |e| ==> ts[pos + k] == e[k]
  }

  lemma AtIndex(ts: seq<Token>, pos: nat, e: seq<Token>, k: nat)
    requires At(ts, pos, e) && k < |e|
    ensures pos + k < |ts| && ts[pos + k] == e[k]
  {
  }

  lemma AtSplit(ts: seq<Token>, pos: nat, a: seq<Token>, b: seq<Token>)
    requires At(ts, pos, a + b)
    ensures At(ts, pos, a) && At(ts, pos + |a|, b)
  {
    forall k | 0 <= k < |a| ensures ts[pos + k] == a[k] {
      assert (a + b)[k] == a[k];
    }
    forall k | 0 <= k < |b| ensures ts[pos + |a| + k] == b[k] {
      assert (a + b)[|a| + k] == b[k];
    }
  }

  /** Where each of four consecutive pieces sits. */
  lemma AtSplit4(ts: seq<Token>, pos: nat, a: seq<Token>, b: seq<Token>, c: seq<Token>, d: seq<Token>,
                 p1: nat, p2: nat, p3: nat)
    requires At(ts, pos, a + (b + (c + d)))
    requires p1 == pos + |a| && p2 == p1 + |b| && p3 == p2 + |c|
    ensures At(ts, pos, a) && At(ts, p1, b) && At(ts, p2, c) && At(ts, p3, d)
  {
    AtSplit(ts, pos, a, b + (c + d));
    AtSplit(ts, p1, b, c + d);
    AtSplit(ts, p2, c, d);
  }

  /** Where each of five consecutive pieces sits. */
  lemma AtSplit5(ts: seq<Token>, pos: nat, a: seq<Token>, b: seq<Token>, c: seq<Token>, d: seq<Token>,
                 e: seq<Token>, p1: nat, p2: nat, p3: nat, p4: nat)
    requires At(ts, pos, a + (b + (c + (d + e))))
    requires p1 == pos + |a| && p2 == p1 + |b| && p3 == p2 + |c| && p4 == p3 + |d|
    ensures At(ts, pos, a) && At(ts, p1, b) && At(ts, p2, c) && At(ts, p3, d) && At(ts, p4, e)
  {
    AtSplit(ts, pos, a, b + (c + (d + e)));
    AtSplit4(ts, p1, b, c, d, e, p2, p3, p4);
  }

  /** Where the fourth of five consecutive pieces sits. */
  lemma AtFourth(ts: seq<Token>, pos: nat, a: seq<Token>, b: seq<Token>, c: seq<Token>, d: seq<Token>,
                 e: seq<Token>, p: nat)
    requires At(ts, pos, a + (b + (c + (d + e))))
    requires p == pos + |a| + |b| + |c|
    ensures At(ts, p, d)
  {
    AtSplit5(ts, pos, a, b, c, d, e, pos + |a|, pos + |a| + |b|, p, p + |d|);
  }

  /** Where the last of five consecutive pieces sits. */
  lemma AtFifth(ts: seq<Token>, pos: nat, a: seq<Token>, b: seq<Token>, c: seq<Token>, d: seq<Token>,
                e: seq<Token>, p: nat)
    requires At(ts, pos, a + (b + (c + (d + e))))
    requires p == pos + |a| + |b| + |c| + |d|
    ensures At(ts, p, e)
  {
    AtSplit5(ts, pos, a, b, c, d, e, pos + |a|, pos + |a| + |b|, pos + |a| + |b| + |c|, p);
  }

  /** Appending four pieces one after the other appends their concatenation. */
  lemma Associate(t: seq<Token>, a: seq<Token>, b: seq<Token>, c: seq<Token>, d: seq<Token>)
    ensures t + a + b + c + d == t + (a + (b + (c + d)))
  {
  }

  /** Appending five pieces one after the other appends their concatenation. */
  lemma Associate5(t: seq<Token>, a: seq<Token>, b: seq<Token>, c: seq<Token>, d: seq<Token>, e: seq<Token>)
    ensures t + a + b + c + d + e == t + (a + (b + (c + (d + e))))
  {
    Associate(t, a, b, c, d);
    assert t + (a + (b + (c + d))) + e == t + (a + (b + (c + (d + e))));
  }

  lemma AtHead(ts: seq<Token>, pos: nat, e: seq<Token>)
    requires At(ts, pos, e) && 0 < |e|
    ensures ts[pos] == e[0]
  {
    assert ts[pos + 0] == e[0];
  }

  /** Prefixes the decoded sequence with `pre`; failures pass through. */
  function Prepend<T>(pre: seq<T>, d: Read<seq<T>>): Read<seq<T>>
  {
    match d
    case Ok(v, q) => Ok(pre + v, q)
    case Fail(e) => Fail(e)
  }

  lemma PrependNothing<T>(d: Read<seq<T>>)
    ensures Prepend([], d) == d
  {
    if d.Ok? {
      assert [] + d.value == d.value;
    }
  }

  lemma PrependPrepend<T>(a: seq<T>, b: seq<T>, d: Read<seq<T>>)
    ensures Prepend(a, Prepend(b, d)) == Prepend(a + b, d)
  {
    if d.Ok? {
      assert a + (b + d.value) == (a + b) + d.value;
    }
  }

  /** Values written one after the other, each as `enc` lays it out. */
  function EncodeMany<T>(enc: T -> seq<Token>, xs: seq<T>): seq<Token>
  {
    if xs == [] then [] else enc(xs[0]) + EncodeMany(enc, xs[1..])
  }

  lemma {:induction false} EncodeManySnoc<T>(enc: T -> seq<Token>, xs: seq<T>, x: T)
    ensures EncodeMany(enc, xs + [x]) == EncodeMany(enc, xs) + enc(x)
    decreases |xs|
  {
    if xs == [] {
      assert [x][1..] == [];
    } else {
      assert (xs + [x])[1..] == xs[1..] + [x];
      EncodeManySnoc(enc, xs[1..], x);
    }
  }

  /** The bytes a possibly-`null` reference carries on the wire. */
  function BytesOrEmpty(b: Option<Bytes>): Bytes
  {
    if b.Some? then b.value else []
  }

  /** `n` values read one after the other with `dec`; the first failure stops
      the reading. */
  function DecodeMany<T>(dec: (seq<Token>, nat) -> Read<T>, ts: seq<Token>, pos: nat, n: nat): Read<seq<T>>
    decreases n
  {
    if n == 0 then Ok([], pos)
    else
      var first :- dec(ts, pos);
      var rest :- DecodeMany(dec, ts, first.next, n - 1);
      Ok([first.value] + rest.value, rest.next)
  }

  /** If `dec` reads back `ys[k]` wherever `enc(xs[k])` is laid out, then
      reading `|xs|` values where all of `xs` was written gives back `ys`. */
  lemma {:induction false} ManyRoundTrip<T>(enc: T -> seq<Token>, dec: (seq<Token>, nat) -> Read<T>,
                                           ts: seq<Token>, pos: nat, xs: seq<T>, ys: seq<T>)
    requires |ys| == |xs|
    requires forall k, p: nat :: 0 <= k < |xs| && At(ts, p, enc(xs[k])) ==> dec(ts, p) == Ok(ys[k], p + |enc(xs[k])|)
    requires At(ts, pos, EncodeMany(enc, xs))
    ensures DecodeMany(dec, ts, pos, |xs|) == Ok(ys, pos + |EncodeMany(enc, xs)|)
    decreases |xs|
  {
    if xs != [] {
      AtSplit(ts, pos, enc(xs[0]), EncodeMany(enc, xs[1..]));
      assert dec(ts, pos) == Ok(ys[0], pos + |enc(xs[0])|);
      ManyRoundTrip(enc, dec, ts, pos + |enc(xs[0])|, xs[1..], ys[1..]);
      assert ys == [ys[0]] + ys[1..];
    }
  }

  /** A successful reading of `n` values yields exactly `n` of them. */
  lemma {:induction false} DecodeManyLength<T>(dec: (seq<Token>, nat) -> Read<T>, ts: seq<Token>, pos: nat, n: nat)
    ensures DecodeMany(dec, ts, pos, n).Ok? ==> |DecodeMany(dec, ts, pos, n).value| == n
    decreases n
  {
    if 0 < n && dec(ts, pos).Ok? {
      DecodeManyLength(dec, ts, dec(ts, pos).next, n - 1);
    }
  }

  /** One step of `DecodeMany`: the first value, then the rest. */
  lemma DecodeManyStep<T>(dec: (seq<Token>, nat) -> Read<T>, ts: seq<Token>, pos: nat, n: nat)
    requires 0 < n
    ensures DecodeMany(dec, ts, pos, n)
         == match dec(ts, pos)
            case Ok(x, q) => Prepend([x], DecodeMany(dec, ts, q, n - 1))
            case Fail(e) => Fail(e)
  {
  }

  /** Reading one more value after the first `i` extends what was read. */
  lemma {:induction false} DecodeManyExtend<T>(dec: (seq<Token>, nat) -> Read<T>, ts: seq<Token>, p0: nat, i: nat,
                                               pre: seq<T>, p: nat, x: T, q: nat)
    requires DecodeMany(dec, ts, p0, i) == Ok(pre, p)
    requires dec(ts, p) == Ok(x, q)
    ensures DecodeMany(dec, ts, p0, i + 1) == Ok(pre + [x], q)
    decreases i
  {
    if i == 0 {
      assert DecodeMany(dec, ts, q, 0) == Ok([], q);
      assert pre + [x] == [x] + [];
    } else {
      var first := dec(ts, p0);
      var rest := DecodeMany(dec, ts, first.next, i - 1);
      assert pre == [first.value] + rest.value;
      DecodeManyExtend(dec, ts, first.next, i - 1, rest.value, p, x, q);
      assert pre + [x] == [first.value] + (rest.value + [x]);
    }
  }

  /** The first value that fails to read makes the whole reading fail. */
  lemma {:induction false} DecodeManyStop<T>(dec: (seq<Token>, nat) -> Read<T>, ts: seq<Token>, p0: nat, i: nat,
                                             n: nat, pre: seq<T>, p: nat, e: ReadError)
    requires i < n
    requires DecodeMany(dec, ts, p0, i) == Ok(pre, p)
    requires dec(ts, p) == Fail(e)
    ensures DecodeMany(dec, ts, p0, n) == Fail(e)
    decreases i
  {
    if 0 < i {
      DecodeManyStop(dec, ts, dec(ts, p0).next, i - 1, n - 1, pre[1..], p, e);
    }
  }

  /** Writing `enc(xs[i])` after the first `i` values extends the prefix. */
  lemma WriteManyStep<T>(enc: T -> seq<Token>, xs: seq<T>, i: nat, start: seq<Token>, before: seq<Token>,
                         after: seq<Token>)
    requires i < |xs|
    requires before == start + EncodeMany(enc, xs[..i])
    requires after == before + enc(xs[i])
    ensures after == start + EncodeMany(enc, xs[..i + 1])
  {
    assert xs[..i + 1] == xs[..i] + [xs[i]];
    EncodeManySnoc(enc, xs[..i], xs[i]);
  }

  function Mismatch<T>(ts: seq<Token>, pos: nat): Read<T>
  {
    if pos < |ts| then Fail(UnexpectedToken(pos)) else Fail(EndOfStream)
  }

  function ReadReplicationAt(ts: seq<Token>, pos: nat): Read<ReplicationHeader>
  {
    if pos < |ts| && ts[pos].ReplicationTok? then Ok(ts[pos].header, pos + 1) else Mismatch(ts, pos)
  }

  function ReadLongAt(ts: seq<Token>, pos: nat): Read<int64>
  {
    if pos < |ts| && ts[pos].LongTok? then Ok(ts[pos].l, pos + 1) else Mismatch(ts, pos)
  }

  function ReadIntAt(ts: seq<Token>, pos: nat): Read<int32>
  {
    if pos < |ts| && ts[pos].IntTok? then Ok(ts[pos].i, pos + 1) else Mismatch(ts, pos)
  }

  function ReadBoolAt(ts: seq<Token>, pos: nat): Read<bool>
  {
    if pos < |ts| && ts[pos].BoolTok? then Ok(ts[pos].b, pos + 1) else Mismatch(ts, pos)
  }

  function ReadVIntAt(ts: seq<Token>, pos: nat): Read<int>
  {
    if pos < |ts| && ts[pos].VIntTok? then Ok(ts[pos].v, pos + 1) else Mismatch(ts, pos)
  }

  function ReadStringAt(ts: seq<Token>, pos: nat): Read<string>
  {
    if pos < |ts| && ts[pos].StringTok? then Ok(ts[pos].s, pos + 1) else Mismatch(ts, pos)
  }

  /** `readBytesReference` never yields `null`: an empty reference comes back
      as an empty one. */
  function ReadBytesAt(ts: seq<Token>, pos: nat): Read<Option<Bytes>>
  {
    if pos < |ts| && ts[pos].BytesTok? then Ok(Some(ts[pos].bytes), pos + 1) else Mismatch(ts, pos)
  }

  function ReadSymbolAt(ts: seq<Token>, pos: nat): Read<Symbol>
  {
    if pos < |ts| && ts[pos].SymbolTok? then Ok(ts[pos].symbol, pos + 1) else Mismatch(ts, pos)
  }

  function ReadSettingsAt(ts: seq<Token>, pos: nat): Read<SessionSettings>
  {
    if pos < |ts| && ts[pos].SettingsTok? then Ok(ts[pos].settings, pos + 1) else Mismatch(ts, pos)
  }

  /** `r` is what a reading method reports for decoding result `d`, and the
      stream now stands at `pos`. */
  predicate Mirrors<T(==)>(r: Result<T, ReadError>, d: Read<T>, pos: nat)
  {
    match d
    case Ok(v, q) => r == Success(v) && pos == q
    case Fail(e) => r == Failure(e)
  }

  /** `StreamOutput`: the tokens written so far, for a peer of version `version`. */
  class StreamOutput {
    const version: Version
    var tokens: seq<Token>

    constructor (version: Version)
      ensures this.version == version && tokens == []
    {
      this.version := version;
      tokens := [];
    }

    method Write(t: Token)
      modifies this
      ensures tokens == old(tokens) + [t]
    {
      tokens := tokens + [t];
    }

    method WriteReplication(h: ReplicationHeader)
      modifies this
      ensures tokens == old(tokens) + [ReplicationTok(h)]
    {
      Write(ReplicationTok(h));
    }

    method WriteLong(l: int64)
      modifies this
      ensures tokens == old(tokens) + [LongTok(l)]
    {
      Write(LongTok(l));
    }

    method WriteInt(i: int32)
      modifies this
      ensures tokens == old(tokens) + [IntTok(i)]
    {
      Write(IntTok(i));
    }

    method WriteBoolean(b: bool)
      modifies this
      ensures tokens == old(tokens) + [BoolTok(b)]
    {
      Write(BoolTok(b));
    }

    method WriteVInt(v: int)
      modifies this
      ensures tokens == old(tokens) + [VIntTok(v)]
    {
      Write(VIntTok(v));
    }

    method WriteString(s: string)
      modifies this
      ensures tokens == old(tokens) + [StringTok(s)]
    {
      Write(StringTok(s));
    }

    /** `writeBytesReference` writes `null` as an empty reference. */
    method WriteBytesReference(b: Option<Bytes>)
      modifies this
      ensures tokens == old(tokens) + [BytesTok(BytesOrEmpty(b))]
    {
      Write(BytesTok(BytesOrEmpty(b)));
    }

    method WriteSymbol(s: Symbol)
      modifies this
      ensures tokens == old(tokens) + [SymbolTok(s)]
    {
      Write(SymbolTok(s));
    }

    method WriteSettings(s: SessionSettings)
      modifies this
      ensures tokens == old(tokens) + [SettingsTok(s)]
    {
      Write(SettingsTok(s));
    }
  }

  /** `StreamInput`: a fixed token sequence, a read position, and the version
      of the peer that wrote it. */
  class StreamInput {
    const version: Version
    const tokens: seq<Token>
    var pos: nat

    constructor (version: Version, tokens: seq<Token>)
      ensures this.version == version && this.tokens == tokens && pos == 0
    {
      this.version := version;
      this.tokens := tokens;
      pos := 0;
    }

    /** Reports `d` and moves past what it consumed. */
    method Take<T(==)>(d: Read<T>) returns (r: Result<T, ReadError>)
      modifies this
      ensures Mirrors(r, d, pos)
    {
      if d.Ok? {
        pos := d.next;
        r := Success(d.value);
      } else {
        r := Failure(d.error);
      }
    }

    method ReadReplication() returns (r: Result<ReplicationHeader, ReadError>)
      modifies this
      ensures Mirrors(r, ReadReplicationAt(tokens, old(pos)), pos)
    {
      r := Take(ReadReplicationAt(tokens, pos));
    }

    method ReadLong() returns (r: Result<int64, ReadError>)
      modifies this
      ensures Mirrors(r, ReadLongAt(tokens, old(pos)), pos)
    {
      r := Take(ReadLongAt(tokens, pos));
    }

    method ReadInt() returns (r: Result<int32, ReadError>)
      modifies this
      ensures Mirrors(r, ReadIntAt(tokens, old(pos)), pos)
    {
      r := Take(ReadIntAt(tokens, pos));
    }

    method ReadBoolean() returns (r: Result<bool, ReadError>)
      modifies this
      ensures Mirrors(r, ReadBoolAt(tokens, old(pos)), pos)
    {
      r := Take(ReadBoolAt(tokens, pos));
    }

    method ReadVInt() returns (r: Result<int, ReadError>)
      modifies this
      ensures Mirrors(r, ReadVIntAt(tokens, old(pos)), pos)
    {
      r := Take(ReadVIntAt(tokens, pos));
    }

    method ReadString() returns (r: Result<string, ReadError>)
      modifies this
      ensures Mirrors(r, ReadStringAt(tokens, old(pos)), pos)
    {
      r := Take(ReadStringAt(tokens, pos));
    }

    method ReadBytesReference() returns (r: Result<Option<Bytes>, ReadError>)
      modifies this
      ensures Mirrors(r, ReadBytesAt(tokens, old(pos)), pos)
    {
      r := Take(ReadBytesAt(tokens, pos));
    }

    method ReadSymbol() returns (r: Result<Symbol, ReadError>)
      modifies this
      ensures Mirrors(r, ReadSymbolAt(tokens, old(pos)), pos)
    {
      r := Take(ReadSymbolAt(tokens, pos));
    }

    method ReadSettings() returns (r: Result<SessionSettings, ReadError>)
      modifies this
      ensures Mirrors(r, ReadSettingsAt(tokens, old(pos)), pos)
    {
      r := Take(ReadSettingsAt(tokens, pos));
    }
  }
}
