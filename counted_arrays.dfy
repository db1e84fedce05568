/** The count-prefixed arrays the hand-written codecs put on the wire: a vInt
    count followed by that many elements, where `null` is written as count 0
    and any count that is not positive reads back as `null`
    (ShardUpdateRequest.java, the `updateColumns`, `returnValues` and
    item `returnValues` blocks of `writeTo` and of the stream constructors). */
module CountedArrays {
  import opened Wrappers
  import opened JavaTypes
  import opened Streams

  function SymbolTokens(s: seq<Symbol>): (r: seq<Token>)
    ensures |r| == |s|
  {
    if s == [] then [] else [SymbolTok(s[0])] + SymbolTokens(s[1..])
  }

  function StringTokens(s: seq<string>): (r: seq<Token>)
    ensures |r| == |s|
  {
    if s == [] then [] else [StringTok(s[0])] + StringTokens(s[1..])
  }

  lemma {:induction false} SymbolTokensSnoc(s: seq<Symbol>, x: Symbol)
    ensures SymbolTokens(s + [x]) == SymbolTokens(s) + [SymbolTok(x)]
    decreases |s|
  {
    if s == [] {
      assert [x][1..] == [];
    } else {
      assert (s + [x])[1..] == s[1..] + [x];
      SymbolTokensSnoc(s[1..], x);
    }
  }

  lemma {:induction false} StringTokensSnoc(s: seq<string>, x: string)
    ensures StringTokens(s + [x]) == StringTokens(s) + [StringTok(x)]
    decreases |s|
  {
    if s == [] {
      assert [x][1..] == [];
    } else {
      assert (s + [x])[1..] == s[1..] + [x];
      StringTokensSnoc(s[1..], x);
    }
  }

  /** Reads `n` symbols one after the other: `DecodeMany` with the symbol reader. */
  function DecodeSymbols(ts: seq<Token>, pos: nat, n: nat): Read<seq<Symbol>>
  {
    DecodeMany(ReadSymbolAt, ts, pos, n)
  }

  /** Reads `n` strings one after the other: `DecodeMany` with the string reader. */
  function DecodeStrings(ts: seq<Token>, pos: nat, n: nat): Read<seq<string>>
  {
    DecodeMany(ReadStringAt, ts, pos, n)
  }

  /** What a reader gets back for a nullable array: an empty array and `null`
      cannot be told apart. */
  function NullIfEmpty<T>(o: Option<seq<T>>): Option<seq<T>>
  {
    if o == Some([]) then None else o
  }

  function EncodeSymbolArray(o: Option<seq<Symbol>>): seq<Token>
  {
    match o
    case None => [VIntTok(0)]
    case Some(s) => [VIntTok(|s|)] + SymbolTokens(s)
  }

  function DecodeSymbolArray(ts: seq<Token>, pos: nat): Read<Option<seq<Symbol>>>
  {
    var count :- ReadVIntAt(ts, pos);
    if count.value > 0 then
      var s :- DecodeSymbols(ts, count.next, count.value);
      Ok(Some(s.value), s.next)
    else
      Ok(None, count.next)
  }

  function EncodeStringArray(o: Option<seq<string>>): seq<Token>
  {
    match o
    case None => [VIntTok(0)]
    case Some(s) => [VIntTok(|s|)] + StringTokens(s)
  }

  function DecodeStringArray(ts: seq<Token>, pos: nat): Read<Option<seq<string>>>
  {
    var count :- ReadVIntAt(ts, pos);
    if count.value > 0 then
      var s :- DecodeStrings(ts, count.next, count.value);
      Ok(Some(s.value), s.next)
    else
      Ok(None, count.next)
  }

  lemma {:induction false} SymbolsRoundTrip(ts: seq<Token>, pos: nat, s: seq<Symbol>)
    requires At(ts, pos, SymbolTokens(s))
    ensures DecodeSymbols(ts, pos, |s|) == Ok(s, pos + |s|)
    decreases |s|
  {
    if s != [] {
      AtSplit(ts, pos, [SymbolTok(s[0])], SymbolTokens(s[1..]));
      AtHead(ts, pos, [SymbolTok(s[0])]);
      SymbolsRoundTrip(ts, pos + 1, s[1..]);
      assert [s[0]] + s[1..] == s;
    }
  }

  lemma {:induction false} StringsRoundTrip(ts: seq<Token>, pos: nat, s: seq<string>)
    requires At(ts, pos, StringTokens(s))
    ensures DecodeStrings(ts, pos, |s|) == Ok(s, pos + |s|)
    decreases |s|
  {
    if s != [] {
      AtSplit(ts, pos, [StringTok(s[0])], StringTokens(s[1..]));
      AtHead(ts, pos, [StringTok(s[0])]);
      StringsRoundTrip(ts, pos + 1, s[1..]);
      assert [s[0]] + s[1..] == s;
    }
  }

  /** A symbol array read back is the one written, except that an empty array
      comes back as `null`; `null` and the empty array are written alike. */
  lemma SymbolArrayRoundTrip(ts: seq<Token>, pos: nat, o: Option<seq<Symbol>>)
    requires At(ts, pos, EncodeSymbolArray(o))
    ensures DecodeSymbolArray(ts, pos) == Ok(NullIfEmpty(o), pos + |EncodeSymbolArray(o)|)
    ensures EncodeSymbolArray(Some([])) == EncodeSymbolArray(None)
  {
    assert EncodeSymbolArray(Some([])) == [VIntTok(0)] + [];
    AtHead(ts, pos, EncodeSymbolArray(o));
    if o.Some? && o.value != [] {
      AtSplit(ts, pos, [VIntTok(|o.value|)], SymbolTokens(o.value));
      SymbolsRoundTrip(ts, pos + 1, o.value);
    }
  }

  /** The same for string arrays (`updateColumns`). */
  lemma StringArrayRoundTrip(ts: seq<Token>, pos: nat, o: Option<seq<string>>)
    requires At(ts, pos, EncodeStringArray(o))
    ensures DecodeStringArray(ts, pos) == Ok(NullIfEmpty(o), pos + |EncodeStringArray(o)|)
    ensures EncodeStringArray(Some([])) == EncodeStringArray(None)
  {
    assert EncodeStringArray(Some([])) == [VIntTok(0)] + [];
    AtHead(ts, pos, EncodeStringArray(o));
    if o.Some? && o.value != [] {
      AtSplit(ts, pos, [VIntTok(|o.value|)], StringTokens(o.value));
      StringsRoundTrip(ts, pos + 1, o.value);
    }
  }

  /** The content of a nullable Java array. */
  function Contents<T>(a: array?<T>): Option<seq<T>>
    reads a
  {
    if a == null then None else Some(a[..])
  }

  method WriteSymbols(out: StreamOutput, s: seq<Symbol>)
    modifies out
    ensures out.tokens == old(out.tokens) + SymbolTokens(s)
  {
    for k := 0 to |s|
      invariant out.tokens == old(out.tokens) + SymbolTokens(s[..k])
    {
      out.WriteSymbol(s[k]);
      assert s[..k + 1] == s[..k] + [s[k]];
      SymbolTokensSnoc(s[..k], s[k]);
    }
    assert s[..|s|] == s;
  }

  method WriteStrings(out: StreamOutput, s: seq<string>)
    modifies out
    ensures out.tokens == old(out.tokens) + StringTokens(s)
  {
    for k := 0 to |s|
      invariant out.tokens == old(out.tokens) + StringTokens(s[..k])
    {
      out.WriteString(s[k]);
      assert s[..k + 1] == s[..k] + [s[k]];
      StringTokensSnoc(s[..k], s[k]);
    }
    assert s[..|s|] == s;
  }

  /** Writes a nullable symbol array: its length and then each element, or
      the count 0 for `null`. */
  method WriteSymbolArray(out: StreamOutput, o: Option<seq<Symbol>>)
    modifies out
    ensures out.tokens == old(out.tokens) + EncodeSymbolArray(o)
  {
    if o.Some? {
      out.WriteVInt(|o.value|);
      WriteSymbols(out, o.value);
    } else {
      out.WriteVInt(0);
    }
  }

  method WriteStringArray(out: StreamOutput, o: Option<seq<string>>)
    modifies out
    ensures out.tokens == old(out.tokens) + EncodeStringArray(o)
  {
    if o.Some? {
      out.WriteVInt(|o.value|);
      WriteStrings(out, o.value);
    } else {
      out.WriteVInt(0);
    }
  }

  /** Fills a new array of `n` symbols, reading them one by one in stream
      order; the first symbol that cannot be read ends the loop with its error. */
  method ReadSymbolElements(input: StreamInput, n: nat) returns (r: Result<array<Symbol>, ReadError>)
    modifies input
    ensures match DecodeSymbols(input.tokens, old(input.pos), n)
            case Ok(s, q) => r.Success? && fresh(r.value) && r.value[..] == s && input.pos == q
            case Fail(e) => r == Failure(e)
  {
    var a := new Symbol[n];
    ghost var p0 := input.pos;
    PrependNothing(DecodeSymbols(input.tokens, p0, n));
    for i := 0 to n
      invariant DecodeSymbols(input.tokens, p0, n) == Prepend(a[..i], DecodeSymbols(input.tokens, input.pos, n - i))
    {
      ghost var before := a[..i];
      var s := input.ReadSymbol();
      if s.Failure? {
        assert DecodeSymbols(input.tokens, p0, n) == Fail(s.error);
        return Failure(s.error);
      }
      a[i] := s.value;
      PrependPrepend(before, [s.value], DecodeSymbols(input.tokens, input.pos, n - i - 1));
      assert a[..i + 1] == before + [s.value];
    }
    assert a[..n] == a[..];
    return Success(a);
  }

  /** Fills a new array of `n` strings, reading them one by one in stream
      order; the first string that cannot be read ends the loop with its error. */
  method ReadStringElements(input: StreamInput, n: nat) returns (r: Result<array<string>, ReadError>)
    modifies input
    ensures match DecodeStrings(input.tokens, old(input.pos), n)
            case Ok(s, q) => r.Success? && fresh(r.value) && r.value[..] == s && input.pos == q
            case Fail(e) => r == Failure(e)
  {
    var a := new string[n];
    ghost var p0 := input.pos;
    PrependNothing(DecodeStrings(input.tokens, p0, n));
    for i := 0 to n
      invariant DecodeStrings(input.tokens, p0, n) == Prepend(a[..i], DecodeStrings(input.tokens, input.pos, n - i))
    {
      ghost var before := a[..i];
      var s := input.ReadString();
      if s.Failure? {
        assert DecodeStrings(input.tokens, p0, n) == Fail(s.error);
        return Failure(s.error);
      }
      a[i] := s.value;
      PrependPrepend(before, [s.value], DecodeStrings(input.tokens, input.pos, n - i - 1));
      assert a[..i + 1] == before + [s.value];
    }
    assert a[..n] == a[..];
    return Success(a);
  }

  /** Reads a nullable symbol array: a count, then that many symbols into a
      new array when the count is positive; otherwise the array stays `null`. */
  method ReadSymbolArray(input: StreamInput) returns (r: Result<array?<Symbol>, ReadError>)
    modifies input
    ensures match DecodeSymbolArray(input.tokens, old(input.pos))
            case Ok(o, q) => r.Success? && Contents(r.value) == o && input.pos == q
                             && (r.value != null ==> fresh(r.value))
            case Fail(e) => r == Failure(e)
  {
    var count := input.ReadVInt();
    if count.Failure? {
      return Failure(count.error);
    }
    if count.value > 0 {
      var elements := ReadSymbolElements(input, count.value);
      if elements.Failure? {
        return Failure(elements.error);
      }
      return Success(elements.value);
    }
    return Success(null);
  }

  /** The same for strings, keeping only the content. */
  method ReadStringArray(input: StreamInput) returns (r: Result<Option<seq<string>>, ReadError>)
    modifies input
    ensures Mirrors(r, DecodeStringArray(input.tokens, old(input.pos)), input.pos)
  {
    var count := input.ReadVInt();
    if count.Failure? {
      return Failure(count.error);
    }
    if count.value > 0 {
      var elements := ReadStringElements(input, count.value);
      if elements.Failure? {
        return Failure(elements.error);
      }
      return Success(Some(elements.value[..]));
    }
    return Success(None);
  }
}
