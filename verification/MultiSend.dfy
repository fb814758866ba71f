/**
 Packing of several calls into one byte string, for a contract that makes
 them one after the other, and the decoder that takes the string apart again.
 */
module MultiSend {
  import opened Common

  type Byte = b: int | 0 <= b < 256

  type Bytes = seq<Byte>

  type Address = a: Bytes | |a| == 20 witness seq(20, _ => 0)

  const WORD: nat := 32

  /** 256 to the power of `k`. */
  function Pow256(k: nat): nat {
    if k == 0 then 1 else 256 * Pow256(k - 1)
  }

  /** Numbers that fit in a 256-bit word. */
  type U256 = n: nat | n < Pow256(WORD) witness WordHoldsZero()

  function WordHoldsZero(): (z: nat)
    ensures z < Pow256(WORD)
  {
    PowPositive(WORD);
    0
  }

  lemma {:induction false} PowPositive(k: nat)
    ensures Pow256(k) >= 1
  {
    if k > 0 {
      PowPositive(k - 1);
    }
  }

  datatype Transaction = Transaction(to: Address, value: U256, data: Bytes)

  /** Lengths are written as a 256-bit word, so the data of a call must not be longer than that. */
  ghost predicate Encodable(txns: seq<Transaction>) {
    forall i :: 0 <= i < |txns| ==> |txns[i].data| < Pow256(WORD)
  }

  // ----- big-endian words -----

  function BigEndian(n: nat, width: nat): (s: Bytes)
    ensures |s| == width
  {
    if width == 0 then [] else BigEndian(n / 256, width - 1) + [n % 256]
  }

  function Value(s: Bytes): nat {
    if s == [] then 0 else 256 * Value(s[..|s| - 1]) + s[|s| - 1]
  }

  lemma {:induction false} WordRoundTrip(n: nat, width: nat)
    requires n < Pow256(width)
    ensures Value(BigEndian(n, width)) == n
  {
    if width > 0 {
      var s := BigEndian(n, width);
      WordRoundTrip(n / 256, width - 1);
      assert s[..width - 1] == BigEndian(n / 256, width - 1);
    }
  }

  lemma {:induction false} ValueRoundTrip(s: Bytes)
    ensures Value(s) < Pow256(|s|) && BigEndian(Value(s), |s|) == s
  {
    if s != [] {
      ValueRoundTrip(s[..|s| - 1]);
    }
  }

  // ----- encoding -----

  function EncodeOne(t: Transaction): (s: Bytes)
    ensures |s| == 85 + |t.data|
  {
    [0] + t.to + BigEndian(t.value, WORD) + BigEndian(|t.data|, WORD) + t.data
  }

  function Encode(txns: seq<Transaction>): Bytes {
    if txns == [] then [] else EncodeOne(txns[0]) + Encode(txns[1..])
  }

  method EncodeMultiSend(txns: seq<Transaction>) returns (packed: Bytes)
    ensures packed == Encode(txns)
  {
    packed := [];
    var i := 0;
    while i < |txns|
      invariant 0 <= i <= |txns|
      invariant packed + Encode(txns[i..]) == Encode(txns)
    {
      EncodeHead(packed, txns, i);
      packed := AppendTransaction(packed, txns[i]);
      i := i + 1;
    }
    assert txns[i..] == [];
  }

  method AppendTransaction(buffer: Bytes, tx: Transaction) returns (packed: Bytes)
    ensures packed == buffer + EncodeOne(tx)
  {
    packed := buffer;
    packed := packed + [0];
    packed := packed + tx.to;
    packed := packed + BigEndian(tx.value, WORD);
    packed := packed + BigEndian(|tx.data|, WORD);
    packed := packed + tx.data;
  }

  lemma EncodeHead(packed: Bytes, txns: seq<Transaction>, i: nat)
    requires i < |txns|
    ensures packed + Encode(txns[i..]) == (packed + EncodeOne(txns[i])) + Encode(txns[i + 1..])
  {
    assert txns[i..][1..] == txns[i + 1..];
    Associative(packed, EncodeOne(txns[i]), Encode(txns[i + 1..]));
  }

  lemma Associative(a: Bytes, b: Bytes, c: Bytes)
    ensures a + (b + c) == (a + b) + c
  {
  }

  // ----- decoding -----

  /** One call off the front: operation byte 0, 20 bytes of address, value, length, data. */
  function DecodeOne(b: Bytes): (r: Option<(Transaction, Bytes)>)
    ensures r.Some? ==> |r.value.1| < |b|
  {
    if |b| < 85 || b[0] != 0 then None
    else
      ValueRoundTrip(b[21..53]);
      var length := Value(b[53..85]);
      if |b| < 85 + length then None
      else Some((Transaction(b[1..21], Value(b[21..53]), b[85..85 + length]), b[85 + length..]))
  }

  function Decode(b: Bytes): Option<seq<Transaction>>
    decreases |b|
  {
    if b == [] then Some([])
    else
      var one := DecodeOne(b);
      if one.None? then None
      else
        var rest := Decode(one.value.1);
        if rest.None? then None else Some([one.value.0] + rest.value)
  }

  lemma DecodeEncodeOne(t: Transaction, rest: Bytes)
    requires |t.data| < Pow256(WORD)
    ensures DecodeOne(EncodeOne(t) + rest) == Some((t, rest))
  {
    var b := EncodeOne(t) + rest;
    assert b[1..21] == t.to;
    assert b[21..53] == BigEndian(t.value, WORD);
    assert b[53..85] == BigEndian(|t.data|, WORD);
    WordRoundTrip(t.value, WORD);
    WordRoundTrip(|t.data|, WORD);
    assert b[85..85 + |t.data|] == t.data;
    assert b[85 + |t.data|..] == rest;
  }

  lemma DecodeStep(t: Transaction, tail: seq<Transaction>, packed: Bytes)
    requires |t.data| < Pow256(WORD) && Decode(packed) == Some(tail)
    ensures Decode(EncodeOne(t) + packed) == Some([t] + tail)
  {
    DecodeEncodeOne(t, packed);
    Unfolded(EncodeOne(t) + packed, t, packed);
  }

  lemma Unfolded(b: Bytes, t: Transaction, rest: Bytes)
    requires b != [] && DecodeOne(b) == Some((t, rest))
    ensures Decode(b) == if Decode(rest).None? then None else Some([t] + Decode(rest).value)
  {
  }

  /** The decoder recovers every list of calls from its packing. */
  lemma {:induction false} RoundTrip(txns: seq<Transaction>)
    requires Encodable(txns)
    ensures Decode(Encode(txns)) == Some(txns)
  {
    if txns != [] {
      RoundTrip(txns[1..]);
      DecodeStep(txns[0], txns[1..], Encode(txns[1..]));
      assert [txns[0]] + txns[1..] == txns;
    }
  }

  /** So two different lists of calls are never packed into the same bytes. */
  lemma EncodeInjective(a: seq<Transaction>, b: seq<Transaction>)
    requires Encodable(a) && Encodable(b) && Encode(a) == Encode(b)
    ensures a == b
  {
    RoundTrip(a);
    RoundTrip(b);
  }

  lemma EncodeDecodeOne(b: Bytes)
    requires DecodeOne(b).Some?
    ensures var (t, rest) := DecodeOne(b).value; |t.data| < Pow256(WORD) && EncodeOne(t) + rest == b
  {
    var length := Value(b[53..85]);
    ValueRoundTrip(b[21..53]);
    ValueRoundTrip(b[53..85]);
    assert b == b[..1] + b[1..21] + b[21..53] + b[53..85] + b[85..85 + length] + b[85 + length..];
    assert b[..1] == [0];
  }

  /** And nothing else decodes: what the decoder accepts is the packing of what it returns. */
  lemma {:induction false} DecodedIsEncoding(b: Bytes)
    requires Decode(b).Some?
    ensures Encodable(Decode(b).value) && Encode(Decode(b).value) == b
    decreases |b|
  {
    if b != [] {
      var (t, rest) := DecodeOne(b).value;
      EncodeDecodeOne(b);
      DecodedIsEncoding(rest);
      var txns := Decode(b).value;
      assert txns[0] == t && txns[1..] == Decode(rest).value;
    }
  }
}
