/** Unsigned 8-bit values. */
module Bytes {

  type Byte = b: int | 0 <= b < 256
}

/** The messages of the three queue programs and their 16-bit checksum. */
module Messages {
  import opened Bytes

  /** As laid out in memory: a type byte, a 16-bit hash, a size byte and 256 data bytes. */
  datatype RawMessage = Message(kind: Byte, hash: nat, size: Byte, data: seq<Byte>)

  predicate WellFormed(m: RawMessage) { |m.data| == 256 && m.hash < 0x1_0000 }

  type Message = m: RawMessage | WellFormed(m) witness Message(0, 0, 0, seq(256, _ => 0))

  function Sum(data: seq<Byte>): nat {
    if data == [] then 0 else Sum(data[..|data| - 1]) + data[|data| - 1]
  }

  /** The checksum as a sum of unbounded numbers: type, size and the first `size` data bytes. */
  function HashSum(m: Message): nat {
    m.kind + m.size + Sum(m.data[..m.size])
  }

  predicate Verifies(m: Message) { m.hash == HashSum(m) }

  lemma ZeroSum(data: seq<Byte>)
    requires data == []
    ensures Sum(data) == 0
  {
  }

  function SomeMessage(): (m: Message)
    ensures Verifies(m)
  {
    var m := Message(0, 0, 0, seq(256, _ => 0));
    ZeroSum(m.data[..0]);
    m
  }

  lemma {:induction false} SumBound(data: seq<Byte>)
    ensures Sum(data) <= 255 * |data|
  {
    if data != [] { SumBound(data[..|data| - 1]); }
  }

  /** The checksum of any message fits 16 bits. */
  lemma HashFits(m: Message)
    ensures HashSum(m) < 0x1_0000
  {
    SumBound(m.data[..m.size]);
  }

  lemma {:induction false} SumOneByte(data: seq<Byte>, i: nat, b: Byte)
    requires i < |data|
    ensures Sum(data[i := b]) == Sum(data) + b - data[i]
  {
    var n := |data| - 1;
    if i < n {
      SumOneByte(data[..n], i, b);
      assert data[i := b][..n] == data[..n][i := b];
    } else {
      assert data[i := b][..n] == data[..n];
    }
  }

  /** Which bytes count: changing a data byte in front of `size` changes the checksum by the difference, changing
      one at or behind it changes nothing; type and size count once each, and without data they are all. */
  lemma HashCounts(m: Message, i: nat, b: Byte)
    requires i < 256
    ensures HashSum(m.(data := m.data[i := b])) == HashSum(m) + (if i < m.size then b - m.data[i] else 0)
    ensures HashSum(m.(kind := b)) == HashSum(m) + b - m.kind
    ensures (forall j :: 0 <= j < m.size ==> m.data[j] == 0) ==> HashSum(m) == m.kind + m.size
  {
    var data := m.data[i := b];
    if i < m.size {
      assert data[..m.size] == m.data[..m.size][i := b];
      SumOneByte(m.data[..m.size], i, b);
    } else {
      assert data[..m.size] == m.data[..m.size];
    }
    if forall j :: 0 <= j < m.size ==> m.data[j] == 0 { SumOfZeros(m.data[..m.size]); }
  }

  lemma {:induction false} SumOfZeros(data: seq<Byte>)
    requires forall i :: 0 <= i < |data| ==> data[i] == 0
    ensures Sum(data) == 0
  {
    if data != [] { SumOfZeros(data[..|data| - 1]); }
  }

  lemma {:induction false} SumOfMax(data: seq<Byte>)
    requires forall i :: 0 <= i < |data| ==> data[i] == 255
    ensures Sum(data) == 255 * |data|
  {
    if data != [] { SumOfMax(data[..|data| - 1]); }
  }

  /** It fits with nothing to spare: one message reaches the largest 16-bit value. */
  lemma HashBoundIsTight()
    ensures exists m: Message :: HashSum(m) == 0xFFFF
  {
    var data: seq<Byte> := seq(256, _ => 255);
    var m: Message := Message(255, 0, 255, data);
    SumOfMax(m.data[..255]);
    assert HashSum(m) == 0xFFFF;
  }

  /** compute_hash: every addition is cut to 16 bits, yet the result is the plain sum. */
  method ComputeHash(msg: Message) returns (result: nat)
    ensures result == HashSum(msg)
  {
    var temp := msg.(hash := 0);
    HashFits(msg);
    result := 0;
    result := (result + temp.kind) % 0x1_0000;
    result := (result + temp.size) % 0x1_0000;
    var i := 0;
    while i < temp.size
      invariant i <= temp.size && result == temp.kind + temp.size + Sum(temp.data[..i])
    {
      SumBound(temp.data[..i + 1]);
      assert temp.data[..i + 1][..i] == temp.data[..i];
      result := (result + temp.data[i]) % 0x1_0000;
      i := i + 1;
    }
  }

  method VerifyHash(msg: Message) returns (ok: bool)
    ensures ok <==> Verifies(msg)
  {
    var h := ComputeHash(msg);
    ok := h == msg.hash;
  }

  /** fill_random_message with the random bytes as arguments: the message it leaves verifies. */
  method FillMessage(kind: Byte, size: Byte, data: seq<Byte>) returns (msg: Message)
    requires |data| == 256
    ensures Verifies(msg) && msg.kind == kind && msg.size == size && msg.data == data
  {
    msg := Message(kind, 0, size, data);
    var h := ComputeHash(msg);
    HashFits(msg);
    msg := msg.(hash := h);
  }
}
