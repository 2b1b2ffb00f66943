/**
 * The variable-length quantity of Standard MIDI Files 1.0 ("Conventions"):
 * seven bits per byte, most significant group first, every byte but the last
 * with its high bit set. The decoder reads at most four bytes.
 */
module MidiVlq {
  import opened Ints

  /** Outcome of `parse_variable_length_quantity`: its return value is `count`, -1 or 0. */
  datatype Vlq =
    | Decoded(count: nat, value: nat)   // a byte without the continuation bit ended the quantity
    | NeedMore                           // fewer than four bytes available, all continuing
    | Overlong                           // four bytes available, all continuing

  /** Big-endian concatenation of the low seven bits of each byte. */
  function Septets(s: seq<byte>): nat
  {
    if s == [] then 0 else Septets(s[..|s| - 1]) * 0x80 + s[|s| - 1] % 0x80
  }

  function Pow128(n: nat): (r: nat)
    ensures r >= 1
  {
    if n == 0 then 1 else 0x80 * Pow128(n - 1)
  }

  /** `k` groups of seven bits make a number below 128^k. */
  lemma {:induction false} SeptetsBound(s: seq<byte>)
    ensures Septets(s) < Pow128(|s|)
    decreases |s|
  {
    if s != [] {
      SeptetsBound(s[..|s| - 1]);
    }
  }

  /** Every byte before position `n` has its continuation bit set. */
  ghost predicate AllContinue(data: seq<byte>, n: nat)
    requires n <= |data|
  {
    forall j :: 0 <= j < n ==> data[j] >= 0x80
  }

  /** The quantity as the decoder sees it: what it returns and what it stores in `*res`. */
  function DecodeVlq(data: seq<byte>): (r: Vlq)
    ensures r.Decoded? ==>
      && 1 <= r.count <= 4 && r.count <= |data|
      && data[r.count - 1] < 0x80 && AllContinue(data, r.count - 1)
      && r.value == Septets(data[..r.count]) && r.value < 0x1000_0000
    ensures r.Overlong? <==> |data| >= 4 && AllContinue(data, 4)
    ensures r.NeedMore? <==> |data| < 4 && AllContinue(data, |data|)
  {
    DecodeFrom(data, 0)
  }

  function DecodeFrom(data: seq<byte>, i: nat): (r: Vlq)
    requires i <= 4 && i <= |data| && AllContinue(data, i)
    ensures r.Decoded? ==>
      && i < r.count <= 4 && r.count <= |data|
      && data[r.count - 1] < 0x80 && AllContinue(data, r.count - 1)
      && r.value == Septets(data[..r.count]) && r.value < 0x1000_0000
    ensures r.Overlong? <==> |data| >= 4 && AllContinue(data, 4)
    ensures r.NeedMore? <==> |data| < 4 && AllContinue(data, |data|)
    decreases 4 - i
  {
    if i == 4 then Overlong
    else if i == |data| then NeedMore
    else if data[i] < 0x80 then
      SeptetsBound(data[..i + 1]);
      assert Pow128(i + 1) <= Pow128(4) == 0x1000_0000 by { Pow128Monotone(i + 1, 4); }
      Decoded(i + 1, Septets(data[..i + 1]))
    else DecodeFrom(data, i + 1)
  }

  lemma {:induction false} Pow128Monotone(a: nat, b: nat)
    requires a <= b
    ensures Pow128(a) <= Pow128(b)
    decreases b
  {
    if a < b {
      Pow128Monotone(a, b - 1);
    }
  }

  /**
   * `parse_variable_length_quantity`: reads at most four bytes, accumulating
   * `result = result << 7 | byte & 0x7F`, and returns at the first byte whose
   * high bit is clear. `res` stands for `*res`, which is written only on success;
   * both callers pass a variable initialised to zero, which is what stays there otherwise.
   */
  method ParseVariableLengthQuantity(data: seq<byte>) returns (n: int, res: uint32)
    ensures DecodeVlq(data).Decoded? ==> n == DecodeVlq(data).count && res == DecodeVlq(data).value
    ensures DecodeVlq(data).Overlong? ==> n == -1 && res == 0
    ensures DecodeVlq(data).NeedMore? ==> n == 0 && res == 0
  {
    var len := if |data| > 4 then 4 else |data|;
    var result: uint32 := 0;
    var i := 0;
    while i < len
      invariant 0 <= i <= len
      invariant AllContinue(data, i)
      invariant result == Septets(data[..i]) && result < Pow128(i)
    {
      var b := data[i];
      assert data[..i + 1][..i] == data[..i];
      Pow128Monotone(i + 1, 4);
      result := result * 0x80 + b % 0x80;
      if b < 0x80 {
        n, res := i + 1, result;
        return;
      }
      i := i + 1;
    }
    res := 0;
    if len == 4 {
      n := -1;
    } else {
      n := 0;
    }
  }

  /** A verdict other than "need more" does not change when more bytes follow: the decoder never looks past its terminator or its fourth byte. */
  lemma DecodeVlqStable(data: seq<byte>, more: seq<byte>)
    requires !DecodeVlq(data).NeedMore?
    ensures DecodeVlq(data + more) == DecodeVlq(data)
  {
    var d := data + more;
    assert forall j :: 0 <= j < |data| ==> d[j] == data[j];
    match DecodeVlq(data)
    case Decoded(c, v) =>
      assert d[..c] == data[..c];
      DecodeVlqAt(d, c);
    case Overlong =>
  }

  /** A terminator at position `c - 1` within the first four bytes fixes the decoded quantity. */
  lemma DecodeVlqAt(data: seq<byte>, c: nat)
    requires 1 <= c <= 4 && c <= |data|
    requires data[c - 1] < 0x80 && AllContinue(data, c - 1)
    ensures DecodeVlq(data) == Decoded(c, Septets(data[..c]))
  {
    var r := DecodeVlq(data);
    assert !r.Overlong? && !r.NeedMore?;
  }

  /** The continuation bytes of a quantity whose high groups are `q`, most significant first. */
  function ContinuationBytes(q: nat): (s: seq<byte>)
    ensures forall j :: 0 <= j < |s| ==> s[j] >= 0x80
  {
    if q == 0 then [] else ContinuationBytes(q / 0x80) + [q % 0x80 + 0x80]
  }

  /** The shortest encoding of `v`, as a Standard MIDI File writer produces it. */
  function EncodeVlq(v: nat): (s: seq<byte>)
    requires v < 0x1000_0000
  {
    ContinuationBytes(v / 0x80) + [v % 0x80]
  }

  lemma {:induction false} ContinuationBytesFacts(q: nat, k: nat)
    requires q < Pow128(k)
    ensures |ContinuationBytes(q)| <= k
    ensures Septets(ContinuationBytes(q)) == q
    decreases q
  {
    if q != 0 {
      var s := ContinuationBytes(q);
      assert k >= 1;
      ContinuationBytesFacts(q / 0x80, k - 1);
      assert s[..|s| - 1] == ContinuationBytes(q / 0x80);
    }
  }

  /** The encoding is one to four bytes: continuation bytes, then a last byte below `0x80`, whose septets spell `v`. */
  lemma EncodeVlqShape(v: nat)
    requires v < 0x1000_0000
    ensures var e := EncodeVlq(v);
      && 1 <= |e| <= 4 && e[|e| - 1] < 0x80 && AllContinue(e, |e| - 1) && Septets(e) == v
  {
    var e := EncodeVlq(v);
    var p := ContinuationBytes(v / 0x80);
    assert Pow128(3) == 0x20_0000;
    ContinuationBytesFacts(v / 0x80, 3);
    assert e[..|e| - 1] == p;
  }

  /** Decoding the encoding of any value below 2^28 gives that value back, whatever follows it. */
  lemma VlqRoundTrip(v: nat, rest: seq<byte>)
    requires v < 0x1000_0000
    ensures 1 <= |EncodeVlq(v)| <= 4
    ensures DecodeVlq(EncodeVlq(v) + rest) == Decoded(|EncodeVlq(v)|, v)
  {
    var e := EncodeVlq(v);
    EncodeVlqShape(v);
    assert e[..|e|] == e;
    DecodeVlqAt(e, |e|);
    DecodeVlqStable(e, rest);
  }
}
