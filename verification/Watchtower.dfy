/** Finding a signature at any bit offset of a witness. */
module Watchtower {
  import opened Common
  import opened XorArithmetic
  import opened Commitment
  import opened CommitmentBinding

  // ---- Bits ------------------------------------------------------------------------------------

  /** Bit `k` of a byte string, most significant bit of the first byte first. */
  function Bit(s: Bytes, k: nat): bool
    requires k < 8 * |s|
  {
    BitOf(s[k / 8], 7 - k % 8)
  }

  lemma {:induction false} BitOfLeft(a: nat, k: nat, i: nat)
    ensures BitOf(ShiftLeft(a, k), i) <==> i >= k && BitOf(a, i - k)
  {
    if k > 0 {
      var half := ShiftLeft(a, k - 1);
      assert ShiftLeft(a, k) == 2 * half && (2 * half) / 2 == half && (2 * half) % 2 == 0;
      if i > 0 {
        BitUp(2 * half, i - 1);
        BitOfLeft(a, k - 1, i - 1);
      } else {
        BitZero(2 * half);
      }
    }
  }

  lemma {:induction false} BitOfRight(a: nat, k: nat, i: nat)
    ensures BitOf(ShiftRight(a, k), i) <==> BitOf(a, i + k)
  {
    if k > 0 {
      BitOfRight(a / 2, k - 1, i);
      BitUp(a, i + k - 1);
    }
  }

  /** Truncation to a byte keeps the low eight bits. */
  lemma BitOfByte(a: nat, i: nat)
    ensures BitOf(a % 256, i) <==> i < 8 && BitOf(a, i)
  {
    LowBits(a, 8, i);
    Low8(a);
    hide Low, BitOf;
  }

  lemma Low8(a: nat)
    ensures Low(a, 8) == a % 256
  {
    Low4(a);
    Low4(a / 16);
    LowSplit(a);
    hide Low;
    var q, r := a / 16, a % 16;
    assert a == 16 * q + r;
    assert q == 16 * (q / 16) + q % 16;
    Remainder(a, q / 16, 16 * (q % 16) + r);
  }

  lemma Remainder(a: nat, q: nat, m: nat)
    requires a == 256 * q + m && m < 256
    ensures a % 256 == m
  {}

  lemma Low4(a: nat)
    ensures Low(a, 4) == a % 16
  {
    var q1, q2, q3 := a / 2, a / 2 / 2, a / 2 / 2 / 2;
    LowHalves(a, 4);
    LowHalves(q1, 3);
    LowHalves(q2, 2);
    LowHalves(q3, 1);
    assert Low(q3 / 2, 0) == 0;
    hide Low;
    assert a == 2 * q1 + a % 2 && q1 == 2 * q2 + q1 % 2 && q2 == 2 * q3 + q2 % 2 && q3 == 2 * (q3 / 2) + q3 % 2;
    Nibble(a, q3 / 2, Low(a, 4));
  }

  lemma Nibble(a: nat, q: nat, m: nat)
    requires a == 16 * q + m && m < 16
    ensures a % 16 == m
  {}

  lemma LowSplit(a: nat)
    ensures Low(a, 8) == Low(a, 4) + 16 * Low(a / 16, 4)
  {
    assert a / 2 / 2 / 2 / 2 == a / 16;
    assert Low(a, 8) == a % 2 + 2 * Low(a / 2, 7);
    assert Low(a / 2, 7) == a / 2 % 2 + 2 * Low(a / 2 / 2, 6);
    assert Low(a / 2 / 2, 6) == a / 2 / 2 % 2 + 2 * Low(a / 2 / 2 / 2, 5);
    assert Low(a / 2 / 2 / 2, 5) == a / 2 / 2 / 2 % 2 + 2 * Low(a / 2 / 2 / 2 / 2, 4);
    assert Low(a, 4) == a % 2 + 2 * Low(a / 2, 3);
    assert Low(a / 2, 3) == a / 2 % 2 + 2 * Low(a / 2 / 2, 2);
    assert Low(a / 2 / 2, 2) == a / 2 / 2 % 2 + 2 * Low(a / 2 / 2 / 2, 1);
    assert Low(a / 2 / 2 / 2, 1) == a / 2 / 2 / 2 % 2 + 2 * Low(a / 2 / 2 / 2 / 2, 0);
    hide Low;
  }

  /** A byte is its bits. */
  lemma {:induction false} SameBits(a: nat, b: nat, k: nat)
    requires a < Pow2(k) && b < Pow2(k) && forall i :: 0 <= i < k ==> BitOf(a, i) == BitOf(b, i)
    ensures a == b
  {
    if k > 0 {
      assert Pow2(k) == 2 * Pow2(k - 1);
      BitZero(a);
      BitZero(b);
      forall i | 0 <= i < k - 1
        ensures BitOf(a / 2, i) == BitOf(b / 2, i)
      {
        BitUp(a, i);
        BitUp(b, i);
        assert BitOf(a, i + 1) == BitOf(b, i + 1);
      }
      SameBits(a / 2, b / 2, k - 1);
    }
  }

  // ---- The shifted read ------------------------------------------------------------------------------

  /** The eight bits starting at bit `start`. */
  ghost predicate IsByteAt(b: Byte, s: Bytes, start: nat)
    requires start + 8 <= 8 * |s|
  {
    forall j :: 0 <= j < 8 ==> SameBit(b, s, start, j)
  }

  /** The `j`-th bit of the byte is the one `j` bits after `start`. */
  predicate SameBit(b: Byte, s: Bytes, start: nat, j: nat)
    requires start + 8 <= 8 * |s| && j < 8
  {
    BitOf(b, 7 - j) == Bit(s, start + j)
  }

  /** One byte read at a bit offset: the tail of one byte joined to the head of the next. */
  method ShiftedByte(bytes: Bytes, start: nat) returns (b: Byte)
    requires start + 8 <= 8 * |bytes|
    ensures IsByteAt(b, bytes, start)
  {
    var byte, shift := start / 8, start % 8;
    var hi := ShiftLeft(bytes[byte], shift) % 256;
    if shift == 0 {
      assert Or(hi, 0) == hi by { OrZero(hi); }
      b := hi;
      AlignedByte(bytes, start, b);
    } else {
      var lo := ShiftRight(bytes[byte + 1], 8 - shift);
      JoinedBelow(bytes[byte], bytes[byte + 1], shift);
      b := Or(hi, lo);
      JoinedByte(bytes, start, b);
    }
  }

  lemma {:induction false} OrZero(a: nat)
    ensures Or(a, 0) == a
  {
    if a > 0 { OrZero(a / 2); }
  }

  lemma AlignedByte(bytes: Bytes, start: nat, b: Byte)
    requires start + 8 <= 8 * |bytes| && start % 8 == 0 && b == ShiftLeft(bytes[start / 8], 0) % 256
    ensures IsByteAt(b, bytes, start)
  {
    forall j | 0 <= j < 8
      ensures SameBit(b, bytes, start, j)
    {
      assert (start + j) / 8 == start / 8 && (start + j) % 8 == j;
    }
  }

  /** Bits of the joined byte: the first `8 - shift` from one byte, the rest from the next. */
  lemma JoinedBits(x: Byte, y: Byte, shift: nat, i: nat)
    requires 0 < shift < 8 && i < 8
    ensures BitOf(Or(ShiftLeft(x, shift) % 256, ShiftRight(y, 8 - shift)), i)
            <==> if i >= shift then BitOf(x, i - shift) else BitOf(y, i + 8 - shift)
  {
    BitOfOr(ShiftLeft(x, shift) % 256, ShiftRight(y, 8 - shift), i);
    BitOfByte(ShiftLeft(x, shift), i);
    BitOfLeft(x, shift, i);
    BitOfRight(y, 8 - shift, i);
    hide BitOf, Or, ShiftLeft, ShiftRight;
    HighBits(y, i + 8 - shift);
  }

  lemma HighBits(y: Byte, i: nat)
    ensures i >= 8 ==> !BitOf(y, i)
  {
    BitOfByte(y, i);
    hide BitOf;
  }

  lemma {:induction false} OrBelow(a: nat, b: nat, k: nat)
    requires a < Pow2(k) && b < Pow2(k)
    ensures Or(a, b) < Pow2(k)
  {
    if k > 0 && (a != 0 || b != 0) { OrBelow(a / 2, b / 2, k - 1); }
  }

  lemma JoinedBelow(x: Byte, y: Byte, shift: nat)
    requires 0 < shift < 8
    ensures Or(ShiftLeft(x, shift) % 256, ShiftRight(y, 8 - shift)) < 256
  {
    Pow2Values();
    RightSmaller(y, 8 - shift);
    hide Pow2, Or, ShiftLeft, ShiftRight;
    OrBelow(ShiftLeft(x, shift) % 256, ShiftRight(y, 8 - shift), 8);
  }

  lemma {:induction false} RightSmaller(a: nat, k: nat)
    ensures ShiftRight(a, k) <= a
  {
    if k > 0 { RightSmaller(a / 2, k - 1); }
  }

  lemma JoinedByte(bytes: Bytes, start: nat, b: Byte)
    requires start + 8 <= 8 * |bytes| && start % 8 != 0
    requires b == Or(ShiftLeft(bytes[start / 8], start % 8) % 256, ShiftRight(bytes[start / 8 + 1], 8 - start % 8))
    ensures IsByteAt(b, bytes, start)
  {
    hide BitOf, Or, ShiftLeft, ShiftRight;
    forall j: nat | j < 8
      ensures SameBit(b, bytes, start, j)
    {
      Place(start, j);
      JoinedBits(bytes[start / 8], bytes[start / 8 + 1], start % 8, 7 - j);
    }
  }

  lemma Place(start: nat, j: nat)
    requires j < 8
    ensures (start + j) / 8 == start / 8 + (if start % 8 + j < 8 then 0 else 1)
    ensures (start + j) % 8 == if start % 8 + j < 8 then start % 8 + j else start % 8 + j - 8
  {}

  // ---- The scan -----------------------------------------------------------------------------------------

  /** The 64 bytes starting at bit `bit`. */
  ghost predicate IsWindow(window: Bytes, s: Bytes, bit: nat)
    requires bit + 512 <= 8 * |s|
  {
    |window| == 64 && forall k :: 0 <= k < 512 ==> Bit(window, k) == Bit(s, bit + k)
  }

  lemma WindowFromBytes(window: Bytes, s: Bytes, bit: nat)
    requires bit + 512 <= 8 * |s| && |window| == 64 && forall i :: 0 <= i < 64 ==> IsByteAt(window[i], s, bit + 8 * i)
    ensures IsWindow(window, s, bit)
  {
    hide BitOf;
    forall k | 0 <= k < 512
      ensures Bit(window, k) == Bit(s, bit + k)
    {
      assert IsByteAt(window[k / 8], s, bit + 8 * (k / 8));
      assert SameBit(window[k / 8], s, bit + 8 * (k / 8), k % 8);
      assert 8 * (k / 8) + k % 8 == k;
    }
  }

  lemma WindowUnique(one: Bytes, two: Bytes, s: Bytes, bit: nat)
    requires bit + 512 <= 8 * |s| && IsWindow(one, s, bit) && IsWindow(two, s, bit)
    ensures one == two
  {
    forall i | 0 <= i < 64
      ensures one[i] == two[i]
    {
      forall t | 0 <= t < 8
        ensures BitOf(one[i], t) == BitOf(two[i], t)
      {
        var k := 8 * i + 7 - t;
        assert k / 8 == i && 7 - k % 8 == t;
        assert Bit(one, k) == Bit(s, bit + k) == Bit(two, k);
        hide BitOf;
      }
      Pow2Values();
      hide BitOf, Pow2;
      SameBits(one[i], two[i], 8);
    }
  }

  /** Copies 512 bits into a buffer, eight at a time. */
  method BitWindow(bytes: Bytes, bit: nat) returns (window: Bytes)
    requires bit + 512 <= 8 * |bytes|
    ensures IsWindow(window, bytes, bit)
  {
    hide IsByteAt;
    var out := new Byte[64](i => 0);
    for i := 0 to 64
      invariant forall j :: 0 <= j < i ==> IsByteAt(out[j], bytes, bit + 8 * j)
    {
      var b := ShiftedByte(bytes, bit + i * 8);
      out[i] := b;
    }
    window := out[..];
    WindowFromBytes(window, bytes, bit);
  }

  /** A signature check that holds of some 64-byte strings. */
  type Check = Bytes -> bool

  /** The first window that verifies. `offsets` are filtered as the shifted read needs a spare byte. */
  method FindSignature(signed: Bytes, verifies: Check) returns (r: Option<Bytes>)
    ensures r.Some? ==> verifies(r.value) && exists bit: nat ::
        bit + 512 <= 8 * |signed| && IsWindow(r.value, signed, bit)
    ensures r.None? ==>
              forall bit: nat, window :: bit + 512 <= 8 * |signed| && IsWindow(window, signed, bit)
                  ==> !verifies(window)
  {
    var bits := 8 * |signed|;
    if bits < 512 { return None; }
    hide IsWindow;
    for bit := 0 to bits - 511
      invariant forall earlier: nat, window :: earlier < bit && IsWindow(window, signed, earlier) ==> !verifies(window)
    {
      SpareByte(|signed|, bit);
      if bit % 8 == 0 || bit / 8 + 64 < |signed| {
        var candidate := BitWindow(signed, bit);
        if verifies(candidate) { return Some(candidate); }
        OnlyWindow(signed, bit, candidate, verifies);
      }
    }
    r := None;
  }

  lemma OnlyWindow(signed: Bytes, bit: nat, candidate: Bytes, verifies: Check)
    requires bit + 512 <= 8 * |signed| && IsWindow(candidate, signed, bit) && !verifies(candidate)
    ensures forall window :: IsWindow(window, signed, bit) ==> !verifies(window)
  {
    forall window | IsWindow(window, signed, bit)
      ensures !verifies(window)
    {
      WindowUnique(window, candidate, signed, bit);
    }
  }

  /** The filter on offsets drops none: an unaligned window never ends in the last byte. */
  lemma SpareByte(length: nat, bit: nat)
    requires bit + 512 <= 8 * length
    ensures bit % 8 == 0 || bit / 8 + 64 < length
  {}

  // ---- Evidence from a confirmed transaction ----------------------------------------------------------------

  datatype Promise = Promise(commitment: Bytes32, signature: Bytes)

  /** The first input spending the lockbox. */
  method FindSpender(tx: Tx, lockbox: OutPoint) returns (i: int)
    ensures i == -1 ==> forall j :: 0 <= j < |tx.inputs| ==> !Spends(tx.inputs[j], lockbox)
    ensures i != -1 ==> 0 <= i < |tx.inputs| && Spends(tx.inputs[i], lockbox) && forall j ::
        0 <= j < i ==> !Spends(tx.inputs[j], lockbox)
  {
    for j := 0 to |tx.inputs|
      invariant forall l :: 0 <= l < j ==> !Spends(tx.inputs[l], lockbox)
    {
      if Spends(tx.inputs[j], lockbox) { return j; }
    }
    i := -1;
  }

  predicate Spends(input: TxIn, lockbox: OutPoint) {
    OutPoint(input.txid, input.vout) == lockbox
  }

  /** Extracts the operator's promise from the confirmed spend of a lockbox. */
  method PromiseFromChain(h: Hash, tag: Bytes, genesis: Bytes32, lockbox: OutPoint, tx: Tx, spent: seq<TxOut>,
                          verifies: (Bytes32, Bytes) -> bool)
    returns (r: Option<Promise>)
    ensures r.Some? ==>
              && Shaped(tx, spent) && r.value.commitment == h(CommitmentString(h, tx, spent))
              && verifies(PromiseDigest(h, tag, genesis, lockbox, r.value.commitment), r.value.signature)
              && exists i: nat, bit: nat ::
                   && i < |tx.inputs| && tx.inputs[i].txid == lockbox.txid && tx.inputs[i].vout == lockbox.vout
                   && (forall j :: 0 <= j < i ==> OutPoint(tx.inputs[j].txid, tx.inputs[j].vout) != lockbox)
                   && tx.inputs[i].stack != [] && bit + 512 <= 8 * |tx.inputs[i].stack[0]|
                   && IsWindow(r.value.signature, tx.inputs[i].stack[0], bit)
    ensures r.None? && Shaped(tx, spent) ==>
              forall signature, i: nat, bit: nat ::
                && i < |tx.inputs| && tx.inputs[i].txid == lockbox.txid && tx.inputs[i].vout == lockbox.vout
                && (forall j :: 0 <= j < i ==> OutPoint(tx.inputs[j].txid, tx.inputs[j].vout) != lockbox)
                && tx.inputs[i].stack != [] && bit + 512 <= 8 * |tx.inputs[i].stack[0]|
                && IsWindow(signature, tx.inputs[i].stack[0], bit) ==>
                  !verifies(PromiseDigest(h, tag, genesis, lockbox, h(CommitmentString(h, tx, spent))), signature)
  {
    hide Shaped, CommitmentString, IsWindow, PromiseDigest;
    var i := FindSpender(tx, lockbox);
    if i == -1 { return None; }
    var commitment := TxCommitment(h, tx, spent);
    if commitment.None? { return None; }
    if tx.inputs[i].stack == [] { return None; }
    var digest := PromiseDigest(h, tag, genesis, lockbox, commitment.value);
    var signature := FindSignature(tx.inputs[i].stack[0], s => verifies(digest, s));
    if signature.None? { return None; }
    ghost var bit: nat :| bit + 512 <= 8 * |tx.inputs[i].stack[0]|
        && IsWindow(signature.value, tx.inputs[i].stack[0], bit);
    r := Some(Promise(commitment.value, signature.value));
  }

  /** Evidence pairs a held promise with a different one on chain. */
  function Evidence(held: Promise, onChain: Promise): Option<(Promise, Promise)> {
    if held.commitment == onChain.commitment then None else Some((held, onChain))
  }

  /** Evidence exists exactly when the promised transaction is not the confirmed one, witnesses aside. */
  lemma EvidenceMeansEquivocation(h: Hash, promised: Tx, promisedSpent: seq<TxOut>, confirmed: Tx,
      confirmedSpent: seq<TxOut>, held: Promise, onChain: Promise)
    requires Compared(h, promised, promisedSpent, confirmed, confirmedSpent)
    requires held.commitment == h(CommitmentString(h, promised, promisedSpent))
    requires onChain.commitment == h(CommitmentString(h, confirmed, confirmedSpent))
    ensures Evidence(held, onChain).Some? <==> !SameBody(promised, promisedSpent, confirmed, confirmedSpent)
    ensures Evidence(held, onChain).Some? ==> Evidence(held, onChain).value == (held, onChain)
  {
    CommitmentBinds(h, promised, promisedSpent, confirmed, confirmedSpent);
    hide CommitmentString, SameBody, Compared;
  }
}
