/** The commitment fixes everything about a transaction but its witnesses. */
module CommitmentBinding {
  import opened Common
  import opened Commitment

  /** Equal up to witnesses, issuance and peg-in data, and the nonces of spent coins. */
  ghost predicate SameBody(tx: Tx, spent: seq<TxOut>, other: Tx, otherSpent: seq<TxOut>) {
    && tx.version == other.version && tx.lockTime == other.lockTime
    && |tx.inputs| == |other.inputs| && |tx.outputs| == |other.outputs| && |spent| == |otherSpent|
    && (forall i :: 0 <= i < |tx.inputs| ==> SameInput(tx.inputs[i], other.inputs[i]))
    && (forall i :: 0 <= i < |spent| ==> SameCoin(spent[i], otherSpent[i]))
    && (forall i :: 0 <= i < |tx.outputs| ==> SameOutput(tx.outputs[i], other.outputs[i]))
  }

  predicate SameInput(a: TxIn, b: TxIn) {
    a.txid == b.txid && a.vout == b.vout && a.sequence == b.sequence && a.scriptSig == b.scriptSig
  }

  predicate SameCoin(a: TxOut, b: TxOut) {
    a.asset == b.asset && a.value == b.value && a.script == b.script
  }

  predicate SameOutput(a: TxOut, b: TxOut) {
    SameCoin(a, b) && a.nonce == b.nonce
  }

  // ---- Decoding concatenations ---------------------------------------------------------------------

  lemma {:induction false} ConcatHead(first: Bytes, rest: seq<Bytes>)
    ensures Concat([first] + rest) == first + Concat(rest)
  {
    if rest == [] {
      assert ([first] + rest)[..0] == [];
    } else {
      var front, last := rest[..|rest| - 1], rest[|rest| - 1];
      ConcatHead(first, front);
      assert ([first] + rest)[..|rest|] == [first] + front;
    }
  }

  /** Every piece tells its own length by its first byte. */
  ghost predicate SelfDelimiting(pieces: seq<Bytes>, len: Byte -> nat) {
    forall i :: 0 <= i < |pieces| ==> pieces[i] != [] && |pieces[i]| == len(pieces[i][0])
  }

  lemma {:induction false} ConcatDecodes(p: seq<Bytes>, q: seq<Bytes>, len: Byte -> nat)
    requires SelfDelimiting(p, len) && SelfDelimiting(q, len) && Concat(p) == Concat(q)
    ensures p == q
  {
    if p == [] || q == [] {
    } else {
      ConcatHead(p[0], p[1..]);
      ConcatHead(q[0], q[1..]);
      assert p == [p[0]] + p[1..] && q == [q[0]] + q[1..];
      hide Concat;
      var all := Concat(p);
      assert all[0] == p[0][0] == q[0][0];
      assert p[0] == all[..|p[0]|] && q[0] == all[..|q[0]|];
      assert Concat(p[1..]) == all[|p[0]|..] && Concat(q[1..]) == all[|q[0]|..];
      ConcatDecodes(p[1..], q[1..], len);
    }
  }

  function FixedLength(n: nat): Byte -> nat {
    b => n
  }

  function InLength(s: InStream): Byte -> nat {
    match s
    case Outpoints => FixedLength(37)
    case AssetAmounts => b => if b == 0 then 10 else 42
    case Scripts => FixedLength(32)
    case Sequences => FixedLength(4)
    case Annexes => FixedLength(1)
    case ScriptSigs => FixedLength(32)
    case IssueAssets => FixedLength(2)
    case IssueTokens => FixedLength(2)
    case IssueProofs => FixedLength(64)
    case IssueEntropy => FixedLength(1)
  }

  function OutLength(s: OutStream): Byte -> nat {
    match s
    case Amounts => b => if b == 0 then 10 else 42
    case Nonces => b => if b == 0 then 1 else 33
    case OutScripts => FixedLength(32)
    case Ranges => FixedLength(32)
    case Surjections => FixedLength(32)
  }

  lemma InDelimited(h: Hash, s: InStream, tx: Tx, spent: seq<TxOut>)
    requires Shaped(tx, spent)
    ensures SelfDelimiting(InPieces(h, s, tx.inputs, spent), InLength(s))
  {
    forall i | 0 <= i < |tx.inputs|
      ensures var piece := InPiece(h, s, tx.inputs[i], spent[i]); piece != [] && |piece| == InLength(s)(piece[0])
    {
      assert InputShaped(tx.inputs[i], spent[i]);
      hide BigEndian, HasAnnex;
    }
  }

  lemma OutDelimited(h: Hash, s: OutStream, tx: Tx, spent: seq<TxOut>)
    requires Shaped(tx, spent)
    ensures SelfDelimiting(OutPieces(h, s, tx.outputs), OutLength(s))
  {
    forall i | 0 <= i < |tx.outputs|
      ensures var piece := OutPiece(h, s, tx.outputs[i]); piece != [] && |piece| == OutLength(s)(piece[0])
    {
      assert Explicit(tx.outputs[i]);
      hide BigEndian;
    }
  }

  // ---- The strings that are hashed --------------------------------------------------------------------

  /** Every string hashed on the way to a commitment. */
  ghost function Strings(h: Hash, tx: Tx, spent: seq<TxOut>): set<Bytes>
    requires Shaped(tx, spent)
  {
    {CommitmentString(h, tx, spent), TxString(h, tx, spent), InputsString(h, tx, spent), OutputsString(h, tx),
     IssuancesString(h, tx, spent), UtxosString(h, tx, spent)}
    + (set s: InStream | true :: InString(h, s, tx, spent)) + (set s: OutStream | true :: OutString(h, s, tx))
    + (set i | 0 <= i < |tx.inputs| :: tx.inputs[i].scriptSig) + (set i | 0 <= i < |spent| :: spent[i].script)
    + (set i | 0 <= i < |tx.outputs| :: tx.outputs[i].script)
  }

  /** No two of the strings hash alike. */
  ghost predicate CollisionFree(h: Hash, strings: set<Bytes>) {
    forall x, y :: x in strings && y in strings && h(x) == h(y) ==> x == y
  }

  lemma Uncollide(h: Hash, strings: set<Bytes>, x: Bytes, y: Bytes)
    requires CollisionFree(h, strings) && x in strings && y in strings && h(x) == h(y)
    ensures x == y
  {}

  lemma StringsAre(h: Hash, tx: Tx, spent: seq<TxOut>)
    requires Shaped(tx, spent)
    ensures var strings := Strings(h, tx, spent);
            && CommitmentString(h, tx, spent) in strings && TxString(h, tx, spent) in strings
                && InputsString(h, tx, spent) in strings
            && OutputsString(h, tx) in strings && UtxosString(h, tx, spent) in strings
            && (forall s :: InString(h, s, tx, spent) in strings) && (forall s :: OutString(h, s, tx) in strings)
            && (forall i :: 0 <= i < |tx.inputs| ==> tx.inputs[i].scriptSig in strings)
            && (forall i :: 0 <= i < |spent| ==> spent[i].script in strings)
            && (forall i :: 0 <= i < |tx.outputs| ==> tx.outputs[i].script in strings)
  {
    hide Shaped, CommitmentString, TxString, InputsString, OutputsString, IssuancesString, UtxosString, InString,
        OutString;
  }

  lemma Cut(a: Bytes, b: Bytes, c: Bytes, d: Bytes)
    requires a + b == c + d && |a| == |c|
    ensures a == c && b == d
  {
    assert a == (a + b)[..|a|] && c == (c + d)[..|a|];
    assert b == (a + b)[|a|..] && d == (c + d)[|a|..];
  }

  /** Two accepted transactions and no collision among anything hashed for either. */
  ghost predicate Compared(h: Hash, tx: Tx, spent: seq<TxOut>, other: Tx, otherSpent: seq<TxOut>) {
    Shaped(tx, spent) && Shaped(other, otherSpent)
    && CollisionFree(h, Strings(h, tx, spent) + Strings(h, other, otherSpent))
  }

  /** The top strings of both commitments are the same. */
  lemma TopEqual(h: Hash, tx: Tx, spent: seq<TxOut>, other: Tx, otherSpent: seq<TxOut>)
    requires Compared(h, tx, spent, other, otherSpent)
    requires h(CommitmentString(h, tx, spent)) == h(CommitmentString(h, other, otherSpent))
    ensures TxString(h, tx, spent) == TxString(h, other, otherSpent)
    ensures InString(h, ScriptSigs, tx, spent) == InString(h, ScriptSigs, other, otherSpent)
  {
    var strings := Strings(h, tx, spent) + Strings(h, other, otherSpent);
    StringsAre(h, tx, spent);
    StringsAre(h, other, otherSpent);
    Uncollide(h, strings, CommitmentString(h, tx, spent), CommitmentString(h, other, otherSpent));
    hide Strings, TxString, InString, CollisionFree, Shaped;
    Cut(h(TxString(h, tx, spent)), h(InString(h, ScriptSigs, tx, spent)),
        h(TxString(h, other, otherSpent)), h(InString(h, ScriptSigs, other, otherSpent)));
    Uncollide(h, strings, TxString(h, tx, spent), TxString(h, other, otherSpent));
    Uncollide(h, strings, InString(h, ScriptSigs, tx, spent), InString(h, ScriptSigs, other, otherSpent));
  }

  lemma U32Equal(a: U32, b: U32)
    requires BigEndian(a, 4) == BigEndian(b, 4)
    ensures a == b
  {
    Pow256Values();
    hide Pow256, BigEndian;
    BigEndianDiffers(a, b, 4);
  }

  lemma U64Equal(a: U64, b: U64)
    requires BigEndian(a, 8) == BigEndian(b, 8)
    ensures a == b
  {
    Pow256Values();
    hide Pow256, BigEndian;
    BigEndianDiffers(a, b, 8);
  }

  lemma FourEqual(a: Bytes32, b: Bytes32, c: Bytes32, d: Bytes32, a': Bytes32, b': Bytes32, c': Bytes32, d': Bytes32)
    requires a + b + c + d == a' + b' + c' + d'
    ensures a == a' && b == b' && c == c' && d == d'
  {
    Cut(a + b + c, d, a' + b' + c', d');
    Cut(a + b, c, a' + b', c');
    Cut(a, b, a', b');
  }

  lemma TxParts(v: Bytes, l: Bytes, i: Bytes32, o: Bytes32, n: Bytes32, s: Bytes32, u: Bytes32,
                v': Bytes, l': Bytes, i': Bytes32, o': Bytes32, n': Bytes32, s': Bytes32, u': Bytes32)
    requires |v| == |l| == |v'| == |l'| == 4 && v + l + i + o + n + s + u == v' + l' + i' + o' + n' + s' + u'
    ensures v == v' && l == l' && i == i' && o == o' && u == u'
  {
    Cut(v + l + i + o + n + s, u, v' + l' + i' + o' + n' + s', u');
    Cut(v + l + i + o + n, s, v' + l' + i' + o' + n', s');
    Cut(v + l + i + o, n, v' + l' + i' + o', n');
    Cut(v + l + i, o, v' + l' + i', o');
    Cut(v + l, i, v' + l', i');
    Cut(v, l, v', l');
  }

  /** Equal transaction strings have equal streams. */
  lemma MiddleEqual(h: Hash, tx: Tx, spent: seq<TxOut>, other: Tx, otherSpent: seq<TxOut>)
    requires Compared(h, tx, spent, other, otherSpent) && TxString(h, tx, spent) == TxString(h, other, otherSpent)
    ensures tx.version == other.version && tx.lockTime == other.lockTime
    ensures InputsString(h, tx, spent) == InputsString(h, other, otherSpent)
    ensures OutputsString(h, tx) == OutputsString(h, other)
        && UtxosString(h, tx, spent) == UtxosString(h, other, otherSpent)
  {
    var strings := Strings(h, tx, spent) + Strings(h, other, otherSpent);
    StringsAre(h, tx, spent);
    StringsAre(h, other, otherSpent);
    hide Strings, InString, OutString, CollisionFree, Shaped, InputsString, OutputsString, UtxosString,
        IssuancesString, BigEndian;
    TxParts(BigEndian(tx.version, 4), BigEndian(tx.lockTime, 4), h(InputsString(h, tx, spent)), h(OutputsString(h, tx)),
            h(IssuancesString(h, tx, spent)), h(OutString(h, Surjections, tx)), h(UtxosString(h, tx, spent)),
            BigEndian(other.version, 4), BigEndian(other.lockTime, 4), h(InputsString(h, other, otherSpent)),
                h(OutputsString(h, other)),
            h(IssuancesString(h, other, otherSpent)), h(OutString(h, Surjections, other)),
                h(UtxosString(h, other, otherSpent)));
    hide TxString;
    U32Equal(tx.version, other.version);
    U32Equal(tx.lockTime, other.lockTime);
    Uncollide(h, strings, InputsString(h, tx, spent), InputsString(h, other, otherSpent));
    Uncollide(h, strings, OutputsString(h, tx), OutputsString(h, other));
    Uncollide(h, strings, UtxosString(h, tx, spent), UtxosString(h, other, otherSpent));
  }

  ghost predicate StreamsEqual(h: Hash, tx: Tx, spent: seq<TxOut>, other: Tx, otherSpent: seq<TxOut>)
    requires |tx.inputs| == |spent| && |other.inputs| == |otherSpent|
  {
    && InString(h, ScriptSigs, tx, spent) == InString(h, ScriptSigs, other, otherSpent)
    && InString(h, AssetAmounts, tx, spent) == InString(h, AssetAmounts, other, otherSpent)
    && InString(h, Scripts, tx, spent) == InString(h, Scripts, other, otherSpent)
    && InString(h, Outpoints, tx, spent) == InString(h, Outpoints, other, otherSpent)
    && InString(h, Sequences, tx, spent) == InString(h, Sequences, other, otherSpent)
    && OutString(h, Amounts, tx) == OutString(h, Amounts, other)
    && OutString(h, Nonces, tx) == OutString(h, Nonces, other)
    && OutString(h, OutScripts, tx) == OutString(h, OutScripts, other)
  }

  lemma BottomEqual(h: Hash, tx: Tx, spent: seq<TxOut>, other: Tx, otherSpent: seq<TxOut>)
    requires Compared(h, tx, spent, other, otherSpent)
    requires InString(h, ScriptSigs, tx, spent) == InString(h, ScriptSigs, other, otherSpent)
    requires InputsString(h, tx, spent) == InputsString(h, other, otherSpent)
    requires OutputsString(h, tx) == OutputsString(h, other)
        && UtxosString(h, tx, spent) == UtxosString(h, other, otherSpent)
    ensures StreamsEqual(h, tx, spent, other, otherSpent)
  {
    var strings := Strings(h, tx, spent) + Strings(h, other, otherSpent);
    StringsAre(h, tx, spent);
    StringsAre(h, other, otherSpent);
    hide Strings, InString, OutString, CollisionFree, Shaped;
    Cut(h(InString(h, AssetAmounts, tx, spent)), h(InString(h, Scripts, tx, spent)),
        h(InString(h, AssetAmounts, other, otherSpent)), h(InString(h, Scripts, other, otherSpent)));
    Cut(h(InString(h, Outpoints, tx, spent)) + h(InString(h, Sequences, tx, spent)), h(InString(h, Annexes, tx, spent)),
        h(InString(h, Outpoints, other, otherSpent)) + h(InString(h, Sequences, other, otherSpent)),
            h(InString(h, Annexes, other, otherSpent)));
    Cut(h(InString(h, Outpoints, tx, spent)), h(InString(h, Sequences, tx, spent)),
        h(InString(h, Outpoints, other, otherSpent)), h(InString(h, Sequences, other, otherSpent)));
    FourEqual(h(OutString(h, Amounts, tx)), h(OutString(h, Nonces, tx)), h(OutString(h, OutScripts, tx)),
        h(OutString(h, Ranges, tx)),
              h(OutString(h, Amounts, other)), h(OutString(h, Nonces, other)), h(OutString(h, OutScripts, other)),
                  h(OutString(h, Ranges, other)));
    hide InputsString, OutputsString, UtxosString;
    Uncollide(h, strings, InString(h, AssetAmounts, tx, spent), InString(h, AssetAmounts, other, otherSpent));
    Uncollide(h, strings, InString(h, Scripts, tx, spent), InString(h, Scripts, other, otherSpent));
    Uncollide(h, strings, InString(h, Outpoints, tx, spent), InString(h, Outpoints, other, otherSpent));
    Uncollide(h, strings, InString(h, Sequences, tx, spent), InString(h, Sequences, other, otherSpent));
    Uncollide(h, strings, OutString(h, Amounts, tx), OutString(h, Amounts, other));
    Uncollide(h, strings, OutString(h, Nonces, tx), OutString(h, Nonces, other));
    Uncollide(h, strings, OutString(h, OutScripts, tx), OutString(h, OutScripts, other));
  }

  // ---- From equal streams to equal transactions ---------------------------------------------------------

  lemma InPiecesEqual(h: Hash, s: InStream, tx: Tx, spent: seq<TxOut>, other: Tx, otherSpent: seq<TxOut>)
    requires Shaped(tx, spent) && Shaped(other, otherSpent)
        && InString(h, s, tx, spent) == InString(h, s, other, otherSpent)
    ensures |tx.inputs| == |other.inputs|
    ensures forall i ::
        0 <= i < |tx.inputs| ==> InPiece(h, s, tx.inputs[i], spent[i]) == InPiece(h, s, other.inputs[i], otherSpent[i])
  {
    InDelimited(h, s, tx, spent);
    InDelimited(h, s, other, otherSpent);
    var p, q := InPieces(h, s, tx.inputs, spent), InPieces(h, s, other.inputs, otherSpent);
    hide InPiece, SelfDelimiting, Concat, InputShaped, Explicit;
    ConcatDecodes(p, q, InLength(s));
    assert |p| == |tx.inputs| && |q| == |other.inputs|;
    forall i | 0 <= i < |tx.inputs|
      ensures InPiece(h, s, tx.inputs[i], spent[i]) == InPiece(h, s, other.inputs[i], otherSpent[i])
    {
      assert p[i] == q[i];
    }
  }

  lemma OutPiecesEqual(h: Hash, s: OutStream, tx: Tx, spent: seq<TxOut>, other: Tx, otherSpent: seq<TxOut>)
    requires Shaped(tx, spent) && Shaped(other, otherSpent) && OutString(h, s, tx) == OutString(h, s, other)
    ensures |tx.outputs| == |other.outputs|
    ensures forall i :: 0 <= i < |tx.outputs| ==> OutPiece(h, s, tx.outputs[i]) == OutPiece(h, s, other.outputs[i])
  {
    OutDelimited(h, s, tx, spent);
    OutDelimited(h, s, other, otherSpent);
    var p, q := OutPieces(h, s, tx.outputs), OutPieces(h, s, other.outputs);
    hide OutPiece, SelfDelimiting, Concat, InputShaped, Explicit;
    ConcatDecodes(p, q, OutLength(s));
    assert |p| == |tx.outputs| && |q| == |other.outputs|;
    forall i | 0 <= i < |tx.outputs|
      ensures OutPiece(h, s, tx.outputs[i]) == OutPiece(h, s, other.outputs[i])
    {
      assert p[i] == q[i];
    }
  }

  lemma OutpointEqual(a: TxIn, b: TxIn)
    requires [0] + a.txid + BigEndian(a.vout, 4) == [0] + b.txid + BigEndian(b.vout, 4)
    ensures a.txid == b.txid && a.vout == b.vout
  {
    hide BigEndian;
    Cut([0] + a.txid, BigEndian(a.vout, 4), [0] + b.txid, BigEndian(b.vout, 4));
    Cut([0], a.txid, [0], b.txid);
    U32Equal(a.vout, b.vout);
  }

  lemma AmountEqual(a: Amount, b: Amount)
    requires a.ExplicitAmount? && b.ExplicitAmount? && AmountBytes(a) == AmountBytes(b)
    ensures a == b
  {
    hide BigEndian;
    Cut([1], BigEndian(a.value, 8), [1], BigEndian(b.value, 8));
    U64Equal(a.value, b.value);
  }

  lemma AssetEqual(a: Asset, b: Asset)
    requires !a.ConfidentialAsset? && !b.ConfidentialAsset? && AssetBytes(a) == AssetBytes(b)
    ensures a == b
  {
    assert AssetBytes(a)[0] == AssetBytes(b)[0];
    if a.ExplicitAsset? {
      Cut([1], a.id, [1], b.id);
    }
  }

  lemma NonceEqual(a: Nonce, b: Nonce)
    requires NonceBytes(a) == NonceBytes(b)
    ensures a == b
  {
    assert NonceBytes(a)[0] == NonceBytes(b)[0];
    if !a.NullNonce? {
      assert NonceBytes(a)[1..] == NonceBytes(b)[1..];
    }
  }

  lemma CoinEqual(a: TxOut, b: TxOut)
    requires Explicit(a) && Explicit(b)
    requires AssetBytes(a.asset) + AmountBytes(a.value) == AssetBytes(b.asset) + AmountBytes(b.value)
    ensures a.asset == b.asset && a.value == b.value
  {
    var left, right := AssetBytes(a.asset) + AmountBytes(a.value), AssetBytes(b.asset) + AmountBytes(b.value);
    assert left[0] == AssetBytes(a.asset)[0] && right[0] == AssetBytes(b.asset)[0];
    assert |AssetBytes(a.asset)| == |AssetBytes(b.asset)|;
    hide AssetBytes, AmountBytes;
    Cut(AssetBytes(a.asset), AmountBytes(a.value), AssetBytes(b.asset), AmountBytes(b.value));
    AssetEqual(a.asset, b.asset);
    AmountEqual(a.value, b.value);
  }

  lemma InputEqual(h: Hash, strings: set<Bytes>, a: TxIn, u: TxOut, b: TxIn, v: TxOut)
    requires CollisionFree(h, strings) && {u.script, v.script, a.scriptSig, b.scriptSig} <= strings
    requires Explicit(u) && Explicit(v)
    requires forall s ::
        s in {Outpoints, AssetAmounts, Scripts, Sequences, ScriptSigs} ==> InPiece(h, s, a, u) == InPiece(h, s, b, v)
    ensures SameInput(a, b) && SameCoin(u, v)
  {
    assert InPiece(h, Outpoints, a, u) == InPiece(h, Outpoints, b, v)
        && InPiece(h, AssetAmounts, a, u) == InPiece(h, AssetAmounts, b, v);
    assert InPiece(h, Scripts, a, u) == InPiece(h, Scripts, b, v)
        && InPiece(h, ScriptSigs, a, u) == InPiece(h, ScriptSigs, b, v);
    assert InPiece(h, Sequences, a, u) == InPiece(h, Sequences, b, v);
    hide BigEndian, AssetBytes, AmountBytes, Explicit, CollisionFree;
    OutpointEqual(a, b);
    CoinEqual(u, v);
    U32Equal(a.sequence, b.sequence);
    Uncollide(h, strings, u.script, v.script);
    Uncollide(h, strings, a.scriptSig, b.scriptSig);
  }

  lemma ShapedParts(tx: Tx, spent: seq<TxOut>)
    requires Shaped(tx, spent)
    ensures forall i :: 0 <= i < |spent| ==> Explicit(spent[i])
    ensures forall i :: 0 <= i < |tx.outputs| ==> Explicit(tx.outputs[i])
  {
    forall i | 0 <= i < |spent|
      ensures Explicit(spent[i])
    {
      assert InputShaped(tx.inputs[i], spent[i]);
    }
    hide Explicit;
  }

  lemma InputsEqual(h: Hash, tx: Tx, spent: seq<TxOut>, other: Tx, otherSpent: seq<TxOut>)
    requires Compared(h, tx, spent, other, otherSpent) && StreamsEqual(h, tx, spent, other, otherSpent)
    ensures |tx.inputs| == |other.inputs|
    ensures forall i ::
        0 <= i < |tx.inputs| ==> SameInput(tx.inputs[i], other.inputs[i]) && SameCoin(spent[i], otherSpent[i])
  {
    var strings := Strings(h, tx, spent) + Strings(h, other, otherSpent);
    StringsAre(h, tx, spent);
    StringsAre(h, other, otherSpent);
    ShapedParts(tx, spent);
    ShapedParts(other, otherSpent);
    hide Strings, InString, OutString, CollisionFree, InPiece, Explicit, InputShaped, SameInput, SameCoin;
    InPiecesEqual(h, Outpoints, tx, spent, other, otherSpent);
    InPiecesEqual(h, AssetAmounts, tx, spent, other, otherSpent);
    InPiecesEqual(h, Scripts, tx, spent, other, otherSpent);
    InPiecesEqual(h, Sequences, tx, spent, other, otherSpent);
    InPiecesEqual(h, ScriptSigs, tx, spent, other, otherSpent);
    forall i | 0 <= i < |tx.inputs|
      ensures SameInput(tx.inputs[i], other.inputs[i]) && SameCoin(spent[i], otherSpent[i])
    {
      InputEqual(h, strings, tx.inputs[i], spent[i], other.inputs[i], otherSpent[i]);
    }
  }

  lemma OutputSame(h: Hash, strings: set<Bytes>, a: TxOut, b: TxOut)
    requires CollisionFree(h, strings) && {a.script, b.script} <= strings && Explicit(a) && Explicit(b)
    requires forall s :: s in {Amounts, Nonces, OutScripts} ==> OutPiece(h, s, a) == OutPiece(h, s, b)
    ensures SameOutput(a, b)
  {
    assert OutPiece(h, Amounts, a) == OutPiece(h, Amounts, b) && OutPiece(h, Nonces, a) == OutPiece(h, Nonces, b);
    assert OutPiece(h, OutScripts, a) == OutPiece(h, OutScripts, b);
    hide AssetBytes, AmountBytes, NonceBytes, Explicit, CollisionFree;
    CoinEqual(a, b);
    NonceEqual(a.nonce, b.nonce);
    Uncollide(h, strings, a.script, b.script);
  }

  lemma OutputsEqual(h: Hash, tx: Tx, spent: seq<TxOut>, other: Tx, otherSpent: seq<TxOut>)
    requires Compared(h, tx, spent, other, otherSpent) && StreamsEqual(h, tx, spent, other, otherSpent)
    ensures |tx.outputs| == |other.outputs|
    ensures forall i :: 0 <= i < |tx.outputs| ==> SameOutput(tx.outputs[i], other.outputs[i])
  {
    var strings := Strings(h, tx, spent) + Strings(h, other, otherSpent);
    StringsAre(h, tx, spent);
    StringsAre(h, other, otherSpent);
    ShapedParts(tx, spent);
    ShapedParts(other, otherSpent);
    hide Strings, InString, OutString, CollisionFree, OutPiece, Explicit, InputShaped, SameOutput;
    OutPiecesEqual(h, Amounts, tx, spent, other, otherSpent);
    OutPiecesEqual(h, Nonces, tx, spent, other, otherSpent);
    OutPiecesEqual(h, OutScripts, tx, spent, other, otherSpent);
    forall i | 0 <= i < |tx.outputs|
      ensures SameOutput(tx.outputs[i], other.outputs[i])
    {
      OutputSame(h, strings, tx.outputs[i], other.outputs[i]);
    }
  }

  /** Without a collision, two accepted transactions have the same commitment exactly when they
      differ in witnesses alone. */
  lemma CommitmentBinds(h: Hash, tx: Tx, spent: seq<TxOut>, other: Tx, otherSpent: seq<TxOut>)
    requires Compared(h, tx, spent, other, otherSpent)
    ensures h(CommitmentString(h, tx, spent)) == h(CommitmentString(h, other, otherSpent))
        <==> SameBody(tx, spent, other, otherSpent)
  {
    if h(CommitmentString(h, tx, spent)) == h(CommitmentString(h, other, otherSpent)) {
      hide Compared, CommitmentString, TxString, InputsString, OutputsString, UtxosString, StreamsEqual, SameInput,
          SameCoin;
      TopEqual(h, tx, spent, other, otherSpent);
      MiddleEqual(h, tx, spent, other, otherSpent);
      BottomEqual(h, tx, spent, other, otherSpent);
      InputsEqual(h, tx, spent, other, otherSpent);
      OutputsEqual(h, tx, spent, other, otherSpent);
    } else if SameBody(tx, spent, other, otherSpent) {
      BodyCommits(h, tx, spent, other, otherSpent);
    }
  }

  /** Witnesses never change a commitment, whatever the hash. */
  lemma BodyCommits(h: Hash, tx: Tx, spent: seq<TxOut>, other: Tx, otherSpent: seq<TxOut>)
    requires Shaped(tx, spent) && Shaped(other, otherSpent) && SameBody(tx, spent, other, otherSpent)
    ensures CommitmentString(h, tx, spent) == CommitmentString(h, other, otherSpent)
  {
    forall s: InStream
      ensures InString(h, s, tx, spent) == InString(h, s, other, otherSpent)
    {
      forall i | 0 <= i < |tx.inputs|
        ensures InPiece(h, s, tx.inputs[i], spent[i]) == InPiece(h, s, other.inputs[i], otherSpent[i])
      {
        assert SameInput(tx.inputs[i], other.inputs[i]) && SameCoin(spent[i], otherSpent[i]);
      }
      assert InPieces(h, s, tx.inputs, spent) == InPieces(h, s, other.inputs, otherSpent);
      hide Concat, InPiece;
    }
    forall s: OutStream
      ensures OutString(h, s, tx) == OutString(h, s, other)
    {
      forall i | 0 <= i < |tx.outputs|
        ensures OutPiece(h, s, tx.outputs[i]) == OutPiece(h, s, other.outputs[i])
      {
        assert SameOutput(tx.outputs[i], other.outputs[i]);
      }
      assert OutPieces(h, s, tx.outputs) == OutPieces(h, s, other.outputs);
      hide Concat, OutPiece;
    }
    hide InString, OutString, Shaped, BigEndian, SameInput, SameCoin, SameOutput;
  }

  // ---- Promise and paired digests ---------------------------------------------------------------------------

  datatype OutPoint = OutPoint(txid: Bytes32, vout: U32)

  /** The string behind both digests: tag, genesis, outpoint, and what is signed. */
  function TaggedString(tag: Bytes32, genesis: Bytes32, o: OutPoint, body: Bytes32): Bytes {
    tag + genesis + o.txid + BigEndian(o.vout, 4) + body
  }

  function PromiseDigest(h: Hash, tag: Bytes, genesis: Bytes32, lockbox: OutPoint, commitment: Bytes32): Bytes32 {
    h(TaggedString(h(tag), genesis, lockbox, commitment))
  }

  function OutputString(h: Hash, out: TxOut): Bytes {
    AssetBytes(out.asset) + AmountBytes(out.value) + NonceBytes(out.nonce) + h(out.script) + h([])
  }

  method OutputHash(h: Hash, out: TxOut) returns (r: Option<Bytes32>)
    ensures r.Some? <==> Explicit(out)
    ensures r.Some? ==> r.value == h(OutputString(h, out))
  {
    var ok := CheckExplicit(out);
    if !ok { return None; }
    var engine := AssetBytes(out.asset);
    engine := engine + AmountBytes(out.value);
    engine := engine + NonceBytes(out.nonce);
    engine := engine + h(out.script);
    engine := engine + h([]);
    r := Some(h(engine));
  }

  method PairedDigest(h: Hash, tag: Bytes, genesis: Bytes32, lockbox: OutPoint, paired: TxOut)
      returns (r: Option<Bytes32>)
    ensures r.Some? <==> Explicit(paired)
    ensures r.Some? ==> r.value == h(TaggedString(h(tag), genesis, lockbox, h(OutputString(h, paired))))
  {
    var body := OutputHash(h, paired);
    if body.None? { return None; }
    var engine := h(tag);
    r := Some(h(engine + genesis + lockbox.txid + BigEndian(lockbox.vout, 4) + body.value));
  }

  lemma TaggedEqual(tag: Bytes32, genesis: Bytes32, o: OutPoint, body: Bytes32, tag': Bytes32, genesis': Bytes32,
      o': OutPoint, body': Bytes32)
    requires TaggedString(tag, genesis, o, body) == TaggedString(tag', genesis', o', body')
    ensures tag == tag' && genesis == genesis' && o == o' && body == body'
  {
    hide BigEndian;
    Cut(tag + genesis + o.txid + BigEndian(o.vout, 4), body, tag' + genesis' + o'.txid + BigEndian(o'.vout, 4), body');
    Cut(tag + genesis + o.txid, BigEndian(o.vout, 4), tag' + genesis' + o'.txid, BigEndian(o'.vout, 4));
    Cut(tag + genesis, o.txid, tag' + genesis', o'.txid);
    Cut(tag, genesis, tag', genesis');
    U32Equal(o.vout, o'.vout);
  }

  /** A digest fixes its tag, network, lockbox and body: a promise never doubles as a paired
      authorization, nor one signed for another network, lockbox, transaction or output. */
  lemma DigestBinds(h: Hash, strings: set<Bytes>, tag: Bytes, genesis: Bytes32, o: OutPoint, body: Bytes32,
                    tag': Bytes, genesis': Bytes32, o': OutPoint, body': Bytes32)
    requires CollisionFree(h, strings)
    requires {tag, tag', TaggedString(h(tag), genesis, o, body), TaggedString(h(tag'), genesis', o', body')} <= strings
    ensures h(TaggedString(h(tag), genesis, o, body)) == h(TaggedString(h(tag'), genesis', o', body'))
            <==> tag == tag' && genesis == genesis' && o == o' && body == body'
  {
    hide TaggedString, CollisionFree;
    if h(TaggedString(h(tag), genesis, o, body)) == h(TaggedString(h(tag'), genesis', o', body')) {
      Uncollide(h, strings, TaggedString(h(tag), genesis, o, body), TaggedString(h(tag'), genesis', o', body'));
      TaggedEqual(h(tag), genesis, o, body, h(tag'), genesis', o', body');
      Uncollide(h, strings, tag, tag');
    }
  }

  /** A paired digest fixes the output it authorizes. */
  lemma OutputBinds(h: Hash, strings: set<Bytes>, a: TxOut, b: TxOut)
    requires CollisionFree(h, strings) && Explicit(a) && Explicit(b)
    requires {a.script, b.script, OutputString(h, a), OutputString(h, b)} <= strings
    ensures h(OutputString(h, a)) == h(OutputString(h, b)) <==> SameOutput(a, b)
  {
    hide CollisionFree;
    if h(OutputString(h, a)) == h(OutputString(h, b)) {
      Uncollide(h, strings, OutputString(h, a), OutputString(h, b));
      OutputEqual(h, a, b);
      Uncollide(h, strings, a.script, b.script);
    }
  }

  lemma OutputEqual(h: Hash, a: TxOut, b: TxOut)
    requires Explicit(a) && Explicit(b) && OutputString(h, a) == OutputString(h, b)
    ensures a.asset == b.asset && a.value == b.value && a.nonce == b.nonce && h(a.script) == h(b.script)
  {
    var coinA, coinB := AssetBytes(a.asset) + AmountBytes(a.value), AssetBytes(b.asset) + AmountBytes(b.value);
    var left, right := OutputString(h, a), OutputString(h, b);
    assert left[0] == AssetBytes(a.asset)[0] && right[0] == AssetBytes(b.asset)[0];
    assert |coinA| == |coinB|;
    hide AssetBytes, AmountBytes;
    Cut(coinA + NonceBytes(a.nonce) + h(a.script), h([]), coinB + NonceBytes(b.nonce) + h(b.script), h([]));
    Cut(coinA + NonceBytes(a.nonce), h(a.script), coinB + NonceBytes(b.nonce), h(b.script));
    Cut(coinA, NonceBytes(a.nonce), coinB, NonceBytes(b.nonce));
    CoinEqual(a, b);
    NonceEqual(a.nonce, b.nonce);
  }
}
