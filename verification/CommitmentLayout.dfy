/** The commitment byte by byte: where each field of a transaction lies in the strings that are hashed. */
module CommitmentLayout {
  import opened Common
  import opened Commitment
  import CommitmentBinding

  // ---- Integers ----------------------------------------------------------------------------------------

  /** The bytes of a 32-bit field, most significant first. */
  lemma FourBytes(n: nat)
    ensures BigEndian(n, 4) == [n / 0x100_0000 % 256, n / 0x1_0000 % 256, n / 0x100 % 256, n % 256]
  {
    var a, b, c := n / 256, n / 256 / 256, n / 256 / 256 / 256;
    assert b == n / 0x1_0000 && c == n / 0x100_0000;
    assert BigEndian(c, 1) == BigEndian(c / 256, 0) + [c % 256] == [c % 256];
    assert BigEndian(b, 2) == BigEndian(c, 1) + [b % 256];
    assert BigEndian(a, 3) == BigEndian(b, 2) + [a % 256];
  }

  /** An amount is its upper 32 bits and then its lower ones. */
  lemma EightBytes(n: nat)
    ensures BigEndian(n, 8) == BigEndian(n / 0x1_0000_0000, 4) + BigEndian(n, 4)
  {
    FourBytes(n);
    var a, b, c, d := n / 256, n / 256 / 256, n / 256 / 256 / 256, n / 256 / 256 / 256 / 256;
    assert b == n / 0x1_0000 && c == n / 0x100_0000 && d == n / 0x1_0000_0000;
    assert BigEndian(c, 5) == BigEndian(d, 4) + [c % 256];
    assert BigEndian(b, 6) == BigEndian(c, 5) + [b % 256];
    assert BigEndian(a, 7) == BigEndian(b, 6) + [a % 256];
  }

  /** `part` lies in `whole` from `at` on. */
  predicate LiesAt(part: Bytes, whole: Bytes, at: nat) {
    at + |part| <= |whole| && whole[at..at + |part|] == part
  }

  lemma LastLies(front: Bytes, part: Bytes)
    ensures LiesAt(part, front + part, |front|) && |front + part| == |front| + |part|
  {}

  lemma StillLies(part: Bytes, whole: Bytes, at: nat, more: Bytes)
    requires LiesAt(part, whole, at)
    ensures LiesAt(part, whole + more, at)
  {
    assert (whole + more)[at..at + |part|] == whole[at..at + |part|];
  }

  lemma TwoLie(a: Bytes, b: Bytes)
    ensures LiesAt(a, a + b, 0) && LiesAt(b, a + b, |a|) && |a + b| == |a| + |b|
  {
    LastLies([], a);
    assert [] + a == a;
    LastLies(a, b);
    StillLies(a, a, 0, b);
  }

  lemma ThreeLie(a: Bytes, b: Bytes, c: Bytes)
    ensures LiesAt(a, a + b + c, 0) && LiesAt(b, a + b + c, |a|) && LiesAt(c, a + b + c, |a| + |b|)
    ensures |a + b + c| == |a| + |b| + |c|
  {
    TwoLie(a, b);
    LastLies(a + b, c);
    StillLies(a, a + b, 0, c);
    StillLies(b, a + b, |a|, c);
  }

  lemma FourLie(a: Bytes, b: Bytes, c: Bytes, d: Bytes)
    ensures var s := a + b + c + d;
            && LiesAt(a, s, 0) && LiesAt(b, s, |a|) && LiesAt(c, s, |a| + |b|) && LiesAt(d, s, |a| + |b| + |c|)
            && |s| == |a| + |b| + |c| + |d|
  {
    ThreeLie(a, b, c);
    LastLies(a + b + c, d);
    StillLies(a, a + b + c, 0, d);
    StillLies(b, a + b + c, |a|, d);
    StillLies(c, a + b + c, |a| + |b|, d);
    hide LiesAt;
  }

  lemma SevenLie(a: Bytes, b: Bytes, c: Bytes, d: Bytes, e: Bytes, f: Bytes, g: Bytes)
    ensures var s := a + b + c + d + e + f + g;
            && LiesAt(a, s, 0) && LiesAt(b, s, |a|) && LiesAt(c, s, |a| + |b|) && LiesAt(d, s, |a| + |b| + |c|)
            && LiesAt(e, s, |a| + |b| + |c| + |d|) && LiesAt(f, s, |a| + |b| + |c| + |d| + |e|)
            && LiesAt(g, s, |a| + |b| + |c| + |d| + |e| + |f|)
            && |s| == |a| + |b| + |c| + |d| + |e| + |f| + |g|
  {
    hide LiesAt;
    var s := a + b + c + d;
    FourLie(a, b, c, d);
    FourLie(s, e, f, g);
    ThreeLie(s, e, f);
    StillLies(a, s, 0, e);
    StillLies(a, s + e, 0, f);
    StillLies(a, s + e + f, 0, g);
    StillLies(b, s, |a|, e);
    StillLies(b, s + e, |a|, f);
    StillLies(b, s + e + f, |a|, g);
    StillLies(c, s, |a| + |b|, e);
    StillLies(c, s + e, |a| + |b|, f);
    StillLies(c, s + e + f, |a| + |b|, g);
    StillLies(d, s, |a| + |b| + |c|, e);
    StillLies(d, s + e, |a| + |b| + |c|, f);
    StillLies(d, s + e + f, |a| + |b| + |c|, g);
  }

  // ---- The strings made of digests --------------------------------------------------------------------

  /** The 64 bytes of the commitment: the transaction, and the script signatures of its inputs. */
  lemma CommitmentAt(h: Hash, tx: Tx, spent: seq<TxOut>)
    requires |tx.inputs| == |spent|
    ensures var s := CommitmentString(h, tx, spent);
            && |s| == 64 && LiesAt(h(TxString(h, tx, spent)), s, 0)
            && LiesAt(h(InString(h, ScriptSigs, tx, spent)), s, 32)
  {
    TwoLie(h(TxString(h, tx, spent)), h(InString(h, ScriptSigs, tx, spent)));
    hide LiesAt, TxString, InString;
  }

  /** The 168 bytes of the transaction: version, lock time, inputs, outputs, issuances, surjection proofs, coins. */
  lemma TransactionAt(h: Hash, tx: Tx, spent: seq<TxOut>)
    requires |tx.inputs| == |spent|
    ensures var s := TxString(h, tx, spent);
            && |s| == 168 && LiesAt(BigEndian(tx.version, 4), s, 0) && LiesAt(BigEndian(tx.lockTime, 4), s, 4)
            && LiesAt(h(InputsString(h, tx, spent)), s, 8) && LiesAt(h(OutputsString(h, tx)), s, 40)
            && LiesAt(h(IssuancesString(h, tx, spent)), s, 72) && LiesAt(h(OutString(h, Surjections, tx)), s, 104)
            && LiesAt(h(UtxosString(h, tx, spent)), s, 136)
  {
    hide *;
    TxStringIs(h, tx, spent);
    var inputs, outputs, issuances := h(InputsString(h, tx, spent)), h(OutputsString(h, tx)),
        h(IssuancesString(h, tx, spent));
    var surjections, utxos := h(OutString(h, Surjections, tx)), h(UtxosString(h, tx, spent));
    SevenLie(BigEndian(tx.version, 4), BigEndian(tx.lockTime, 4), inputs, outputs, issuances, surjections, utxos);
  }

  lemma TxStringIs(h: Hash, tx: Tx, spent: seq<TxOut>)
    requires |tx.inputs| == |spent|
    ensures TxString(h, tx, spent)
         == BigEndian(tx.version, 4) + BigEndian(tx.lockTime, 4) + h(InputsString(h, tx, spent))
            + h(OutputsString(h, tx)) + h(IssuancesString(h, tx, spent)) + h(OutString(h, Surjections, tx))
            + h(UtxosString(h, tx, spent))
  {
    hide InputsString, OutputsString, IssuancesString, UtxosString, OutString, BigEndian;
  }

  /** Inputs: outpoints, sequences and annexes; coins: assets with amounts, and scripts. */
  lemma InputsAt(h: Hash, tx: Tx, spent: seq<TxOut>)
    requires |tx.inputs| == |spent|
    ensures var s := InputsString(h, tx, spent);
            && |s| == 96 && LiesAt(h(InString(h, Outpoints, tx, spent)), s, 0)
            && LiesAt(h(InString(h, Sequences, tx, spent)), s, 32) && LiesAt(h(InString(h, Annexes, tx, spent)), s, 64)
    ensures var s := UtxosString(h, tx, spent);
            && |s| == 64 && LiesAt(h(InString(h, AssetAmounts, tx, spent)), s, 0)
            && LiesAt(h(InString(h, Scripts, tx, spent)), s, 32)
  {
    hide LiesAt, InString;
    ThreeLie(h(InString(h, Outpoints, tx, spent)), h(InString(h, Sequences, tx, spent)),
        h(InString(h, Annexes, tx, spent)));
    TwoLie(h(InString(h, AssetAmounts, tx, spent)), h(InString(h, Scripts, tx, spent)));
  }

  /** Outputs: assets with amounts, nonces, scripts, range proofs; issuances: assets, tokens, proofs, entropy. */
  lemma OutputsAt(h: Hash, tx: Tx, spent: seq<TxOut>)
    requires |tx.inputs| == |spent|
    ensures var s := OutputsString(h, tx);
            && |s| == 128 && LiesAt(h(OutString(h, Amounts, tx)), s, 0) && LiesAt(h(OutString(h, Nonces, tx)), s, 32)
            && LiesAt(h(OutString(h, OutScripts, tx)), s, 64) && LiesAt(h(OutString(h, Ranges, tx)), s, 96)
    ensures var s := IssuancesString(h, tx, spent);
            && |s| == 128 && LiesAt(h(InString(h, IssueAssets, tx, spent)), s, 0)
            && LiesAt(h(InString(h, IssueTokens, tx, spent)), s, 32)
            && LiesAt(h(InString(h, IssueProofs, tx, spent)), s, 64)
            && LiesAt(h(InString(h, IssueEntropy, tx, spent)), s, 96)
  {
    FourLie(h(OutString(h, Amounts, tx)), h(OutString(h, Nonces, tx)), h(OutString(h, OutScripts, tx)),
        h(OutString(h, Ranges, tx)));
    FourLie(h(InString(h, IssueAssets, tx, spent)), h(InString(h, IssueTokens, tx, spent)),
        h(InString(h, IssueProofs, tx, spent)), h(InString(h, IssueEntropy, tx, spent)));
    hide LiesAt, InString, OutString;
  }

  // ---- The streams --------------------------------------------------------------------------------------

  /** Pieces of one size lie one after another. */
  lemma {:induction false} PieceLies(pieces: seq<Bytes>, size: nat, i: nat)
    requires i < |pieces| && forall j :: 0 <= j < |pieces| ==> |pieces[j]| == size
    ensures |Concat(pieces)| == size * |pieces| && LiesAt(pieces[i], Concat(pieces), size * i)
  {
    var front, last := pieces[..|pieces| - 1], pieces[|pieces| - 1];
    assert size * |pieces| == size * |front| + size;
    LastLies(Concat(front), last);
    if |pieces| == 1 {
      assert front == [] && size * |front| == 0;
    } else {
      PieceLies(front, size, if i < |front| then i else 0);
      if i < |front| { StillLies(pieces[i], Concat(front), size * i, last); }
    }
    hide LiesAt;
  }

  /** The bytes one input adds to a stream of fixed stride, whichever hash is meant: none of them depends on issuance,
      peg-in or annex, which are refused. */
  function InBytes(h: Hash, s: InStream, input: TxIn, utxo: TxOut): Option<Bytes> {
    match s
    case Outpoints => Some([0] + input.txid + BigEndian(input.vout, 4))
    case AssetAmounts => None
    case Scripts => Some(h(utxo.script))
    case Sequences => Some(BigEndian(input.sequence, 4))
    case Annexes => Some([0])
    case ScriptSigs => Some(h(input.scriptSig))
    case IssueAssets => Some([0, 0])
    case IssueTokens => Some([0, 0])
    case IssueProofs => Some(h([]) + h([]))
    case IssueEntropy => Some([0])
  }

  function Stride(s: InStream): nat {
    match s
    case Outpoints => 37
    case AssetAmounts => 0
    case Scripts => 32
    case Sequences => 4
    case Annexes => 1
    case ScriptSigs => 32
    case IssueAssets => 2
    case IssueTokens => 2
    case IssueProofs => 64
    case IssueEntropy => 1
  }

  /** What each input adds to each stream, and where. */
  lemma InputAt(h: Hash, s: InStream, tx: Tx, spent: seq<TxOut>, i: nat)
    requires i < |tx.inputs| == |spent| && !s.AssetAmounts?
    ensures |InString(h, s, tx, spent)| == Stride(s) * |spent|
    ensures LiesAt(InBytes(h, s, tx.inputs[i], spent[i]).value, InString(h, s, tx, spent), Stride(s) * i)
  {
    var pieces := InPieces(h, s, tx.inputs, spent);
    forall j | 0 <= j < |pieces|
      ensures |pieces[j]| == Stride(s) && InBytes(h, s, tx.inputs[j], spent[j]) == Some(pieces[j])
    {
      hide BigEndian;
    }
    hide LiesAt, Concat, InBytes, InPiece, Stride, BigEndian;
    PieceLies(pieces, Stride(s), i);
  }

  /** What each output adds to the streams of fixed stride: its script's digest, and two of no proof. */
  lemma OutputAt(h: Hash, tx: Tx, v: nat)
    requires v < |tx.outputs|
    ensures LiesAt(h(tx.outputs[v].script), OutString(h, OutScripts, tx), 32 * v)
    ensures LiesAt(h([]), OutString(h, Ranges, tx), 32 * v) && LiesAt(h([]), OutString(h, Surjections, tx), 32 * v)
    ensures |OutString(h, OutScripts, tx)| == |OutString(h, Ranges, tx)| == |OutString(h, Surjections, tx)|
         == 32 * |tx.outputs|
  {
    hide LiesAt, Concat;
    PieceLies(OutPieces(h, OutScripts, tx.outputs), 32, v);
    PieceLies(OutPieces(h, Ranges, tx.outputs), 32, v);
    PieceLies(OutPieces(h, Surjections, tx.outputs), 32, v);
  }

  /** The variable pieces of an accepted coin: a byte 1 and the asset, or a byte 0; a byte 1 and eight of amount; a
      nonce with its prefix. */
  lemma CoinBytes(h: Hash, input: TxIn, coin: TxOut)
    requires Explicit(coin)
    ensures var asset := if coin.asset.NullAsset? then [0] else [1] + coin.asset.id;
            var nonce := match coin.nonce
                         case NullNonce => [0]
                         case ExplicitNonce(value) => [1] + value
                         case ConfidentialNonce(odd, x) => [if odd then 3 else 2] + x;
            && InPiece(h, AssetAmounts, input, coin) == asset + ([1] + BigEndian(coin.value.value, 8))
            && OutPiece(h, Amounts, coin) == asset + ([1] + BigEndian(coin.value.value, 8))
            && OutPiece(h, Nonces, coin) == nonce
  {
    hide BigEndian;
  }

  /** Which transactions have a commitment. */
  lemma ShapedMeans(tx: Tx, spent: seq<TxOut>)
    ensures Shaped(tx, spent) <==>
            && 0 < |tx.inputs| == |spent|
            && (forall input :: input in tx.inputs ==> !input.pegin && !input.issuance)
            && (forall coin :: coin in spent || coin in tx.outputs ==>
                  coin.value.ExplicitAmount? && (coin.asset.ExplicitAsset? || coin.asset.NullAsset?))
            && forall i :: 0 <= i < |spent| && |tx.inputs[i].stack| >= 2 ==>
                 var script, last := spent[i].script, tx.inputs[i].stack[|tx.inputs[i].stack| - 1];
                 !(|script| == 34 && script[0] == 81 && script[1] == 32 && |last| >= 1 && last[0] == 80)
  {
    if tx.inputs != [] && |spent| == |tx.inputs| {
      forall i | 0 <= i < |spent|
        ensures tx.inputs[i] in tx.inputs && spent[i] in spent
      {}
      forall v | 0 <= v < |tx.outputs|
        ensures tx.outputs[v] in tx.outputs
      {}
    }
  }

  // ---- The two digests over a commitment or an output --------------------------------------------------

  /** The 132 bytes behind a promise or a paired authorization. */
  lemma TaggedAt(tag: Bytes32, genesis: Bytes32, o: CommitmentBinding.OutPoint, body: Bytes32)
    ensures var s := CommitmentBinding.TaggedString(tag, genesis, o, body);
            && |s| == 132 && LiesAt(tag, s, 0) && LiesAt(genesis, s, 32) && LiesAt(o.txid, s, 64)
            && LiesAt(BigEndian(o.vout, 4), s, 96) && LiesAt(body, s, 100)
  {
    FourLie(tag, genesis, o.txid, BigEndian(o.vout, 4));
    var front := tag + genesis + o.txid + BigEndian(o.vout, 4);
    TwoLie(front, body);
    StillLies(tag, front, 0, body);
    StillLies(genesis, front, 32, body);
    StillLies(o.txid, front, 64, body);
    StillLies(BigEndian(o.vout, 4), front, 96, body);
    hide LiesAt, BigEndian;
  }

  /** What a promise signs. */
  lemma PromiseAt(h: Hash, tag: Bytes, genesis: Bytes32, lockbox: CommitmentBinding.OutPoint, commitment: Bytes32)
    returns (s: Bytes)
    ensures CommitmentBinding.PromiseDigest(h, tag, genesis, lockbox, commitment) == h(s)
    ensures |s| == 132 && LiesAt(h(tag), s, 0) && LiesAt(genesis, s, 32) && LiesAt(lockbox.txid, s, 64)
    ensures LiesAt(BigEndian(lockbox.vout, 4), s, 96) && LiesAt(commitment, s, 100)
  {
    s := CommitmentBinding.TaggedString(h(tag), genesis, lockbox, commitment);
    TaggedAt(h(tag), genesis, lockbox, commitment);
    hide LiesAt, BigEndian, CommitmentBinding.TaggedString;
  }

  /** The bytes behind the digest of an accepted output: asset, amount, nonce, and the digests of its script and of
      no range proof. */
  lemma OutputStringAt(h: Hash, input: TxIn, out: TxOut)
    requires Explicit(out)
    ensures var coin, nonce := InPiece(h, AssetAmounts, input, out), OutPiece(h, Nonces, out);
            var s := CommitmentBinding.OutputString(h, out);
            && |s| == |coin| + |nonce| + 64 && LiesAt(coin, s, 0) && LiesAt(nonce, s, |coin|)
            && LiesAt(h(out.script), s, |coin| + |nonce|) && LiesAt(h([]), s, |coin| + |nonce| + 32)
  {
    FourLie(AssetBytes(out.asset) + AmountBytes(out.value), NonceBytes(out.nonce), h(out.script), h([]));
    hide LiesAt, AssetBytes, AmountBytes, NonceBytes;
  }
}
