/** The transaction commitment of the Instant protocol, over an abstract 32-byte hash. */
module Commitment {
  import opened Common

  type Byte = b: nat | b < 256

  type Bytes = seq<Byte>

  type Bytes32 = s: Bytes | |s| == 32 witness seq(32, i => 0)

  type U32 = n: nat | n < 0x1_0000_0000

  type U64 = n: nat | n < 0x1_0000_0000_0000_0000

  /** Confidential halves carry one of two prefixes (0x0a/0x0b for assets, 0x08/0x09 for amounts, 0x02/0x03 for
      nonces). */
  datatype Asset = NullAsset | ExplicitAsset(id: Bytes32) | ConfidentialAsset(odd: bool, x: Bytes32)

  datatype Amount = NullAmount | ExplicitAmount(value: U64) | ConfidentialAmount(odd: bool, x: Bytes32)

  datatype Nonce = NullNonce | ExplicitNonce(value: Bytes32) | ConfidentialNonce(odd: bool, x: Bytes32)

  datatype TxOut = TxOut(asset: Asset, value: Amount, nonce: Nonce, script: Bytes, proofs: seq<Bytes>)

  datatype TxIn = TxIn(
    txid: Bytes32, vout: U32, sequence: U32, scriptSig: Bytes, pegin: bool, issuance: bool, stack: seq<Bytes>,
        proofs: seq<Bytes>)

  datatype Tx = Tx(version: U32, lockTime: U32, inputs: seq<TxIn>, outputs: seq<TxOut>)

  // ---- Serialization ---------------------------------------------------------------------------

  /** `k` bytes, most significant first. */
  function BigEndian(n: nat, k: nat): (s: Bytes)
    ensures |s| == k
  {
    if k == 0 then [] else BigEndian(n / 256, k - 1) + [n % 256]
  }

  lemma {:induction false} BigEndianDiffers(a: nat, b: nat, k: nat)
    requires BigEndian(a, k) == BigEndian(b, k) && a < Pow256(k) && b < Pow256(k)
    ensures a == b
  {
    if k > 0 {
      var left, right := BigEndian(a, k), BigEndian(b, k);
      assert left[..k - 1] == BigEndian(a / 256, k - 1) && right[..k - 1] == BigEndian(b / 256, k - 1);
      assert left[k - 1] == a % 256 && right[k - 1] == b % 256;
      BigEndianDiffers(a / 256, b / 256, k - 1);
    }
  }

  function Pow256(k: nat): nat {
    if k == 0 then 1 else 256 * Pow256(k - 1)
  }

  lemma Pow256Values()
    ensures Pow256(4) == 0x1_0000_0000 && Pow256(8) == 0x1_0000_0000_0000_0000
  {
    assert Pow256(2) == 65536;
    assert Pow256(4) == 0x1_0000_0000;
    assert Pow256(6) == 65536 * Pow256(4);
    assert Pow256(8) == 65536 * Pow256(6);
  }

  function AssetBytes(a: Asset): Bytes {
    match a
    case NullAsset => [0]
    case ExplicitAsset(id) => [1] + id
    case ConfidentialAsset(odd, x) => [if odd then 11 else 10] + x
  }

  function AmountBytes(v: Amount): Bytes {
    match v
    case NullAmount => [0]
    case ExplicitAmount(value) => [1] + BigEndian(value, 8)
    case ConfidentialAmount(odd, x) => [if odd then 9 else 8] + x
  }

  function NonceBytes(n: Nonce): Bytes {
    match n
    case NullNonce => [0]
    case ExplicitNonce(value) => [1] + value
    case ConfidentialNonce(odd, x) => [if odd then 3 else 2] + x
  }

  // ---- Accepted shapes ---------------------------------------------------------------------------

  /** Explicit asset and amount; a null asset passes, a null amount does not. */
  predicate Explicit(out: TxOut) {
    !out.asset.ConfidentialAsset? && out.value.ExplicitAmount?
  }

  predicate IsP2tr(script: Bytes) {
    |script| == 34 && script[0] == 0x51 && script[1] == 0x20
  }

  predicate HasAnnex(input: TxIn, utxo: TxOut) {
    && IsP2tr(utxo.script) && |input.stack| >= 2
    && input.stack[|input.stack| - 1] != [] && input.stack[|input.stack| - 1][0] == 0x50
  }

  predicate InputShaped(input: TxIn, utxo: TxOut) {
    !input.pegin && !input.issuance && !HasAnnex(input, utxo) && Explicit(utxo)
  }

  predicate Shaped(tx: Tx, spent: seq<TxOut>) {
    && tx.inputs != [] && |spent| == |tx.inputs|
    && (forall i :: 0 <= i < |tx.inputs| ==> InputShaped(tx.inputs[i], spent[i]))
    && (forall i :: 0 <= i < |tx.outputs| ==> Explicit(tx.outputs[i]))
  }

  // ---- The streams fed to the hash engines ----------------------------------------------------------

  function Concat(pieces: seq<Bytes>): Bytes {
    if pieces == [] then [] else Concat(pieces[..|pieces| - 1]) + pieces[|pieces| - 1]
  }

  datatype InStream =
    | Outpoints | AssetAmounts | Scripts | Sequences | Annexes | ScriptSigs | IssueAssets | IssueTokens | IssueProofs
    | IssueEntropy

  datatype OutStream = Amounts | Nonces | OutScripts | Ranges | Surjections

  type Hash = Bytes -> Bytes32

  function InPiece(h: Hash, s: InStream, input: TxIn, utxo: TxOut): Bytes {
    match s
    case Outpoints => [0] + input.txid + BigEndian(input.vout, 4)
    case AssetAmounts => AssetBytes(utxo.asset) + AmountBytes(utxo.value)
    case Scripts => h(utxo.script)
    case Sequences => BigEndian(input.sequence, 4)
    case Annexes => [0]
    case ScriptSigs => h(input.scriptSig)
    case IssueAssets => [0, 0]
    case IssueTokens => [0, 0]
    case IssueProofs => h([]) + h([])
    case IssueEntropy => [0]
  }

  function OutPiece(h: Hash, s: OutStream, out: TxOut): Bytes {
    match s
    case Amounts => AssetBytes(out.asset) + AmountBytes(out.value)
    case Nonces => NonceBytes(out.nonce)
    case OutScripts => h(out.script)
    case Ranges => h([])
    case Surjections => h([])
  }

  function InPieces(h: Hash, s: InStream, inputs: seq<TxIn>, spent: seq<TxOut>): seq<Bytes>
    requires |inputs| == |spent|
  {
    seq(|inputs|, i requires 0 <= i < |inputs| => InPiece(h, s, inputs[i], spent[i]))
  }

  function OutPieces(h: Hash, s: OutStream, outputs: seq<TxOut>): seq<Bytes> {
    seq(|outputs|, i requires 0 <= i < |outputs| => OutPiece(h, s, outputs[i]))
  }

  function InString(h: Hash, s: InStream, tx: Tx, spent: seq<TxOut>): Bytes
    requires |tx.inputs| == |spent|
  {
    Concat(InPieces(h, s, tx.inputs, spent))
  }

  function OutString(h: Hash, s: OutStream, tx: Tx): Bytes {
    Concat(OutPieces(h, s, tx.outputs))
  }

  function UtxosString(h: Hash, tx: Tx, spent: seq<TxOut>): Bytes
    requires |tx.inputs| == |spent|
  {
    h(InString(h, AssetAmounts, tx, spent)) + h(InString(h, Scripts, tx, spent))
  }

  function InputsString(h: Hash, tx: Tx, spent: seq<TxOut>): Bytes
    requires |tx.inputs| == |spent|
  {
    h(InString(h, Outpoints, tx, spent)) + h(InString(h, Sequences, tx, spent)) + h(InString(h, Annexes, tx, spent))
  }

  function IssuancesString(h: Hash, tx: Tx, spent: seq<TxOut>): Bytes
    requires |tx.inputs| == |spent|
  {
    h(InString(h, IssueAssets, tx, spent)) + h(InString(h, IssueTokens, tx, spent))
    + h(InString(h, IssueProofs, tx, spent)) + h(InString(h, IssueEntropy, tx, spent))
  }

  function OutputsString(h: Hash, tx: Tx): Bytes {
    h(OutString(h, Amounts, tx)) + h(OutString(h, Nonces, tx)) + h(OutString(h, OutScripts, tx))
        + h(OutString(h, Ranges, tx))
  }

  function TxString(h: Hash, tx: Tx, spent: seq<TxOut>): Bytes
    requires |tx.inputs| == |spent|
  {
    BigEndian(tx.version, 4) + BigEndian(tx.lockTime, 4) + h(InputsString(h, tx, spent)) + h(OutputsString(h, tx))
    + h(IssuancesString(h, tx, spent)) + h(OutString(h, Surjections, tx)) + h(UtxosString(h, tx, spent))
  }

  function CommitmentString(h: Hash, tx: Tx, spent: seq<TxOut>): Bytes
    requires |tx.inputs| == |spent|
  {
    h(TxString(h, tx, spent)) + h(InString(h, ScriptSigs, tx, spent))
  }

  // ---- The computation ----------------------------------------------------------------------------------

  lemma ConcatSnoc(pieces: seq<Bytes>, piece: Bytes)
    ensures Concat(pieces + [piece]) == Concat(pieces) + piece
  {
    assert (pieces + [piece])[..|pieces|] == pieces;
  }

  lemma ConcatTake(pieces: seq<Bytes>, n: nat)
    requires n < |pieces|
    ensures Concat(pieces[..n + 1]) == Concat(pieces[..n]) + pieces[n]
  {
    ConcatSnoc(pieces[..n], pieces[n]);
    assert pieces[..n + 1] == pieces[..n] + [pieces[n]];
  }

  /** What an engine holds after the first `n` inputs. */
  function InFed(h: Hash, s: InStream, tx: Tx, spent: seq<TxOut>, n: nat): Bytes
    requires n <= |tx.inputs| == |spent|
  {
    Concat(InPieces(h, s, tx.inputs, spent)[..n])
  }

  function OutFed(h: Hash, s: OutStream, tx: Tx, n: nat): Bytes
    requires n <= |tx.outputs|
  {
    Concat(OutPieces(h, s, tx.outputs)[..n])
  }

  lemma FeedInput(h: Hash, s: InStream, tx: Tx, spent: seq<TxOut>, n: nat)
    requires n < |tx.inputs| == |spent|
    ensures InFed(h, s, tx, spent, n + 1) == InFed(h, s, tx, spent, n) + InPiece(h, s, tx.inputs[n], spent[n])
  {
    hide Concat, InPiece;
    ConcatTake(InPieces(h, s, tx.inputs, spent), n);
  }

  lemma FeedOutput(h: Hash, s: OutStream, tx: Tx, n: nat)
    requires n < |tx.outputs|
    ensures OutFed(h, s, tx, n + 1) == OutFed(h, s, tx, n) + OutPiece(h, s, tx.outputs[n])
  {
    hide Concat, OutPiece;
    ConcatTake(OutPieces(h, s, tx.outputs), n);
  }

  lemma TakeAll(pieces: seq<Bytes>)
    ensures Concat(pieces[..0]) == [] && pieces[..|pieces|] == pieces
  {}

  lemma FedAll(h: Hash, tx: Tx, spent: seq<TxOut>)
    requires |tx.inputs| == |spent|
    ensures forall s :: InFed(h, s, tx, spent, 0) == [] && InFed(h, s, tx, spent, |spent|) == InString(h, s, tx, spent)
    ensures forall s :: OutFed(h, s, tx, 0) == [] && OutFed(h, s, tx, |tx.outputs|) == OutString(h, s, tx)
  {
    forall s
      ensures InFed(h, s, tx, spent, 0) == [] && InFed(h, s, tx, spent, |spent|) == InString(h, s, tx, spent)
    {
      hide Concat, InPiece;
      TakeAll(InPieces(h, s, tx.inputs, spent));
    }
    forall s
      ensures OutFed(h, s, tx, 0) == [] && OutFed(h, s, tx, |tx.outputs|) == OutString(h, s, tx)
    {
      hide Concat, OutPiece;
      TakeAll(OutPieces(h, s, tx.outputs));
    }
  }

  datatype Engines = Engines(
    outpoints: Bytes, assetAmounts: Bytes, scripts: Bytes, sequences: Bytes, annexes: Bytes, scriptSigs: Bytes,
    issueAssets: Bytes, issueTokens: Bytes, issueProofs: Bytes, issueEntropy: Bytes)

  const NOTHING := Engines([], [], [], [], [], [], [], [], [], [])

  ghost predicate Fed(h: Hash, tx: Tx, spent: seq<TxOut>, e: Engines, n: nat)
    requires n <= |tx.inputs| == |spent|
  {
    && e.outpoints == InFed(h, Outpoints, tx, spent, n) && e.assetAmounts == InFed(h, AssetAmounts, tx, spent, n)
    && e.scripts == InFed(h, Scripts, tx, spent, n) && e.sequences == InFed(h, Sequences, tx, spent, n)
    && e.annexes == InFed(h, Annexes, tx, spent, n) && e.scriptSigs == InFed(h, ScriptSigs, tx, spent, n)
    && e.issueAssets == InFed(h, IssueAssets, tx, spent, n) && e.issueTokens == InFed(h, IssueTokens, tx, spent, n)
    && e.issueProofs == InFed(h, IssueProofs, tx, spent, n) && e.issueEntropy == InFed(h, IssueEntropy, tx, spent, n)
  }

  /** Feeds one input and the coin it spends into the ten input engines. */
  method FeedEngines(h: Hash, ghost tx: Tx, ghost spent: seq<TxOut>, input: TxIn, utxo: TxOut, e: Engines, ghost n: nat)
    returns (next: Engines)
    requires n < |tx.inputs| == |spent| && input == tx.inputs[n] && utxo == spent[n] && Fed(h, tx, spent, e, n)
    ensures Fed(h, tx, spent, next, n + 1)
  {
    FeedInput(h, Outpoints, tx, spent, n);
    FeedInput(h, AssetAmounts, tx, spent, n);
    FeedInput(h, Scripts, tx, spent, n);
    FeedInput(h, Sequences, tx, spent, n);
    FeedInput(h, Annexes, tx, spent, n);
    FeedInput(h, ScriptSigs, tx, spent, n);
    FeedInput(h, IssueAssets, tx, spent, n);
    FeedInput(h, IssueTokens, tx, spent, n);
    FeedInput(h, IssueProofs, tx, spent, n);
    FeedInput(h, IssueEntropy, tx, spent, n);
    hide InFed, InPiece;
    next := Engines(
      e.outpoints + InPiece(h, Outpoints, input, utxo),
      e.assetAmounts + InPiece(h, AssetAmounts, input, utxo),
      e.scripts + InPiece(h, Scripts, input, utxo),
      e.sequences + InPiece(h, Sequences, input, utxo),
      e.annexes + InPiece(h, Annexes, input, utxo),
      e.scriptSigs + InPiece(h, ScriptSigs, input, utxo),
      e.issueAssets + InPiece(h, IssueAssets, input, utxo),
      e.issueTokens + InPiece(h, IssueTokens, input, utxo),
      e.issueProofs + InPiece(h, IssueProofs, input, utxo),
      e.issueEntropy + InPiece(h, IssueEntropy, input, utxo));
  }

  lemma NothingFed(h: Hash, tx: Tx, spent: seq<TxOut>)
    requires |tx.inputs| == |spent|
    ensures Fed(h, tx, spent, NOTHING, 0)
    ensures OutputsFed(h, tx, OutEngines([], [], [], [], []), 0)
  {
    FedAll(h, tx, spent);
    hide InFed, OutFed, InString, OutString;
  }

  /** Neither asset nor amount confidential, and no null amount. */
  method CheckExplicit(out: TxOut) returns (ok: bool)
    ensures ok <==> Explicit(out)
  {
    if out.asset.ConfidentialAsset? || out.value.ConfidentialAmount? { return false; }
    ok := !out.value.NullAmount?;
  }

  method CheckInput(input: TxIn, utxo: TxOut) returns (ok: bool)
    ensures ok <==> InputShaped(input, utxo)
  {
    if input.pegin || input.issuance { return false; }
    if IsP2tr(utxo.script) && |input.stack| >= 2 {
      var annex := input.stack[|input.stack| - 1];
      if annex != [] && annex[0] == 0x50 { return false; }
    }
    ok := CheckExplicit(utxo);
  }

  predicate InputsShaped(tx: Tx, spent: seq<TxOut>, n: nat)
    requires n <= |tx.inputs| == |spent|
  {
    forall i :: 0 <= i < n ==> InputShaped(tx.inputs[i], spent[i])
  }

  /** The first `n` inputs are accepted and fed. */
  ghost predicate Scanned(h: Hash, tx: Tx, spent: seq<TxOut>, e: Engines, n: nat)
    requires n <= |tx.inputs| == |spent|
  {
    InputsShaped(tx, spent, n) && Fed(h, tx, spent, e, n)
  }

  lemma NothingScanned(h: Hash, tx: Tx, spent: seq<TxOut>)
    requires |tx.inputs| == |spent|
    ensures Scanned(h, tx, spent, NOTHING, 0)
  {
    NothingFed(h, tx, spent);
    hide Fed;
  }

  method ScanInput(h: Hash, tx: Tx, spent: seq<TxOut>, e: Engines, i: nat) returns (ok: bool, next: Engines)
    requires i < |tx.inputs| == |spent| && Scanned(h, tx, spent, e, i)
    ensures ok ==> Scanned(h, tx, spent, next, i + 1)
    ensures !ok ==> !InputsShaped(tx, spent, |spent|)
  {
    hide Fed, InputShaped;
    next := e;
    ok := CheckInput(tx.inputs[i], spent[i]);
    if ok { next := FeedEngines(h, tx, spent, tx.inputs[i], spent[i], e, i); }
  }

  /** The input loop: refuses shapes outside the protocol and feeds the rest. */
  method ScanInputs(h: Hash, tx: Tx, spent: seq<TxOut>) returns (ok: bool, e: Engines)
    requires |tx.inputs| == |spent|
    ensures ok <==> InputsShaped(tx, spent, |spent|)
    ensures ok ==> Fed(h, tx, spent, e, |spent|)
  {
    NothingScanned(h, tx, spent);
    ok, e := true, NOTHING;
    hide InputsShaped, Fed, NOTHING;
    for i := 0 to |tx.inputs|
      invariant Scanned(h, tx, spent, e, i)
    {
      hide *;
      ok, e := ScanInput(h, tx, spent, e, i);
      if !ok { return; }
    }
    ok := true;
  }

  datatype OutEngines = OutEngines(amounts: Bytes, nonces: Bytes, scripts: Bytes, ranges: Bytes, surjections: Bytes)

  ghost predicate OutputsFed(h: Hash, tx: Tx, e: OutEngines, n: nat)
    requires n <= |tx.outputs|
  {
    && e.amounts == OutFed(h, Amounts, tx, n) && e.nonces == OutFed(h, Nonces, tx, n)
        && e.scripts == OutFed(h, OutScripts, tx, n)
    && e.ranges == OutFed(h, Ranges, tx, n) && e.surjections == OutFed(h, Surjections, tx, n)
  }

  lemma NoOutputsFed(h: Hash, tx: Tx)
    ensures OutputsFed(h, tx, OutEngines([], [], [], [], []), 0)
  {
    forall s
      ensures OutFed(h, s, tx, 0) == []
    {
      TakeAll(OutPieces(h, s, tx.outputs));
      hide Concat, OutPiece;
    }
    hide OutFed;
  }

  method FeedOutputs(h: Hash, ghost tx: Tx, out: TxOut, e: OutEngines, ghost n: nat) returns (next: OutEngines)
    requires n < |tx.outputs| && out == tx.outputs[n] && OutputsFed(h, tx, e, n)
    ensures OutputsFed(h, tx, next, n + 1)
  {
    FeedOutput(h, Amounts, tx, n);
    FeedOutput(h, Nonces, tx, n);
    FeedOutput(h, OutScripts, tx, n);
    FeedOutput(h, Ranges, tx, n);
    FeedOutput(h, Surjections, tx, n);
    hide OutFed, OutPiece;
    next := OutEngines(
      e.amounts + OutPiece(h, Amounts, out), e.nonces + OutPiece(h, Nonces, out),
          e.scripts + OutPiece(h, OutScripts, out),
      e.ranges + OutPiece(h, Ranges, out), e.surjections + OutPiece(h, Surjections, out));
  }

  method ScanOutputs(h: Hash, tx: Tx) returns (r: Option<OutEngines>)
    ensures r.Some? <==> forall i :: 0 <= i < |tx.outputs| ==> Explicit(tx.outputs[i])
    ensures r.Some? ==> OutputsFed(h, tx, r.value, |tx.outputs|)
  {
    var e := OutEngines([], [], [], [], []);
    NoOutputsFed(h, tx);
    hide *;
    for i := 0 to |tx.outputs|
      invariant forall j :: 0 <= j < i ==> Explicit(tx.outputs[j])
      invariant OutputsFed(h, tx, e, i)
    {
      var ok := CheckExplicit(tx.outputs[i]);
      if !ok { return None; }
      e := FeedOutputs(h, tx, tx.outputs[i], e, i);
    }
    r := Some(e);
  }

  method TxCommitment(h: Hash, tx: Tx, spent: seq<TxOut>) returns (r: Option<Bytes32>)
    ensures r.Some? <==> Shaped(tx, spent)
    ensures r.Some? ==> r.value == h(CommitmentString(h, tx, spent))
  {
    if tx.inputs == [] || |spent| != |tx.inputs| { return None; }
    hide InputShaped, Explicit;
    FedAll(h, tx, spent);
    var shaped, e := ScanInputs(h, tx, spent);
    if !shaped { return None; }
    hide InFed, OutFed, InString, OutString, BigEndian;
    var utxos := h(h(e.assetAmounts) + h(e.scripts));
    var inputs := h(h(e.outpoints) + h(e.sequences) + h(e.annexes));
    var issuances := h(h(e.issueAssets) + h(e.issueTokens) + h(e.issueProofs) + h(e.issueEntropy));
    var scannedOut := ScanOutputs(h, tx);
    if scannedOut.None? { return None; }
    var o := scannedOut.value;
    var outputs := h(h(o.amounts) + h(o.nonces) + h(o.scripts) + h(o.ranges));
    var txHash := h(BigEndian(tx.version, 4) + BigEndian(tx.lockTime, 4) + inputs + outputs + issuances
        + h(o.surjections) + utxos);
    r := Some(h(txHash + h(e.scriptSigs)));
  }
}
