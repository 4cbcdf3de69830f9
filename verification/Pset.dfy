/** Partially signed transactions as the wallet core reviews them, with the review
    each acceptable one deserves. Keys, addresses, signatures and proofs are
    symbolic: a signature names what it signs, a commitment what it commits to. */
module Pset {
  import opened Common
  import opened Coins

  datatype Key = WalletKey(change: bool, index: nat) | OtherKey(id: nat)

  datatype Script = Empty | P2wpkh(key: Key) | Other(id: nat, length: nat, addressable: bool)

  /** The address of a script, blinded to a key or not. */
  datatype Address = Address(script: Script, blinder: Option<nat>)

  predicate HasAddress(script: Script) {
    script.P2wpkh? || (script.Other? && script.addressable)
  }

  datatype Sighash = All | SingleAnyoneCanPay | OtherSighash

  datatype Kind = Transfer | Issuance | SwapOffer | SwapTake | OfferSplit | Cancel

  function SighashOf(kind: Kind): Sighash {
    if kind.SwapOffer? then SingleAnyoneCanPay else All
  }

  /** A BIP-32 claim on an input or output: whose fingerprint, which key, and the
      wallet key the path derives, if it is a wallet path. */
  datatype Derivation = Derivation(ours: bool, key: Key, derived: Option<Key>)

  /** The output an input spends. `Mixed` stands for everything neither fully explicit
      nor fully confidential; `hidden` tells whether its asset or amount is not explicit. */
  datatype Prevout =
    | Explicit(asset: Asset, amount: nat, script: Script)
    | Confidential(asset: Asset, amount: nat, script: Script)
    | Mixed(script: Script, hidden: bool)

  datatype TxOut = TxOut(asset: Asset, amount: nat, script: Script)

  /** A final P2WPKH witness: a signature by `key` with `flag` over the spent outpoint
      and its amount, and over the output at the input's own position. */
  datatype FinalWitness = FinalWitness(key: Key, flag: Sighash, outpoint: OutPoint, amount: nat, paired: TxOut)

  datatype IssuanceFields =
    | NoIssuance
    | PartialIssuance
    | FullIssuance(explicit: bool, amount: Option<nat>, tokens: Option<nat>, contract: Option<nat>)

  datatype Input = Input(
    outpoint: OutPoint,
    plain: bool,                 // none of the unsupported fields, final sequence
    prevout: Option<Prevout>,
    cleanPrevout: bool,          // the spent output carries no witness data
    asset: Option<Asset>,
    amount: Option<nat>,
    valueProof: bool,
    assetProof: bool,
    derivations: seq<Derivation>,
    sighash: Option<Sighash>,
    final: Option<FinalWitness>,
    issuance: IssuanceFields)

  /** The confidential part of an output: whether its proofs verify, the blinding key its fields name, and the key
      that really opens it with the coin sealed inside. */
  datatype Blinding =
    | NotBlinded
    | Blinded(proven: bool, blinder: nat, blinderIndex: Option<nat>, sealedTo: nat, sealed: Coin)

  datatype Output = Output(
    plain: bool, asset: Option<Asset>, amount: Option<nat>, script: Script, derivations: seq<Derivation>,
        blinding: Blinding)

  datatype Transaction = Transaction(
    plainGlobals: bool, genesis: Option<nat>, standard: bool, inputs: seq<Input>, outputs: seq<Output>,
    amountProofs: bool)          // commitments balance and every range and surjection proof verifies

  /** The wallet's fixed facts; `ids` derives issued asset and token from the issuing
      outpoint and the contract hash, `blinder` the blinding key of each script. */
  datatype Wallet = Wallet(
    policy: Asset, genesis: nat, ids: (OutPoint, nat) -> (Asset, Asset), blinder: Script -> nat)

  datatype IssuanceReview = IssuanceReview(asset: Asset, token: Option<Asset>, amount: nat, tokens: nat, contract: nat)

  datatype ExternalOutput = ExternalOutput(address: Address, asset: Asset, amount: nat, confidential: bool)

  datatype TxReview = TxReview(
    kind: Kind, genesis: nat, changes: map<Asset, int>, fee: nat, external: seq<ExternalOutput>,
    signed: seq<OutPoint>, foreign: seq<OutPoint>, issuance: Option<IssuanceReview>, sighash: Sighash,
        confidential: bool)

  // ---- One input ------------------------------------------------------------------------------------

  predicate InputConfidential(input: Input) {
    || input.valueProof || input.assetProof
    || (input.prevout.Some? && (input.prevout.value.Confidential?
        || (input.prevout.value.Mixed? && input.prevout.value.hidden)))
  }

  /** The asset and amount the spent output proves, if it does. */
  function ProvenCoin(input: Input, confidential: bool): Option<Coin> {
    if input.prevout.None? then None
    else match input.prevout.value {
      case Explicit(asset, amount, _) =>
        if input.valueProof || input.assetProof then None else Some(Coin(asset, amount))
      case Confidential(asset, amount, _) =>
        if confidential && input.valueProof && input.assetProof
           && input.asset == Some(asset) && input.amount == Some(amount)
        then Some(Coin(asset, amount)) else None
      case Mixed(_, _) => None
    }
  }

  /** The input is claimed by exactly one valid path of this wallet. */
  predicate ClaimedByWallet(input: Input) {
    && |input.derivations| == 1 && input.derivations[0].ours
    && input.derivations[0].derived == Some(input.derivations[0].key)
    && input.derivations[0].key.WalletKey?
    && input.prevout.Some? && input.prevout.value.script == P2wpkh(input.derivations[0].key)
  }

  predicate IsWalletInput(input: Input) {
    input.derivations != []
  }

  predicate PlainInput(input: Input) {
    && input.plain && !input.issuance.PartialIssuance?
    && (input.final.Some? ==> input.derivations == [])
  }

  function InCoin(input: Input): Coin {
    Coin(input.asset.GetOr(0), input.amount.GetOr(0))
  }

  predicate OwnerOk(kind: Kind, input: Input) {
    if IsWalletInput(input)
    then ClaimedByWallet(input) && input.final.None? && input.sighash == Some(SighashOf(kind))
    else kind.SwapTake? && input.sighash.None? && input.final.Some?
  }

  predicate IssuanceOk(kind: Kind, input: Input, first: bool) {
    input.issuance.FullIssuance? ==>
      && kind.Issuance? && first && IsWalletInput(input)
      && input.issuance.explicit
      && input.issuance.amount.Some? && 0 < input.issuance.amount.value <= MAX_MONEY
      && (input.issuance.tokens.Some? ==> 0 < input.issuance.tokens.value <= MAX_MONEY)
      && input.issuance.contract.Some?
  }

  /** The spent coin is proven, in range, declared consistently and held by a P2WPKH script. */
  predicate CoinOk(input: Input, confidential: bool) {
    && PlainInput(input)
    && input.asset.Some? && input.amount.Some? && 0 < input.amount.value <= MAX_MONEY
    && ProvenCoin(input, confidential) == Some(InCoin(input))
    && input.prevout.value.script.P2wpkh? && input.cleanPrevout
  }

  predicate InputOk(kind: Kind, confidential: bool, input: Input, first: bool) {
    CoinOk(input, confidential) && OwnerOk(kind, input) && IssuanceOk(kind, input, first)
  }

  function IssuanceReviewOf(w: Wallet, input: Input): Option<IssuanceReview> {
    if !input.issuance.FullIssuance? then None
    else
      var contract, tokens := input.issuance.contract.GetOr(0), input.issuance.tokens.GetOr(0);
      var (asset, token) := w.ids(input.outpoint, contract);
      Some(IssuanceReview(asset, if tokens > 0 then Some(token)
          else None, input.issuance.amount.GetOr(0), tokens, contract))
  }

  /** What the issuance of an input adds to the transaction. */
  function IssuedCoins(w: Wallet, input: Input): seq<Coin> {
    match IssuanceReviewOf(w, input)
    case None => []
    case Some(r) => [Coin(r.asset, r.amount)] + (if r.token.Some? then [Coin(r.token.value, r.tokens)] else [])
  }

  // ---- One output -------------------------------------------------------------------------------------

  predicate IsWalletOutput(output: Output) {
    && |output.derivations| == 1 && output.derivations[0].ours
    && output.derivations[0].derived == Some(output.derivations[0].key)
    && output.derivations[0].key.WalletKey?
    && output.script == P2wpkh(output.derivations[0].key)
  }

  function OutCoin(output: Output): Coin {
    Coin(output.asset.GetOr(0), output.amount.GetOr(0))
  }

  /** The amount is declared, in range and, when blinded, proven. */
  predicate AmountOk(output: Output, inputs: nat) {
    && output.plain && output.asset.Some? && output.amount.Some?
    && 0 < output.amount.value <= MAX_MONEY
    && (output.blinding.Blinded? ==>
          && output.blinding.proven && output.script != Empty
          && output.blinding.blinderIndex.Some? && output.blinding.blinderIndex.value < inputs)
  }

  /** What the wallet's blinding key for the output's script opens it to. */
  function Unblinded(w: Wallet, output: Output): Option<Coin> {
    if output.blinding.Blinded? && output.blinding.sealedTo == w.blinder(output.script)
    then Some(output.blinding.sealed) else None
  }

  /** The fee is the last output and in the policy asset; the wallet can unblind what
      it is said to receive; everything else has an address. */
  predicate RecipientOk(w: Wallet, output: Output, last: bool) {
    if output.script == Empty then output.asset == Some(w.policy) && last
    else if IsWalletOutput(output) then output.blinding.Blinded? ==> Unblinded(w, output) == Some(OutCoin(output))
    else HasAddress(output.script)
  }

  predicate OutputOk(w: Wallet, output: Output, last: bool, inputs: nat) {
    AmountOk(output, inputs) && RecipientOk(w, output, last)
  }

  function ExternalOf(output: Output): ExternalOutput {
    ExternalOutput(
      Address(output.script, if output.blinding.Blinded? then Some(output.blinding.blinder) else None),
      output.asset.GetOr(0), output.amount.GetOr(0), output.blinding.Blinded?)
  }

  // ---- The whole transaction ------------------------------------------------------------------------------

  /** Coins entering: the inputs and what they issue. */
  function CoinsIn(w: Wallet, inputs: seq<Input>): seq<Coin> {
    if inputs == [] then []
    else
      var last := inputs[|inputs| - 1];
      CoinsIn(w, inputs[..|inputs| - 1]) + [InCoin(last)] + IssuedCoins(w, last)
  }

  function WalletCoinsIn(inputs: seq<Input>): seq<Coin> {
    if inputs == [] then []
    else
      var last := inputs[|inputs| - 1];
      WalletCoinsIn(inputs[..|inputs| - 1]) + (if IsWalletInput(last) then [InCoin(last)] else [])
  }

  function ForeignCoinsIn(inputs: seq<Input>): seq<Coin> {
    if inputs == [] then []
    else
      var last := inputs[|inputs| - 1];
      ForeignCoinsIn(inputs[..|inputs| - 1]) + (if IsWalletInput(last) then [] else [InCoin(last)])
  }

  function CoinsIssued(w: Wallet, inputs: seq<Input>): seq<Coin> {
    if inputs == [] then []
    else CoinsIssued(w, inputs[..|inputs| - 1]) + IssuedCoins(w, inputs[|inputs| - 1])
  }

  function Outpoints(inputs: seq<Input>, wallet: bool): seq<OutPoint> {
    if inputs == [] then []
    else
      var last := inputs[|inputs| - 1];
      Outpoints(inputs[..|inputs| - 1], wallet) + (if IsWalletInput(last) == wallet then [last.outpoint] else [])
  }

  function CoinsOut(outputs: seq<Output>): seq<Coin> {
    if outputs == [] then [] else CoinsOut(outputs[..|outputs| - 1]) + [OutCoin(outputs[|outputs| - 1])]
  }

  function WalletCoinsOut(outputs: seq<Output>): seq<Coin> {
    if outputs == [] then []
    else
      var last := outputs[|outputs| - 1];
      WalletCoinsOut(outputs[..|outputs| - 1])
          + (if last.script != Empty && IsWalletOutput(last) then [OutCoin(last)] else [])
  }

  function ExternalOutputs(outputs: seq<Output>): seq<ExternalOutput> {
    if outputs == [] then []
    else
      var last := outputs[|outputs| - 1];
      ExternalOutputs(outputs[..|outputs| - 1])
          + (if last.script != Empty && !IsWalletOutput(last) then [ExternalOf(last)] else [])
  }

  function ExternalCoins(external: seq<ExternalOutput>): seq<Coin> {
    if external == [] then []
    else
      var last := external[|external| - 1];
      ExternalCoins(external[..|external| - 1]) + [Coin(last.asset, last.amount)]
  }

  function FeeOf(outputs: seq<Output>): nat {
    if outputs != [] && outputs[|outputs| - 1].script == Empty then outputs[|outputs| - 1].amount.GetOr(0) else 0
  }

  function FeeOutputs(outputs: seq<Output>): nat {
    if outputs == [] then 0
    else FeeOutputs(outputs[..|outputs| - 1]) + (if outputs[|outputs| - 1].script == Empty then 1 else 0)
  }

  function IssuanceOfTx(w: Wallet, inputs: seq<Input>): Option<IssuanceReview> {
    if inputs == [] then None else IssuanceReviewOf(w, inputs[0])
  }

  predicate TxConfidential(tx: Transaction) {
    || (exists i :: 0 <= i < |tx.inputs| && InputConfidential(tx.inputs[i]))
    || (exists v :: 0 <= v < |tx.outputs| && tx.outputs[v].blinding.Blinded?)
  }

  /** No asset's running total overflows its 64-bit counter. */
  ghost predicate Bounded(coins: seq<Coin>) {
    forall a :: Total(coins, a) <= MAX_U64
  }

  /** The signature of a maker input is valid and covers its own paired output. */
  predicate MakerSigned(tx: Transaction, i: nat)
    requires i < |tx.inputs|
  {
    var input := tx.inputs[i];
    && input.final.Some? && input.prevout.Some? && i < |tx.outputs|
    && input.final.value.flag == SingleAnyoneCanPay
    && input.prevout.value.script == P2wpkh(input.final.value.key)
    && input.final.value.outpoint == input.outpoint
    && input.prevout.value.Explicit?
    && input.final.value.amount == input.prevout.value.amount
    && input.final.value.paired == TxOut(tx.outputs[i].asset.GetOr(0), tx.outputs[i].amount.GetOr(0),
        tx.outputs[i].script)
  }

  /** Maker inputs come first, each paired with the output its signature covers. */
  predicate MakersFirst(tx: Transaction, foreign: nat) {
    && foreign <= |tx.inputs| && (forall i :: 0 <= i < foreign ==> !IsWalletInput(tx.inputs[i]))
    && |tx.outputs| > foreign
    && (forall i :: 0 <= i < foreign ==> tx.outputs[i].derivations == [] && tx.outputs[i].script != Empty)
    && (forall i :: 0 <= i < foreign ==> MakerSigned(tx, i))
  }

  predicate KindOk(w: Wallet, tx: Transaction, kind: Kind) {
    var external := ExternalOutputs(tx.outputs);
    var issuance := IssuanceOfTx(w, tx.inputs);
    var foreign := |Outpoints(tx.inputs, false)|;
    match kind
    case Transfer => external != [] && issuance.None?
    case OfferSplit => external == [] && issuance.None?
    case Cancel => external == [] && issuance.None?
    case Issuance => issuance.Some?
    case SwapOffer =>
      && |tx.inputs| == 1 && |tx.outputs| == 1 && |Outpoints(tx.inputs, true)| == 1
      && FeeOutputs(tx.outputs) == 0 && external == []
      && tx.inputs[0].asset != tx.outputs[0].asset
    case SwapTake => foreign > 0 && issuance.None? && MakersFirst(tx, foreign)
  }

  predicate DistinctInputs(inputs: seq<Input>) {
    forall i, j :: 0 <= i < j < |inputs| ==> inputs[i].outpoint != inputs[j].outpoint
  }

  ghost predicate InputsOk(w: Wallet, kind: Kind, confidential: bool, inputs: seq<Input>) {
    && DistinctInputs(inputs)
    && (forall i :: 0 <= i < |inputs| ==> InputOk(kind, confidential, inputs[i], i == 0))
    && Bounded(CoinsIn(w, inputs))
  }

  /** The outputs `outputs[..v]` of a transaction with `count` outputs are sound. */
  ghost predicate OutputsOk(w: Wallet, outputs: seq<Output>, count: nat, inputs: nat) {
    && (forall v :: 0 <= v < |outputs| ==> OutputOk(w, outputs[v], v + 1 == count, inputs))
    && Bounded(CoinsOut(outputs))
  }

  ghost predicate Conserves(w: Wallet, tx: Transaction) {
    forall a :: Total(CoinsIn(w, tx.inputs), a) == Total(CoinsOut(tx.outputs), a)
  }

  /** Everything the analysis demands of a transaction of the given kind. */
  ghost predicate Accepts(w: Wallet, tx: Transaction, kind: Kind) {
    && tx.plainGlobals && tx.genesis == Some(w.genesis) && tx.standard
    && 0 < |tx.inputs| <= 256 && 0 < |tx.outputs| <= 256
    && (TxConfidential(tx) ==> !kind.SwapOffer? && !kind.SwapTake? && tx.amountProofs)
    && InputsOk(w, kind, TxConfidential(tx), tx.inputs)
    && OutputsOk(w, tx.outputs, |tx.outputs|, |tx.inputs|)
    && (!kind.SwapOffer? ==> FeeOutputs(tx.outputs) == 1 && Conserves(w, tx))
    && KindOk(w, tx, kind)
    && Outpoints(tx.inputs, true) != []
  }

  /** The wallet's net gain of an asset, the fee not counted against it. */
  function Delta(w: Wallet, tx: Transaction, a: Asset): int {
    Total(WalletCoinsOut(tx.outputs), a) - Total(WalletCoinsIn(tx.inputs), a)
        + (if a == w.policy then FeeOf(tx.outputs) else 0)
  }

  /** `changes` lists exactly the non-zero deltas. */
  ghost predicate ListsDeltas(w: Wallet, tx: Transaction, changes: map<Asset, int>) {
    forall a :: (a in changes <==> Delta(w, tx, a) != 0) && (a in changes ==> changes[a] == Delta(w, tx, a))
  }

  /** The review of an accepted transaction. */
  ghost predicate Describes(w: Wallet, tx: Transaction, kind: Kind, r: TxReview) {
    && r.kind == kind && r.genesis == w.genesis && ListsDeltas(w, tx, r.changes)
    && r.fee == FeeOf(tx.outputs) && r.external == ExternalOutputs(tx.outputs)
    && r.signed == Outpoints(tx.inputs, true) && r.foreign == Outpoints(tx.inputs, false)
    && r.issuance == IssuanceOfTx(w, tx.inputs) && r.sighash == SighashOf(kind)
    && r.confidential == TxConfidential(tx)
  }
}
