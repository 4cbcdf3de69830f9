/** The review a signer recomputes from a transaction alone. */
module Review {
  import opened Common
  import opened Coins
  import opened Pset

  datatype ReviewError = InvalidPset | DuplicateUtxo | AmountOverflow

  // ---- Checked running totals -----------------------------------------------------------------

  /** The ordered map `m` holds the per-asset totals of the coins. */
  ghost predicate Tallies(m: map<Asset, nat>, coins: seq<Coin>) {
    forall a :: Get(m, a) == Total(coins, a)
  }

  method Add(m: map<Asset, nat>, coin: Coin, ghost coins: seq<Coin>) returns (r: Result<map<Asset, nat>, ReviewError>)
    requires Tallies(m, coins) && Bounded(coins)
    ensures r.Ok? <==> Bounded(coins + [coin])
    ensures r.Ok? ==> Tallies(r.value, coins + [coin])
  {
    var entry := Get(m, coin.asset);
    TotalsSnoc(coins, coin);
    if entry + coin.amount > MAX_U64 { return Err(AmountOverflow); }
    r := Ok(m[coin.asset := entry + coin.amount]);
  }

  lemma TotalsSnoc(coins: seq<Coin>, coin: Coin)
    ensures forall a :: Total(coins + [coin], a) == Total(coins, a) + AmountOf(coin, a)
  {
    forall a
      ensures Total(coins + [coin], a) == Total(coins, a) + AmountOf(coin, a)
    {
      TotalSnoc(coins, coin, a);
    }
  }

  lemma BoundedPrefix(coins: seq<Coin>, more: seq<Coin>)
    ensures Bounded(coins + more) ==> Bounded(coins)
  {
    forall a
      ensures Total(coins, a) <= Total(coins + more, a)
    {
      TotalAppend(coins, more, a);
    }
  }

  // ---- Inputs ---------------------------------------------------------------------------------------

  datatype InputFacts = InputFacts(
    seen: set<OutPoint>, totalIn: map<Asset, nat>, walletIn: map<Asset, nat>,
    signed: seq<OutPoint>, foreign: seq<OutPoint>, issuance: Option<IssuanceReview>)

  /** The facts gathered from a prefix of the inputs. */
  ghost predicate Gathered(w: Wallet, inputs: seq<Input>, f: InputFacts) {
    && f.seen == (set i | 0 <= i < |inputs| :: inputs[i].outpoint)
    && Tallies(f.totalIn, CoinsIn(w, inputs)) && Tallies(f.walletIn, WalletCoinsIn(inputs))
    && f.signed == Outpoints(inputs, true) && f.foreign == Outpoints(inputs, false)
    && f.issuance == IssuanceOfTx(w, inputs)
  }

  lemma Snoc<T>(front: seq<T>, last: T)
    ensures var all := front + [last];
            all != [] && all[..|all| - 1] == front && all[|all| - 1] == last
  {}

  /** Whether one more input keeps a sound prefix sound. */
  ghost predicate NextInputOk(w: Wallet, kind: Kind, confidential: bool, inputs: seq<Input>, input: Input) {
    && (forall i :: 0 <= i < |inputs| ==> inputs[i].outpoint != input.outpoint)
    && InputOk(kind, confidential, input, inputs == [])
    && Bounded(CoinsIn(w, inputs) + [InCoin(input)] + IssuedCoins(w, input))
  }

  lemma InputsOkSnoc(w: Wallet, kind: Kind, confidential: bool, inputs: seq<Input>, input: Input)
    requires InputsOk(w, kind, confidential, inputs)
    ensures InputsOk(w, kind, confidential, inputs + [input]) <==> NextInputOk(w, kind, confidential, inputs, input)
  {
    var all := inputs + [input];
    Snoc(inputs, input);
    assert CoinsIn(w, all) == CoinsIn(w, inputs) + [InCoin(input)] + IssuedCoins(w, input);
    hide InputOk, CoinsIn, IssuedCoins, InCoin, Bounded;
    assert forall i :: 0 <= i < |inputs| ==> all[i] == inputs[i];
    assert all[|inputs|] == input;
  }

  lemma {:induction false} CoinsInGrow(w: Wallet, inputs: seq<Input>, k: nat)
    requires k <= |inputs|
    ensures Bounded(CoinsIn(w, inputs)) ==> Bounded(CoinsIn(w, inputs[..k]))
  {
    if k == |inputs| {
      assert inputs[..k] == inputs;
    } else {
      var front, last := inputs[..|inputs| - 1], inputs[|inputs| - 1];
      BoundedPrefix(CoinsIn(w, front), [InCoin(last)] + IssuedCoins(w, last));
      assert CoinsIn(w, inputs) == CoinsIn(w, front) + ([InCoin(last)] + IssuedCoins(w, last));
      CoinsInGrow(w, front, k);
      assert front[..k] == inputs[..k];
    }
  }

  lemma InputsOkPrefix(w: Wallet, kind: Kind, confidential: bool, inputs: seq<Input>, k: nat)
    requires k <= |inputs|
    ensures InputsOk(w, kind, confidential, inputs) ==> InputsOk(w, kind, confidential, inputs[..k])
  {
    CoinsInGrow(w, inputs, k);
    hide InputOk, Bounded, CoinsIn;
  }

  lemma {:induction false} WalletInBounded(w: Wallet, inputs: seq<Input>, a: Asset)
    ensures Total(WalletCoinsIn(inputs), a) <= Total(CoinsIn(w, inputs), a)
  {
    if inputs != [] {
      var front, last := inputs[..|inputs| - 1], inputs[|inputs| - 1];
      WalletInBounded(w, front, a);
      TotalAppend(CoinsIn(w, front) + [InCoin(last)], IssuedCoins(w, last), a);
      TotalSnoc(CoinsIn(w, front), InCoin(last), a);
      TotalSnoc(WalletCoinsIn(front), InCoin(last), a);
      assert WalletCoinsIn(front) + [] == WalletCoinsIn(front);
      hide CoinsIn, IssuedCoins, InCoin;
    }
  }

  /** Adds what an input issues to the running totals. */
  method AddIssued(w: Wallet, input: Input, totalIn: map<Asset, nat>, ghost coins: seq<Coin>)
    returns (r: Result<map<Asset, nat>, ReviewError>)
    requires Tallies(totalIn, coins) && Bounded(coins)
    ensures r.Ok? <==> Bounded(coins + IssuedCoins(w, input))
    ensures r.Ok? ==> Tallies(r.value, coins + IssuedCoins(w, input))
  {
    var review := IssuanceReviewOf(w, input);
    if review.None? {
      assert coins + IssuedCoins(w, input) == coins;
      return Ok(totalIn);
    }
    var coin := Coin(review.value.asset, review.value.amount);
    r := Add(totalIn, coin, coins);
    if review.value.token.None? {
      assert IssuedCoins(w, input) == [coin];
    } else {
      var tokens := Coin(review.value.token.value, review.value.tokens);
      assert coins + IssuedCoins(w, input) == coins + [coin] + [tokens];
      BoundedPrefix(coins + [coin], [tokens]);
      if r.Ok? { r := Add(r.value, tokens, coins + [coin]); }
    }
  }

  ghost predicate OwnersGathered(inputs: seq<Input>, f: InputFacts) {
    Tallies(f.walletIn, WalletCoinsIn(inputs)) && f.signed == Outpoints(inputs, true)
        && f.foreign == Outpoints(inputs, false)
  }

  lemma OwnersSnoc(inputs: seq<Input>, input: Input, f: InputFacts, next: InputFacts)
    requires OwnersGathered(inputs, f)
    requires if IsWalletInput(input)
             then Tallies(next.walletIn, WalletCoinsIn(inputs) + [InCoin(input)])
                  && next.signed == f.signed + [input.outpoint] && next.foreign == f.foreign
             else next.walletIn == f.walletIn && next.signed == f.signed && next.foreign == f.foreign + [input.outpoint]
    ensures OwnersGathered(inputs + [input], next)
  {
    Snoc(inputs, input);
    assert WalletCoinsIn(inputs) + [] == WalletCoinsIn(inputs);
    assert Outpoints(inputs, true) + [] == Outpoints(inputs, true);
    assert Outpoints(inputs, false) + [] == Outpoints(inputs, false);
    hide Tallies, InCoin;
  }

  /** The wallet's part of a total that fits fits too. */
  lemma WalletInFits(w: Wallet, inputs: seq<Input>, coin: Coin)
    requires Bounded(CoinsIn(w, inputs) + [coin])
    ensures Bounded(WalletCoinsIn(inputs)) && Bounded(WalletCoinsIn(inputs) + [coin])
  {
    forall a
      ensures Total(WalletCoinsIn(inputs), a) <= Total(WalletCoinsIn(inputs) + [coin], a) <= MAX_U64
    {
      WalletInBounded(w, inputs, a);
      TotalSnoc(WalletCoinsIn(inputs), coin, a);
      TotalSnoc(CoinsIn(w, inputs), coin, a);
    }
  }

  method ScanOwner(w: Wallet, kind: Kind, input: Input, f: InputFacts, ghost inputs: seq<Input>)
    returns (r: Result<InputFacts, ReviewError>)
    requires OwnersGathered(inputs, f) && Bounded(CoinsIn(w, inputs) + [InCoin(input)])
    requires input.asset.Some? && input.amount.Some?
    ensures r.Ok? <==> OwnerOk(kind, input)
    ensures r.Ok? ==> OwnersGathered(inputs + [input], r.value)
    ensures r.Ok? ==> r.value.seen == f.seen && r.value.issuance == f.issuance
  {
    if IsWalletInput(input) {
      if !ClaimedByWallet(input) { return Err(InvalidPset); }
      if input.final.Some? || input.sighash != Some(SighashOf(kind)) { return Err(InvalidPset); }
      WalletInFits(w, inputs, InCoin(input));
      hide *;
      var walletIn := Add(f.walletIn, Coin(input.asset.value, input.amount.value), WalletCoinsIn(inputs));
      r := Ok(f.(walletIn := walletIn.value, signed := f.signed + [input.outpoint]));
    } else {
      if !kind.SwapTake? || input.sighash.Some? || input.final.None? { return Err(InvalidPset); }
      r := Ok(f.(foreign := f.foreign + [input.outpoint]));
    }
    OwnersSnoc(inputs, input, f, r.value);
  }

  lemma GatheredSnoc(w: Wallet, inputs: seq<Input>, input: Input, f: InputFacts, next: InputFacts)
    requires Gathered(w, inputs, f) && OwnersGathered(inputs + [input], next)
    requires next.seen == f.seen + {input.outpoint}
    requires Tallies(next.totalIn, CoinsIn(w, inputs) + [InCoin(input)] + IssuedCoins(w, input))
    requires next.issuance == (if inputs == [] then IssuanceReviewOf(w, input) else f.issuance)
    ensures Gathered(w, inputs + [input], next)
  {
    var all := inputs + [input];
    Snoc(inputs, input);
    assert CoinsIn(w, all) == CoinsIn(w, inputs) + [InCoin(input)] + IssuedCoins(w, input);
    hide CoinsIn, IssuedCoins, InCoin, Tallies, IssuanceReviewOf;
    assert forall i :: 0 <= i < |inputs| ==> all[i] == inputs[i];
    assert all[|inputs|] == input && all[0] == if inputs == [] then input else inputs[0];
    SeenSnoc(inputs, input);
  }

  lemma SeenSnoc(inputs: seq<Input>, input: Input)
    ensures var all := inputs + [input];
            (set i | 0 <= i < |all| :: all[i].outpoint)
                == (set i | 0 <= i < |inputs| :: inputs[i].outpoint) + {input.outpoint}
  {
    var all := inputs + [input];
    var old_, new_ := (set i | 0 <= i < |inputs| :: inputs[i].outpoint), (set i | 0 <= i < |all| :: all[i].outpoint);
    forall o
      ensures o in new_ <==> o in old_ || o == input.outpoint
    {
      if o in old_ {
        var i :| 0 <= i < |inputs| && inputs[i].outpoint == o;
        assert all[i].outpoint == o;
      }
      assert all[|inputs|] == input;
    }
  }

  /** The checks on the spent coin of one input. */
  method ScanCoin(input: Input, confidential: bool) returns (r: Result<Coin, ReviewError>)
    ensures r.Ok? <==> CoinOk(input, confidential)
    ensures r.Ok? ==> r.value == InCoin(input)
  {
    if !PlainInput(input) || input.prevout.None? { return Err(InvalidPset); }
    var proven := ProvenCoin(input, confidential);
    if proven.None? { return Err(InvalidPset); }
    var Coin(asset, value) := proven.value;
    if input.asset != Some(asset) || input.amount != Some(value) || value == 0 || value > MAX_MONEY
      || !input.prevout.value.script.P2wpkh? || !input.cleanPrevout
    {
      return Err(InvalidPset);
    }
    r := Ok(proven.value);
  }

  /** One round of the input loop. */
  method ScanInput(w: Wallet, kind: Kind, confidential: bool, input: Input, first: bool, f: InputFacts,
      ghost inputs: seq<Input>)
    returns (r: Result<InputFacts, ReviewError>)
    requires InputsOk(w, kind, confidential, inputs) && Gathered(w, inputs, f) && first == (inputs == [])
    ensures r.Ok? <==> NextInputOk(w, kind, confidential, inputs, input)
    ensures r.Ok? ==> Gathered(w, inputs + [input], r.value)
  {
    ghost var coins := CoinsIn(w, inputs);
    ScanFacts(w, kind, confidential, input, f, inputs);
    IssuanceFacts(w, kind, input, inputs);
    hide *;
    if input.outpoint in f.seen { return Err(DuplicateUtxo); }
    var coin := ScanCoin(input, confidential);
    if coin.Err? { return Err(coin.error); }
    var totalIn := Add(f.totalIn, coin.value, coins);
    if totalIn.Err? { return Err(totalIn.error); }
    var owner := ScanOwner(w, kind, input, f, inputs);
    if owner.Err? { return Err(owner.error); }
    var issuance := f.issuance;
    if input.issuance.FullIssuance? {
      if !IssuanceOk(kind, input, first) { return Err(InvalidPset); }
      issuance := IssuanceReviewOf(w, input);
    }
    totalIn := AddIssued(w, input, totalIn.value, coins + [InCoin(input)]);
    if totalIn.Err? { return Err(totalIn.error); }
    r := Ok(owner.value.(seen := f.seen + {input.outpoint}, totalIn := totalIn.value, issuance := issuance));
    GatheredSnoc(w, inputs, input, f, r.value);
  }

  lemma ScanFacts(w: Wallet, kind: Kind, confidential: bool, input: Input, f: InputFacts, inputs: seq<Input>)
    requires InputsOk(w, kind, confidential, inputs) && Gathered(w, inputs, f)
    ensures var coins := CoinsIn(w, inputs);
            && Tallies(f.totalIn, coins) && Bounded(coins) && OwnersGathered(inputs, f)
            && (Bounded(coins + [InCoin(input)] + IssuedCoins(w, input)) ==> Bounded(coins + [InCoin(input)]))
    ensures NextInputOk(w, kind, confidential, inputs, input) <==>
            && input.outpoint !in f.seen && CoinOk(input, confidential) && OwnerOk(kind, input)
            && IssuanceOk(kind, input, inputs == [])
                && Bounded(CoinsIn(w, inputs) + [InCoin(input)] + IssuedCoins(w, input))
    ensures CoinOk(input, confidential) ==> input.asset.Some? && input.amount.Some?
  {
    BoundedPrefix(CoinsIn(w, inputs) + [InCoin(input)], IssuedCoins(w, input));
    hide Bounded, OwnerOk, IssuanceOk, CoinsIn, IssuedCoins, InCoin, PlainInput, ProvenCoin, Tallies;
    assert input.outpoint in f.seen <==> exists i :: 0 <= i < |inputs| && inputs[i].outpoint == input.outpoint;
  }

  lemma IssuanceFacts(w: Wallet, kind: Kind, input: Input, inputs: seq<Input>)
    ensures !input.issuance.FullIssuance? ==> IssuanceReviewOf(w, input).None? && IssuanceOk(kind, input, inputs == [])
    ensures input.issuance.FullIssuance? && inputs != [] ==> !IssuanceOk(kind, input, inputs == [])
    ensures inputs == [] ==> IssuanceOfTx(w, inputs) == None
  {}

  lemma NothingGathered(w: Wallet, kind: Kind, confidential: bool)
    ensures InputsOk(w, kind, confidential, []) && Gathered(w, [], InputFacts({}, map[], map[], [], [], None))
  {}

  method ScanInputs(w: Wallet, kind: Kind, confidential: bool, inputs: seq<Input>)
      returns (r: Result<InputFacts, ReviewError>)
    ensures r.Ok? <==> InputsOk(w, kind, confidential, inputs)
    ensures r.Ok? ==> Gathered(w, inputs, r.value)
  {
    NothingGathered(w, kind, confidential);
    hide *;
    var f := InputFacts({}, map[], map[], [], [], None);
    assert inputs[..0] == [];
    for i := 0 to |inputs|
      invariant InputsOk(w, kind, confidential, inputs[..i]) && Gathered(w, inputs[..i], f)
    {
      assert inputs[..i + 1] == inputs[..i] + [inputs[i]];
      InputsOkSnoc(w, kind, confidential, inputs[..i], inputs[i]);
      InputsOkPrefix(w, kind, confidential, inputs, i + 1);
      var next := ScanInput(w, kind, confidential, inputs[i], i == 0, f, inputs[..i]);
      if next.Err? { return next; }
      f := next.value;
    }
    assert inputs[..|inputs|] == inputs;
    r := Ok(f);
  }

  // ---- Outputs --------------------------------------------------------------------------------------

  datatype OutputFacts = OutputFacts(
    totalOut: map<Asset, nat>, walletOut: map<Asset, nat>, external: seq<ExternalOutput>, fee: nat, feeOutputs: nat)

  ghost predicate Collected(outputs: seq<Output>, f: OutputFacts) {
    && Tallies(f.totalOut, CoinsOut(outputs)) && Tallies(f.walletOut, WalletCoinsOut(outputs))
    && f.external == ExternalOutputs(outputs) && f.fee == FeeOf(outputs) && f.feeOutputs == FeeOutputs(outputs)
  }

  ghost predicate NextOutputOk(w: Wallet, outputs: seq<Output>, count: nat, inputs: nat, output: Output) {
    OutputOk(w, output, |outputs| + 1 == count, inputs) && Bounded(CoinsOut(outputs) + [OutCoin(output)])
  }

  lemma OutputsOkSnoc(w: Wallet, outputs: seq<Output>, count: nat, inputs: nat, output: Output)
    requires OutputsOk(w, outputs, count, inputs)
    ensures OutputsOk(w, outputs + [output], count, inputs) <==> NextOutputOk(w, outputs, count, inputs, output)
  {
    var all := outputs + [output];
    Snoc(outputs, output);
    hide OutputOk, OutCoin, Bounded;
    assert forall v :: 0 <= v < |outputs| ==> all[v] == outputs[v];
    assert all[|outputs|] == output;
  }

  lemma {:induction false} OutputsOkPrefix(w: Wallet, outputs: seq<Output>, count: nat, inputs: nat, k: nat)
    requires k <= |outputs|
    ensures OutputsOk(w, outputs, count, inputs) ==> OutputsOk(w, outputs[..k], count, inputs)
  {
    if k == |outputs| {
      assert outputs[..k] == outputs;
    } else {
      var front, last := outputs[..|outputs| - 1], outputs[|outputs| - 1];
      OutputsOkPrefix(w, front, count, inputs, k);
      BoundedPrefix(CoinsOut(front), [OutCoin(last)]);
      assert front[..k] == outputs[..k];
      hide OutputOk, Bounded, OutCoin;
    }
  }

  lemma {:induction false} WalletOutBounded(outputs: seq<Output>, a: Asset)
    ensures Total(WalletCoinsOut(outputs), a) <= Total(CoinsOut(outputs), a)
  {
    if outputs != [] {
      var front, last := outputs[..|outputs| - 1], outputs[|outputs| - 1];
      WalletOutBounded(front, a);
      TotalSnoc(CoinsOut(front), OutCoin(last), a);
      TotalSnoc(WalletCoinsOut(front), OutCoin(last), a);
      assert WalletCoinsOut(front) + [] == WalletCoinsOut(front);
      hide CoinsOut, OutCoin;
    }
  }

  lemma WalletOutFits(outputs: seq<Output>, coin: Coin)
    requires Bounded(CoinsOut(outputs) + [coin])
    ensures Bounded(WalletCoinsOut(outputs)) && Bounded(WalletCoinsOut(outputs) + [coin])
  {
    forall a
      ensures Total(WalletCoinsOut(outputs), a) <= Total(WalletCoinsOut(outputs) + [coin], a) <= MAX_U64
    {
      WalletOutBounded(outputs, a);
      TotalSnoc(WalletCoinsOut(outputs), coin, a);
      TotalSnoc(CoinsOut(outputs), coin, a);
    }
  }

  /** The checks on the amount and the proofs of one output. */
  method ScanAmount(output: Output, inputs: nat) returns (r: Result<Coin, ReviewError>)
    ensures r.Ok? <==> AmountOk(output, inputs)
    ensures r.Ok? ==> r.value == OutCoin(output)
  {
    if !output.plain || output.asset.None? || output.amount.None? { return Err(InvalidPset); }
    match output.blinding {
      case NotBlinded =>
      case Blinded(proven, _, blinderIndex, _, _) =>
        if !proven || output.script.Empty? || blinderIndex.None?
            || blinderIndex.value >= inputs { return Err(InvalidPset); }
    }
    var amount := output.amount.value;
    if amount == 0 || amount > MAX_MONEY { return Err(InvalidPset); }
    r := Ok(Coin(output.asset.value, amount));
  }

  /** `next` adds one output to everything in `f` but the running total. */
  ghost predicate Sorted(outputs: seq<Output>, output: Output, f: OutputFacts, next: OutputFacts) {
    if output.script == Empty
    then next.external == f.external && next.walletOut == f.walletOut
         && next.fee == output.amount.GetOr(0) && next.feeOutputs == f.feeOutputs + 1
    else next.fee == f.fee && next.feeOutputs == f.feeOutputs
         && if IsWalletOutput(output)
            then next.external == f.external && Tallies(next.walletOut, WalletCoinsOut(outputs) + [OutCoin(output)])
            else next.external == f.external + [ExternalOf(output)] && next.walletOut == f.walletOut
  }

  lemma CollectedSnoc(outputs: seq<Output>, output: Output, f: OutputFacts, next: OutputFacts)
    requires Collected(outputs, f) && f.fee == 0 && Sorted(outputs, output, f, next)
    requires Tallies(next.totalOut, CoinsOut(outputs) + [OutCoin(output)])
    ensures Collected(outputs + [output], next)
  {
    Snoc(outputs, output);
    assert WalletCoinsOut(outputs) + [] == WalletCoinsOut(outputs);
    assert ExternalOutputs(outputs) + [] == ExternalOutputs(outputs);
    hide Tallies, OutCoin, ExternalOf, IsWalletOutput;
  }

  /** Sorts one output into fee, own or external. */
  method ScanRecipient(w: Wallet, output: Output, last: bool, f: OutputFacts, ghost outputs: seq<Output>)
    returns (r: Result<OutputFacts, ReviewError>)
    requires output.asset.Some? && output.amount.Some?
    requires Tallies(f.walletOut, WalletCoinsOut(outputs)) && Bounded(CoinsOut(outputs) + [OutCoin(output)])
    ensures r.Ok? <==> RecipientOk(w, output, last)
    ensures r.Ok? ==> Sorted(outputs, output, f, r.value) && r.value.totalOut == f.totalOut
  {
    WalletOutFits(outputs, OutCoin(output));
    hide WalletCoinsOut, CoinsOut, Bounded, Tallies;
    if output.script.Empty? {
      if output.asset.value != w.policy || !last { return Err(InvalidPset); }
      r := Ok(f.(fee := output.amount.value, feeOutputs := f.feeOutputs + 1));
    } else if IsWalletOutput(output) {
      if output.blinding.Blinded? && Unblinded(w, output) != Some(OutCoin(output)) { return Err(InvalidPset); }
      // the wallet's part of a total that fits fits too
      var walletOut := Add(f.walletOut, OutCoin(output), WalletCoinsOut(outputs));
      r := Ok(f.(walletOut := walletOut.value));
    } else {
      if !HasAddress(output.script) { return Err(InvalidPset); }
      r := Ok(f.(external := f.external + [ExternalOf(output)]));
    }
  }

  lemma ScanOutputFacts(w: Wallet, outputs: seq<Output>, count: nat, inputs: nat, output: Output, f: OutputFacts)
    requires OutputsOk(w, outputs, count, inputs) && Collected(outputs, f) && |outputs| < count
    ensures Tallies(f.totalOut, CoinsOut(outputs)) && Tallies(f.walletOut, WalletCoinsOut(outputs))
    ensures Bounded(CoinsOut(outputs)) && f.fee == 0
    ensures NextOutputOk(w, outputs, count, inputs, output) <==>
            && AmountOk(output, inputs) && RecipientOk(w, output, |outputs| + 1 == count)
            && Bounded(CoinsOut(outputs) + [OutCoin(output)])
    ensures AmountOk(output, inputs) ==> output.asset.Some? && output.amount.Some?
  {
    hide Bounded, Tallies;
    if outputs != [] {
      assert OutputOk(w, outputs[|outputs| - 1], |outputs| == count, inputs);
    }
  }

  /** One round of the output loop. */
  method ScanOutput(w: Wallet, output: Output, v: nat, count: nat, inputs: nat, f: OutputFacts,
      ghost outputs: seq<Output>)
    returns (r: Result<OutputFacts, ReviewError>)
    requires OutputsOk(w, outputs, count, inputs) && Collected(outputs, f) && v == |outputs| < count
    ensures r.Ok? <==> NextOutputOk(w, outputs, count, inputs, output)
    ensures r.Ok? ==> Collected(outputs + [output], r.value)
  {
    ScanOutputFacts(w, outputs, count, inputs, output, f);
    hide *;
    var coin := ScanAmount(output, inputs);
    if coin.Err? { return Err(coin.error); }
    var totalOut := Add(f.totalOut, coin.value, CoinsOut(outputs));
    if totalOut.Err? { return Err(totalOut.error); }
    r := ScanRecipient(w, output, v + 1 == count, f.(totalOut := totalOut.value), outputs);
    if r.Ok? { SortedSame(outputs, output, f, totalOut.value, r.value); }
  }

  lemma SortedSame(outputs: seq<Output>, output: Output, f: OutputFacts, totalOut: map<Asset, nat>, next: OutputFacts)
    requires Collected(outputs, f) && f.fee == 0 && Sorted(outputs, output, f.(totalOut := totalOut), next)
    requires next.totalOut == totalOut && Tallies(totalOut, CoinsOut(outputs) + [OutCoin(output)])
    ensures Collected(outputs + [output], next)
  {
    hide Tallies, Collected, OutCoin, CoinsOut, IsWalletOutput;
    CollectedSnoc(outputs, output, f, next);
  }

  lemma NothingCollected(w: Wallet, count: nat, inputs: nat)
    ensures OutputsOk(w, [], count, inputs) && Collected([], OutputFacts(map[], map[], [], 0, 0))
  {}

  method ScanOutputs(w: Wallet, outputs: seq<Output>, inputs: nat) returns (r: Result<OutputFacts, ReviewError>)
    ensures r.Ok? <==> OutputsOk(w, outputs, |outputs|, inputs)
    ensures r.Ok? ==> Collected(outputs, r.value)
  {
    NothingCollected(w, |outputs|, inputs);
    hide *;
    var f := OutputFacts(map[], map[], [], 0, 0);
    assert outputs[..0] == [];
    for v := 0 to |outputs|
      invariant OutputsOk(w, outputs[..v], |outputs|, inputs) && Collected(outputs[..v], f)
    {
      assert outputs[..v + 1] == outputs[..v] + [outputs[v]];
      OutputsOkSnoc(w, outputs[..v], |outputs|, inputs, outputs[v]);
      OutputsOkPrefix(w, outputs, |outputs|, inputs, v + 1);
      var next := ScanOutput(w, outputs[v], v, |outputs|, inputs, f, outputs[..v]);
      if next.Err? { return next; }
      f := next.value;
    }
    assert outputs[..|outputs|] == outputs;
    r := Ok(f);
  }

  // ---- Conservation, structure and net effect ---------------------------------------------------------

  /** Compares every asset either side mentions. */
  method Balances(totalIn: map<Asset, nat>, totalOut: map<Asset, nat>) returns (ok: bool)
    ensures ok <==> forall a :: Get(totalIn, a) == Get(totalOut, a)
  {
    var assets := totalIn.Keys + totalOut.Keys;
    while assets != {}
      invariant assets <= totalIn.Keys + totalOut.Keys
      invariant forall a :: a !in assets ==> Get(totalIn, a) == Get(totalOut, a)
    {
      var a :| a in assets;
      if Get(totalIn, a) != Get(totalOut, a) { return false; }
      assets := assets - {a};
    }
    ok := true;
  }

  /** The maker inputs come first, unsigned by us, each paired with its signed output. */
  method MakersOk(tx: Transaction, foreign: nat) returns (ok: bool)
    requires foreign <= |tx.inputs|
    ensures ok <==> MakersFirst(tx, foreign)
  {
    for i := 0 to foreign
      invariant forall j :: 0 <= j < i ==> !IsWalletInput(tx.inputs[j])
    {
      if IsWalletInput(tx.inputs[i]) { return false; }
    }
    if |tx.outputs| <= foreign { return false; }
    for i := 0 to foreign
      invariant forall j :: 0 <= j < i ==> tx.outputs[j].derivations == [] && tx.outputs[j].script != Empty
    {
      if tx.outputs[i].derivations != [] || tx.outputs[i].script.Empty? { return false; }
    }
    hide IsWalletInput, MakerSigned;
    for i := 0 to foreign
      invariant forall j :: 0 <= j < i ==> MakerSigned(tx, j)
    {
      if !MakerSigned(tx, i) { return false; }
    }
    ok := true;
  }

  lemma {:induction false} OwnersCount(inputs: seq<Input>)
    ensures |Outpoints(inputs, true)| + |Outpoints(inputs, false)| == |inputs|
  {
    if inputs != [] { OwnersCount(inputs[..|inputs| - 1]); }
  }

  method CheckKind(w: Wallet, tx: Transaction, kind: Kind, ins: InputFacts, outs: OutputFacts) returns (ok: bool)
    requires Gathered(w, tx.inputs, ins) && Collected(tx.outputs, outs)
    ensures ok <==> KindOk(w, tx, kind)
  {
    OwnersCount(tx.inputs);
    hide Tallies, Outpoints, ExternalOutputs, FeeOutputs, IssuanceOfTx, MakersFirst, CoinsIn, CoinsOut, WalletCoinsIn,
        WalletCoinsOut;
    var walletInputs, foreign := |ins.signed|, |ins.foreign|;
    match kind {
      case Transfer => ok := outs.external != [] && ins.issuance.None?;
      case OfferSplit => ok := outs.external == [] && ins.issuance.None?;
      case Cancel => ok := outs.external == [] && ins.issuance.None?;
      case Issuance => ok := ins.issuance.Some?;
      case SwapOffer =>
        if |tx.inputs| != 1 || |tx.outputs| != 1 || walletInputs != 1 || outs.feeOutputs != 0 || outs.external != [] {
          return false;
        }
        ok := tx.inputs[0].asset != tx.outputs[0].asset;
      case SwapTake =>
        if foreign == 0 || ins.issuance.Some? { return false; }
        ok := MakersOk(tx, foreign);
    }
  }

  /** Every asset the wallet moves, with its signed net change, the fee added back. */
  method NetEffect(walletIn: map<Asset, nat>, walletOut: map<Asset, nat>, fee: nat, policy: Asset)
      returns (changes: map<Asset, int>)
    ensures forall a :: a in changes <==> Net(walletIn, walletOut, fee, policy, a) != 0
    ensures forall a :: a in changes ==> changes[a] == Net(walletIn, walletOut, fee, policy, a)
  {
    var deltas: map<Asset, int> := map[];
    var left := walletOut.Keys;
    while left != {}
      invariant left <= walletOut.Keys && deltas.Keys == walletOut.Keys - left
      invariant forall a :: a in deltas ==> deltas[a] == Get(walletOut, a)
    {
      var a :| a in left;
      deltas := deltas[a := walletOut[a]];
      left := left - {a};
    }
    left := walletIn.Keys;
    while left != {}
      invariant left <= walletIn.Keys && deltas.Keys == walletOut.Keys + (walletIn.Keys - left)
      invariant forall a :: a in deltas ==>
                  deltas[a] == Get(walletOut, a) - (if a in left then 0 else Get(walletIn, a))
    {
      var a :| a in left;
      deltas := deltas[a := (if a in deltas then deltas[a] else 0) - walletIn[a]];
      left := left - {a};
    }
    if fee > 0 {
      deltas := deltas[policy := (if policy in deltas then deltas[policy] else 0) + fee];
    }
    changes := map a | a in deltas && deltas[a] != 0 :: deltas[a];
  }

  function Net(walletIn: map<Asset, nat>, walletOut: map<Asset, nat>, fee: nat, policy: Asset, a: Asset): int {
    Get(walletOut, a) - Get(walletIn, a) + (if a == policy then fee else 0)
  }

  // ---- The analysis -----------------------------------------------------------------------------------------

  method AnyConfidential(tx: Transaction) returns (confidential: bool)
    ensures confidential == TxConfidential(tx)
  {
    for i := 0 to |tx.inputs|
      invariant forall j :: 0 <= j < i ==> !InputConfidential(tx.inputs[j])
    {
      if InputConfidential(tx.inputs[i]) { return true; }
    }
    for v := 0 to |tx.outputs|
      invariant forall j :: 0 <= j < v ==> !tx.outputs[j].blinding.Blinded?
    {
      if tx.outputs[v].blinding.Blinded? { return true; }
    }
    confidential := false;
  }

  /** Recomputes the review of a transaction under the structural rules of `kind`. */
  method Analyze(w: Wallet, tx: Transaction, kind: Kind) returns (r: Result<TxReview, ReviewError>)
    ensures r.Ok? <==> Accepts(w, tx, kind)
    ensures r.Ok? ==> Describes(w, tx, kind, r.value)
  {
    hide *;
    AcceptsIs(w, tx, kind);
    if !tx.plainGlobals || tx.genesis != Some(w.genesis) { return Err(InvalidPset); }
    var confidential := AnyConfidential(tx);
    if confidential && (kind.SwapOffer? || kind.SwapTake?) { return Err(InvalidPset); }
    if !tx.standard || tx.inputs == [] || tx.outputs == [] { return Err(InvalidPset); }
    if |tx.inputs| > 256 || |tx.outputs| > 256 { return Err(InvalidPset); }
    var ins := ScanInputs(w, kind, confidential, tx.inputs);
    if ins.Err? { return Err(ins.error); }
    var outs := ScanOutputs(w, tx.outputs, |tx.inputs|);
    if outs.Err? { return Err(outs.error); }
    if confidential && !tx.amountProofs { return Err(InvalidPset); }
    FactsAre(w, tx, ins.value, outs.value);
    if !kind.SwapOffer? {
      if outs.value.feeOutputs != 1 { return Err(InvalidPset); }
      var balanced := Balances(ins.value.totalIn, outs.value.totalOut);
      if !balanced { return Err(InvalidPset); }
    }
    var structured := CheckKind(w, tx, kind, ins.value, outs.value);
    if !structured || ins.value.signed == [] { return Err(InvalidPset); }
    var changes := NetEffect(ins.value.walletIn, outs.value.walletOut, outs.value.fee, w.policy);
    r := Ok(TxReview(kind, w.genesis, changes, outs.value.fee, outs.value.external, ins.value.signed, ins.value.foreign,
                        ins.value.issuance, SighashOf(kind), confidential));
    Described(w, tx, kind, ins.value, outs.value, r.value);
  }

  lemma AcceptsIs(w: Wallet, tx: Transaction, kind: Kind)
    ensures Accepts(w, tx, kind) <==>
            && tx.plainGlobals && tx.genesis == Some(w.genesis) && tx.standard
            && 0 < |tx.inputs| <= 256 && 0 < |tx.outputs| <= 256
            && (TxConfidential(tx) ==> !kind.SwapOffer? && !kind.SwapTake? && tx.amountProofs)
            && InputsOk(w, kind, TxConfidential(tx), tx.inputs)
            && OutputsOk(w, tx.outputs, |tx.outputs|, |tx.inputs|)
            && (!kind.SwapOffer? ==> FeeOutputs(tx.outputs) == 1 && Conserves(w, tx))
            && KindOk(w, tx, kind) && Outpoints(tx.inputs, true) != []
  {
    hide InputsOk, OutputsOk, Conserves, KindOk, TxConfidential, FeeOutputs, Outpoints;
  }

  lemma FactsAre(w: Wallet, tx: Transaction, ins: InputFacts, outs: OutputFacts)
    requires Gathered(w, tx.inputs, ins) && Collected(tx.outputs, outs)
    ensures outs.feeOutputs == FeeOutputs(tx.outputs) && ins.signed == Outpoints(tx.inputs, true)
    ensures Conserves(w, tx) <==> forall a :: Get(ins.totalIn, a) == Get(outs.totalOut, a)
  {
    hide CoinsIn, CoinsOut, WalletCoinsIn, WalletCoinsOut, Outpoints, FeeOutputs, Get;
  }

  lemma Described(w: Wallet, tx: Transaction, kind: Kind, ins: InputFacts, outs: OutputFacts, r: TxReview)
    requires Gathered(w, tx.inputs, ins) && Collected(tx.outputs, outs)
    requires forall a :: a in r.changes <==> Net(ins.walletIn, outs.walletOut, outs.fee, w.policy, a) != 0
    requires forall a :: a in r.changes ==> r.changes[a] == Net(ins.walletIn, outs.walletOut, outs.fee, w.policy, a)
    requires r == TxReview(kind, w.genesis, r.changes, outs.fee, outs.external, ins.signed, ins.foreign, ins.issuance,
                              SighashOf(kind), TxConfidential(tx))
    ensures Describes(w, tx, kind, r)
  {
    forall a
      ensures Net(ins.walletIn, outs.walletOut, outs.fee, w.policy, a) == Delta(w, tx, a)
    {
      hide CoinsIn, CoinsOut, WalletCoinsIn, WalletCoinsOut, Outpoints, FeeOutputs, ExternalOutputs, IssuanceOfTx,
          FeeOf;
    }
    hide Gathered, Collected, Net, Delta, TxConfidential;
  }
}
