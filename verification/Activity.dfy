/** The activity ledger: what each transaction did to the wallet, and how it adds up. */
module Activity {
  import opened Common
  import opened Coins

  /** An output as the explorer reports it; `known` is missing when it is confidential. */
  datatype Output = Output(script: nat, fee: bool, known: Option<Coin>)

  /** `prevout` is missing for coinbase and unknown inputs. */
  datatype Input = Input(outpoint: OutPoint, prevout: Option<Output>)

  datatype Tx = Tx(txid: nat, inputs: seq<Input>, outputs: seq<Output>)

  /** The wallet's scripts, its policy asset, and what it unblinded itself. */
  datatype View = View(scripts: set<nat>, policy: Asset, unblinded: map<OutPoint, Coin>)

  datatype Entry = Entry(deltas: map<Asset, int>, fee: Option<nat>, complete: bool)

  function AmountOfOutput(v: View, output: Output, o: OutPoint): Option<Coin> {
    if output.known.Some? then output.known else if o in v.unblinded then Some(v.unblinded[o]) else None
  }

  predicate OwnInput(v: View, input: Input) {
    input.prevout.Some? && input.prevout.value.script in v.scripts
  }

  predicate OwnOutput(v: View, output: Output) {
    !output.fee && output.script in v.scripts
  }

  // ---- Coins of one transaction ----------------------------------------------------------------

  /** What the wallet's inputs spend, as far as it is known. */
  function Spent(v: View, inputs: seq<Input>): seq<Coin> {
    if inputs == [] then []
    else
      var last := inputs[|inputs| - 1];
      Spent(v, inputs[..|inputs| - 1])
      + (if OwnInput(v, last) then Listed(AmountOfOutput(v, last.prevout.value, last.outpoint)) else [])
  }

  function Listed(coin: Option<Coin>): seq<Coin> {
    if coin.Some? then [coin.value] else []
  }

  /** What its outputs, numbered from `from`, receive. */
  function Received(v: View, txid: nat, outputs: seq<Output>): seq<Coin> {
    if outputs == [] then []
    else
      var n := |outputs| - 1;
      Received(v, txid, outputs[..n])
      + (if OwnOutput(v, outputs[n]) then Listed(AmountOfOutput(v, outputs[n], OutPoint(txid, n))) else [])
  }

  function FeeOf(v: View, outputs: seq<Output>): nat {
    if outputs == [] then 0
    else
      var last := outputs[|outputs| - 1];
      FeeOf(v, outputs[..|outputs| - 1])
      + (if last.fee && last.known.Some? && last.known.value.asset == v.policy then last.known.value.amount else 0)
  }

  predicate AllOwn(v: View, inputs: seq<Input>) {
    inputs != [] && forall i :: 0 <= i < |inputs| ==> OwnInput(v, inputs[i])
  }

  /** Every own amount of the transaction is known. */
  predicate Known(v: View, tx: Tx) {
    && KnownUpTo(v, tx.inputs, |tx.inputs|)
    && (forall n :: 0 <= n < |tx.outputs| ==> OutputKnown(v, tx.outputs[n], OutPoint(tx.txid, n)))
  }

  /** The wallet's net change of an asset, a fee it paid alone added back. */
  function Delta(v: View, tx: Tx, a: Asset): int {
    Total(Received(v, tx.txid, tx.outputs), a) - Total(Spent(v, tx.inputs), a)
    + (if AllOwn(v, tx.inputs) && a == v.policy then FeeOf(v, tx.outputs) else 0)
  }

  // ---- One entry -----------------------------------------------------------------------------------

  function GetInt(m: map<Asset, int>, a: Asset): int {
    if a in m then m[a] else 0
  }

  ghost predicate Tallies(m: map<Asset, int>, plus: seq<Coin>, minus: seq<Coin>) {
    forall a :: GetInt(m, a) == Total(plus, a) - Total(minus, a)
  }

  lemma TalliesPlus(m: map<Asset, int>, plus: seq<Coin>, minus: seq<Coin>, coin: Coin)
    requires Tallies(m, plus, minus)
    ensures Tallies(m[coin.asset := GetInt(m, coin.asset) + coin.amount], plus + [coin], minus)
  {
    forall a
      ensures Total(plus + [coin], a) == Total(plus, a) + AmountOf(coin, a)
    {
      TotalSnoc(plus, coin, a);
    }
    hide Total;
  }

  lemma TalliesMinus(m: map<Asset, int>, plus: seq<Coin>, minus: seq<Coin>, coin: Coin)
    requires Tallies(m, plus, minus)
    ensures Tallies(m[coin.asset := GetInt(m, coin.asset) - coin.amount], plus, minus + [coin])
  {
    forall a
      ensures Total(minus + [coin], a) == Total(minus, a) + AmountOf(coin, a)
    {
      TotalSnoc(minus, coin, a);
    }
    hide Total;
  }

  /** What is known of an own input's or output's amount. */
  function InputAmount(v: View, input: Input): Option<Coin>
    requires OwnInput(v, input)
  {
    AmountOfOutput(v, input.prevout.value, input.outpoint)
  }

  lemma SpentSnoc(v: View, inputs: seq<Input>, i: nat)
    requires i < |inputs|
    ensures Spent(v, inputs[..i + 1])
        == Spent(v, inputs[..i]) + (if OwnInput(v, inputs[i]) then Listed(InputAmount(v, inputs[i])) else [])
  {
    assert inputs[..i + 1][..i] == inputs[..i];
    hide AmountOfOutput;
  }

  lemma ReceivedSnoc(v: View, txid: nat, outputs: seq<Output>, n: nat)
    requires n < |outputs|
    ensures Received(v, txid, outputs[..n + 1])
         == Received(v, txid, outputs[..n])
            + (if OwnOutput(v, outputs[n]) then Listed(AmountOfOutput(v, outputs[n], OutPoint(txid, n))) else [])
    ensures FeeOf(v, outputs[..n + 1])
         == FeeOf(v, outputs[..n])
            + (if outputs[n].fee && outputs[n].known.Some? && outputs[n].known.value.asset == v.policy
               then outputs[n].known.value.amount else 0)
  {
    assert outputs[..n + 1][..n] == outputs[..n];
    hide AmountOfOutput;
  }

  predicate InputKnown(v: View, input: Input) {
    OwnInput(v, input) ==> InputAmount(v, input).Some?
  }

  predicate OutputKnown(v: View, output: Output, o: OutPoint) {
    OwnOutput(v, output) ==> AmountOfOutput(v, output, o).Some?
  }

  /** Subtracts one spent coin. */
  method Subtract(totals: map<Asset, int>, coin: Option<Coin>, ghost plus: seq<Coin>, ghost minus: seq<Coin>)
    returns (next: map<Asset, int>)
    requires Tallies(totals, plus, minus)
    ensures Tallies(next, plus, minus + Listed(coin))
  {
    assert minus + [] == minus;
    if coin.None? { return totals; }
    TalliesMinus(totals, plus, minus, coin.value);
    next := totals[coin.value.asset := GetInt(totals, coin.value.asset) - coin.value.amount];
  }

  method AddReceived(totals: map<Asset, int>, coin: Option<Coin>, ghost plus: seq<Coin>, ghost minus: seq<Coin>)
    returns (next: map<Asset, int>)
    requires Tallies(totals, plus, minus)
    ensures Tallies(next, plus + Listed(coin), minus)
  {
    assert plus + [] == plus;
    if coin.None? { return totals; }
    TalliesPlus(totals, plus, minus, coin.value);
    next := totals[coin.value.asset := GetInt(totals, coin.value.asset) + coin.value.amount];
  }

  lemma InputKnownIs(v: View, input: Input)
    ensures InputKnown(v, input) <==> OwnInput(v, input) ==> InputAmount(v, input).Some?
  {}

  predicate OwnUpTo(v: View, inputs: seq<Input>, i: nat)
    requires i <= |inputs|
  {
    forall j :: 0 <= j < i ==> OwnInput(v, inputs[j])
  }

  predicate KnownUpTo(v: View, inputs: seq<Input>, i: nat)
    requires i <= |inputs|
  {
    forall j :: 0 <= j < i ==> InputKnown(v, inputs[j])
  }

  lemma UpToNext(v: View, inputs: seq<Input>, i: nat)
    requires i < |inputs|
    ensures OwnUpTo(v, inputs, i + 1) <==> OwnUpTo(v, inputs, i) && OwnInput(v, inputs[i])
    ensures KnownUpTo(v, inputs, i + 1) <==> KnownUpTo(v, inputs, i) && InputKnown(v, inputs[i])
  {
    hide OwnInput, InputKnown;
  }

  lemma NothingScanned(v: View, inputs: seq<Input>)
    ensures Tallies(map[], [], Spent(v, [])) && OwnUpTo(v, inputs, 0) && KnownUpTo(v, inputs, 0)
    ensures OwnUpTo(v, inputs, |inputs|) && inputs != [] <==> AllOwn(v, inputs)
  {
    hide OwnInput;
  }

  method ScanInputs(v: View, tx: Tx) returns (totals: map<Asset, int>, own: nat, foreign: nat, complete: bool)
    ensures Tallies(totals, [], Spent(v, tx.inputs)) && own + foreign == |tx.inputs|
    ensures (own > 0 && foreign == 0) <==> AllOwn(v, tx.inputs)
    ensures complete <==> KnownUpTo(v, tx.inputs, |tx.inputs|)
  {
    totals, own, foreign, complete := map[], 0, 0, true;
    assert tx.inputs[..0] == [] && tx.inputs[..|tx.inputs|] == tx.inputs;
    NothingScanned(v, tx.inputs);
    hide *;
    for i := 0 to |tx.inputs|
      invariant Tallies(totals, [], Spent(v, tx.inputs[..i])) && own + foreign == i
      invariant (foreign == 0 <==> OwnUpTo(v, tx.inputs, i)) && (complete <==> KnownUpTo(v, tx.inputs, i))
    {
      var input := tx.inputs[i];
      SpentSnoc(v, tx.inputs, i);
      InputKnownIs(v, input);
      UpToNext(v, tx.inputs, i);
      assert Spent(v, tx.inputs[..i]) + [] == Spent(v, tx.inputs[..i]);
      if OwnInput(v, input) {
        own := own + 1;
        var spent := InputAmount(v, input);
        if spent.None? { complete := false; }
        totals := Subtract(totals, spent, [], Spent(v, tx.inputs[..i]));
      } else {
        foreign := foreign + 1;
      }
    }
  }

  method ScanOutputs(v: View, tx: Tx, before: map<Asset, int>, ghost spent: seq<Coin>)
    returns (totals: map<Asset, int>, fee: nat, complete: bool)
    requires Tallies(before, [], spent)
    ensures Tallies(totals, Received(v, tx.txid, tx.outputs), spent) && fee == FeeOf(v, tx.outputs)
    ensures complete <==> forall n :: 0 <= n < |tx.outputs| ==> OutputKnown(v, tx.outputs[n], OutPoint(tx.txid, n))
  {
    totals, fee, complete := before, 0, true;
    assert tx.outputs[..0] == [] && tx.outputs[..|tx.outputs|] == tx.outputs;
    hide AmountOfOutput;
    for n := 0 to |tx.outputs|
      invariant Tallies(totals, Received(v, tx.txid, tx.outputs[..n]), spent) && fee == FeeOf(v, tx.outputs[..n])
      invariant complete <==> forall m :: 0 <= m < n ==> OutputKnown(v, tx.outputs[m], OutPoint(tx.txid, m))
    {
      var output := tx.outputs[n];
      ReceivedSnoc(v, tx.txid, tx.outputs, n);
      assert Received(v, tx.txid, tx.outputs[..n]) + [] == Received(v, tx.txid, tx.outputs[..n]);
      hide Tallies, Received, Listed, FeeOf;
      if output.fee {
        if output.known.Some? && output.known.value.asset == v.policy { fee := fee + output.known.value.amount; }
      } else if output.script in v.scripts {
        var received := AmountOfOutput(v, output, OutPoint(tx.txid, n));
        if received.None? { complete := false; }
        totals := AddReceived(totals, received, Received(v, tx.txid, tx.outputs[..n]), spent);
      }
    }
  }

  /** The output spent is known and on one of these scripts. */
  predicate MetBy(input: Input, scripts: set<nat>) {
    input.prevout.Some? && input.prevout.value.script in scripts
  }

  lemma OwnershipMeans(v: View, tx: Tx)
    ensures AllOwn(v, tx.inputs) <==>
            tx.inputs != [] && forall input :: input in tx.inputs ==> MetBy(input, v.scripts)
    ensures Known(v, tx) <==>
            && (forall input :: input in tx.inputs && MetBy(input, v.scripts) ==>
                  input.prevout.value.known.Some? || input.outpoint in v.unblinded)
            && (forall n :: 0 <= n < |tx.outputs| && !tx.outputs[n].fee && tx.outputs[n].script in v.scripts ==>
                  tx.outputs[n].known.Some? || OutPoint(tx.txid, n) in v.unblinded)
  {
    forall i | 0 <= i < |tx.inputs|
      ensures tx.inputs[i] in tx.inputs
      ensures OwnInput(v, tx.inputs[i]) <==> MetBy(tx.inputs[i], v.scripts)
      ensures InputKnown(v, tx.inputs[i]) <==>
              MetBy(tx.inputs[i], v.scripts) ==>
                tx.inputs[i].prevout.value.known.Some? || tx.inputs[i].outpoint in v.unblinded
    {}
    hide OwnInput, InputKnown, MetBy;
  }

  /** Fees add up in any order, over fee outputs of known amounts of the policy asset. */
  lemma {:induction false} FeeHead(v: View, outputs: seq<Output>)
    requires outputs != []
    ensures FeeOf(v, outputs) == FeeOf(v, outputs[1..])
        + match outputs[0] {
            case Output(_, true, Some(Coin(asset, amount))) => if asset == v.policy then amount else 0
            case _ => 0
          }
  {
    var n := |outputs| - 1;
    if n > 0 {
      FeeHead(v, outputs[..n]);
      assert outputs[..n][1..] == outputs[1..][..n - 1];
    }
  }

  /** The wallet's view of one transaction. */
  method ComputeActivity(v: View, tx: Tx) returns (entry: Entry)
    ensures forall a :: (a in entry.deltas <==> Delta(v, tx, a) != 0) && GetInt(entry.deltas, a) == Delta(v, tx, a)
    ensures entry.fee == if AllOwn(v, tx.inputs) then Some(FeeOf(v, tx.outputs)) else None
    ensures entry.complete <==> Known(v, tx)
    ensures entry.fee.Some? <==>
            tx.inputs != [] && forall input :: input in tx.inputs ==> MetBy(input, v.scripts)
    ensures entry.complete <==>
            && (forall input :: input in tx.inputs && MetBy(input, v.scripts) ==>
                  input.prevout.value.known.Some? || input.outpoint in v.unblinded)
            && (forall n :: 0 <= n < |tx.outputs| && !tx.outputs[n].fee && tx.outputs[n].script in v.scripts ==>
                  tx.outputs[n].known.Some? || OutPoint(tx.txid, n) in v.unblinded)
  {
    OwnershipMeans(v, tx);
    var totals, own, foreign, knownInputs := ScanInputs(v, tx);
    var all, fee, knownOutputs := ScanOutputs(v, tx, totals, Spent(v, tx.inputs));
    var paidFee := own > 0 && foreign == 0;
    if paidFee && fee > 0 {
      all := all[v.policy := GetInt(all, v.policy) + fee];
    }
    var deltas := map a | a in all && all[a] != 0 :: all[a];
    hide Spent, Received, Total;
    entry := Entry(deltas, if paidFee then Some(fee) else None, knownInputs && knownOutputs);
  }

  // ---- A whole ledger -----------------------------------------------------------------------------------

  datatype Placed = Placed(outpoint: OutPoint, coin: Coin)

  /** The wallet's outputs of the ledger, each with its outpoint. */
  function TxOutputs(v: View, txid: nat, outputs: seq<Output>): seq<Placed> {
    if outputs == [] then []
    else
      var n := |outputs| - 1;
      var amount := AmountOfOutput(v, outputs[n], OutPoint(txid, n));
      TxOutputs(v, txid, outputs[..n])
      + (if OwnOutput(v, outputs[n]) && amount.Some? then [Placed(OutPoint(txid, n), amount.value)] else [])
  }

  function TxSpends(v: View, inputs: seq<Input>): seq<Placed> {
    if inputs == [] then []
    else
      var last := inputs[|inputs| - 1];
      TxSpends(v, inputs[..|inputs| - 1])
      + (if OwnInput(v, last) && AmountOfOutput(v, last.prevout.value, last.outpoint).Some?
         then [Placed(last.outpoint, AmountOfOutput(v, last.prevout.value, last.outpoint).value)] else [])
  }

  function AllOutputs(v: View, ledger: seq<Tx>): seq<Placed> {
    if ledger == [] then []
    else AllOutputs(v, ledger[..|ledger| - 1]) + TxOutputs(v, ledger[|ledger| - 1].txid, ledger[|ledger| - 1].outputs)
  }

  function AllSpends(v: View, ledger: seq<Tx>): seq<Placed> {
    if ledger == [] then [] else AllSpends(v, ledger[..|ledger| - 1]) + TxSpends(v, ledger[|ledger| - 1].inputs)
  }

  function CoinsOf(placed: seq<Placed>): seq<Coin> {
    seq(|placed|, i requires 0 <= i < |placed| => placed[i].coin)
  }

  predicate DistinctPlaces(placed: seq<Placed>) {
    forall i, j :: 0 <= i < j < |placed| ==> placed[i].outpoint != placed[j].outpoint
  }

  /** Each wallet output is created once and spent at most once, as it was created. */
  predicate Consistent(v: View, ledger: seq<Tx>) {
    DistinctPlaces(AllOutputs(v, ledger)) && DistinctPlaces(AllSpends(v, ledger))
    && forall p :: p in AllSpends(v, ledger) ==> p in AllOutputs(v, ledger)
  }

  /** The outputs that no spend names. */
  function Unspent(outputs: seq<Placed>, spends: seq<Placed>): seq<Placed> {
    if outputs == [] then []
    else
      var last := outputs[|outputs| - 1];
      Unspent(outputs[..|outputs| - 1], spends) + (if last in spends then [] else [last])
  }

  /** Entries' deltas less the fees this wallet paid. */
  function NetOf(v: View, ledger: seq<Tx>, a: Asset): int {
    if ledger == [] then 0
    else
      var tx := ledger[|ledger| - 1];
      NetOf(v, ledger[..|ledger| - 1], a) + Delta(v, tx, a)
      - (if AllOwn(v, tx.inputs) && a == v.policy then FeeOf(v, tx.outputs) else 0)
  }

  lemma CoinsOfAppend(left: seq<Placed>, right: seq<Placed>)
    ensures CoinsOf(left + right) == CoinsOf(left) + CoinsOf(right)
  {}

  lemma {:induction false} PlacedReceived(v: View, txid: nat, outputs: seq<Output>)
    ensures CoinsOf(TxOutputs(v, txid, outputs)) == Received(v, txid, outputs)
  {
    if outputs != [] {
      var n := |outputs| - 1;
      PlacedReceived(v, txid, outputs[..n]);
      var amount := AmountOfOutput(v, outputs[n], OutPoint(txid, n));
      CoinsOfAppend(TxOutputs(v, txid, outputs[..n]),
                    if OwnOutput(v, outputs[n]) && amount.Some? then [Placed(OutPoint(txid, n), amount.value)] else []);
      hide OwnOutput;
    }
  }

  lemma {:induction false} PlacedSpent(v: View, inputs: seq<Input>)
    ensures CoinsOf(TxSpends(v, inputs)) == Spent(v, inputs)
  {
    if inputs != [] {
      var last := inputs[|inputs| - 1];
      PlacedSpent(v, inputs[..|inputs| - 1]);
      CoinsOfAppend(TxSpends(v, inputs[..|inputs| - 1]),
                    if OwnInput(v, last) && AmountOfOutput(v, last.prevout.value, last.outpoint).Some?
                    then [Placed(last.outpoint, AmountOfOutput(v, last.prevout.value, last.outpoint).value)] else []);
    }
  }

  /** Summed over the ledger, the entries are what was received less what was spent. */
  lemma {:induction false} NetIs(v: View, ledger: seq<Tx>, a: Asset)
    ensures NetOf(v, ledger, a) == Total(CoinsOf(AllOutputs(v, ledger)), a) - Total(CoinsOf(AllSpends(v, ledger)), a)
  {
    if ledger == [] {
    } else {
      var front, tx := ledger[..|ledger| - 1], ledger[|ledger| - 1];
      NetIs(v, front, a);
      PlacedReceived(v, tx.txid, tx.outputs);
      PlacedSpent(v, tx.inputs);
      CoinsOfAppend(AllOutputs(v, front), TxOutputs(v, tx.txid, tx.outputs));
      CoinsOfAppend(AllSpends(v, front), TxSpends(v, tx.inputs));
      TotalAppend(CoinsOf(AllOutputs(v, front)), Received(v, tx.txid, tx.outputs), a);
      TotalAppend(CoinsOf(AllSpends(v, front)), Spent(v, tx.inputs), a);
      hide CoinsOf, Total, Received, Spent, TxOutputs, TxSpends, FeeOf, AllOwn;
    }
  }

  lemma {:induction false} TotalOfPlaces(left: seq<Placed>, right: seq<Placed>, a: Asset)
    requires multiset(left) == multiset(right)
    ensures Total(CoinsOf(left), a) == Total(CoinsOf(right), a)
  {
    SameSize(left, right);
    if left != [] {
      var front, last := left[..|left| - 1], left[|left| - 1];
      var i := Matching(left, right);
      var rest := right[..i] + right[i + 1..];
      Removed(left, |left| - 1, a);
      Removed(right, i, a);
      assert left[..|left| - 1] + left[|left|..] == front;
      hide CoinsOf, Total;
      TotalOfPlaces(front, rest, a);
    }
  }

  lemma SameSize(left: seq<Placed>, right: seq<Placed>)
    requires multiset(left) == multiset(right)
    ensures |left| == |right|
  {
    assert |multiset(left)| == |left| && |multiset(right)| == |right|;
  }

  /** Where the last place of one list stands in another with the same places. */
  lemma Matching(left: seq<Placed>, right: seq<Placed>) returns (i: nat)
    requires multiset(left) == multiset(right) && left != []
    ensures i < |right| && right[i] == left[|left| - 1]
    ensures multiset(left[..|left| - 1]) == multiset(right[..i] + right[i + 1..])
  {
    var last := left[|left| - 1];
    assert last in multiset(right);
    i :| 0 <= i < |right| && right[i] == last;
    WithoutOne(left, |left| - 1);
    WithoutOne(right, i);
    assert left[..|left| - 1] + left[|left|..] == left[..|left| - 1];
  }

  lemma WithoutOne(s: seq<Placed>, i: nat)
    requires i < |s|
    ensures multiset(s[..i] + s[i + 1..]) == multiset(s) - multiset{s[i]}
  {
    assert s == s[..i] + [s[i]] + s[i + 1..];
    assert multiset(s) == multiset(s[..i]) + multiset{s[i]} + multiset(s[i + 1..]);
    assert multiset(s[..i] + s[i + 1..]) == multiset(s[..i]) + multiset(s[i + 1..]);
  }

  lemma Removed(placed: seq<Placed>, i: nat, a: Asset)
    requires i < |placed|
    ensures Total(CoinsOf(placed), a) == Total(CoinsOf(placed[..i] + placed[i + 1..]), a) + AmountOf(placed[i].coin, a)
  {
    var left, right, middle := placed[..i], placed[i + 1..], [placed[i]];
    assert placed == left + middle + right;
    assert CoinsOf(middle) == [placed[i].coin];
    hide CoinsOf, Total;
    CoinsOfAppend(left + middle, right);
    CoinsOfAppend(left, middle);
    CoinsOfAppend(left, right);
    TotalAppend(CoinsOf(left) + [placed[i].coin], CoinsOf(right), a);
    TotalSnoc(CoinsOf(left), placed[i].coin, a);
    TotalAppend(CoinsOf(left), CoinsOf(right), a);
  }

  /** With distinct places, the spends and the unspent outputs are all the outputs. */
  lemma {:induction false} UnspentCounts(outputs: seq<Placed>, spends: seq<Placed>, p: Placed)
    ensures multiset(Unspent(outputs, spends))[p] == if p in spends then 0 else multiset(outputs)[p]
  {
    if outputs != [] {
      var front, last := outputs[..|outputs| - 1], outputs[|outputs| - 1];
      UnspentCounts(front, spends, p);
      assert outputs == front + [last];
    }
  }

  lemma {:induction false} CountsOnce(placed: seq<Placed>, p: Placed)
    requires DistinctPlaces(placed)
    ensures multiset(placed)[p] == if p in placed then 1 else 0
  {
    if placed != [] {
      var front, last := placed[..|placed| - 1], placed[|placed| - 1];
      assert DistinctPlaces(front);
      CountsOnce(front, p);
      assert placed == front + [last];
      assert forall i :: 0 <= i < |front| ==> front[i] != last;
    }
  }

  /** A coin the wallet can see in an output, reported or unblinded by itself. */
  predicate Seen(v: View, output: Output, o: OutPoint, coin: Coin) {
    output.script in v.scripts
    && (output.known == Some(coin) || (output.known.None? && o in v.unblinded && v.unblinded[o] == coin))
  }

  ghost predicate CreatedIn(v: View, tx: Tx, p: Placed) {
    exists n :: 0 <= n < |tx.outputs| && p.outpoint == OutPoint(tx.txid, n)
      && !tx.outputs[n].fee && Seen(v, tx.outputs[n], p.outpoint, p.coin)
  }

  ghost predicate SpentIn(v: View, tx: Tx, p: Placed) {
    exists input :: input in tx.inputs && input.outpoint == p.outpoint
      && input.prevout.Some? && Seen(v, input.prevout.value, p.outpoint, p.coin)
  }

  lemma {:induction false} OutputsListed(v: View, tx: Tx, n: nat, p: Placed)
    requires n <= |tx.outputs|
    ensures p in TxOutputs(v, tx.txid, tx.outputs[..n]) <==>
            exists i :: 0 <= i < n && p.outpoint == OutPoint(tx.txid, i)
              && !tx.outputs[i].fee && Seen(v, tx.outputs[i], p.outpoint, p.coin)
  {
    if n > 0 {
      OutputsListed(v, tx, n - 1, p);
      assert tx.outputs[..n][..n - 1] == tx.outputs[..n - 1];
    }
  }

  lemma {:induction false} SpendsListed(v: View, tx: Tx, n: nat, p: Placed)
    requires n <= |tx.inputs|
    ensures p in TxSpends(v, tx.inputs[..n]) <==>
            exists input :: input in tx.inputs[..n] && input.outpoint == p.outpoint
              && input.prevout.Some? && Seen(v, input.prevout.value, p.outpoint, p.coin)
  {
    if n > 0 {
      SpendsListed(v, tx, n - 1, p);
      assert tx.inputs[..n][..n - 1] == tx.inputs[..n - 1];
      assert tx.inputs[..n] == tx.inputs[..n - 1] + [tx.inputs[n - 1]];
    }
  }

  lemma TxListed(v: View, tx: Tx, p: Placed)
    ensures p in TxOutputs(v, tx.txid, tx.outputs) <==> CreatedIn(v, tx, p)
    ensures p in TxSpends(v, tx.inputs) <==> SpentIn(v, tx, p)
  {
    OutputsListed(v, tx, |tx.outputs|, p);
    SpendsListed(v, tx, |tx.inputs|, p);
    assert tx.outputs[..|tx.outputs|] == tx.outputs && tx.inputs[..|tx.inputs|] == tx.inputs;
    hide Seen, TxOutputs, TxSpends;
  }

  lemma {:induction false} LedgerListed(v: View, ledger: seq<Tx>, p: Placed)
    ensures p in AllOutputs(v, ledger) <==> exists tx :: tx in ledger && CreatedIn(v, tx, p)
    ensures p in AllSpends(v, ledger) <==> exists tx :: tx in ledger && SpentIn(v, tx, p)
  {
    if ledger != [] {
      var front, tx := ledger[..|ledger| - 1], ledger[|ledger| - 1];
      LedgerListed(v, front, p);
      TxListed(v, tx, p);
      assert ledger == front + [tx];
      hide CreatedIn, SpentIn, TxOutputs, TxSpends;
    }
  }

  /** What is unspent: an output on a script of the wallet, of visible amount, that no input of the ledger spends. */
  lemma UnspentMeans(v: View, ledger: seq<Tx>, p: Placed)
    ensures p in Unspent(AllOutputs(v, ledger), AllSpends(v, ledger)) <==>
            && (exists tx :: tx in ledger && CreatedIn(v, tx, p))
            && !(exists tx :: tx in ledger && SpentIn(v, tx, p))
  {
    LedgerListed(v, ledger, p);
    UnspentCounts(AllOutputs(v, ledger), AllSpends(v, ledger), p);
    hide AllOutputs, AllSpends, CreatedIn, SpentIn, Unspent;
  }

  /** Over a consistent ledger whose wallet amounts are all known, the entries less the fees paid are
      the wallet's unspent outputs. */
  lemma ActivityIsBalance(v: View, ledger: seq<Tx>, a: Asset)
    requires Consistent(v, ledger)
    ensures NetOf(v, ledger, a) == Total(CoinsOf(Unspent(AllOutputs(v, ledger), AllSpends(v, ledger))), a)
  {
    var outputs, spends := AllOutputs(v, ledger), AllSpends(v, ledger);
    var unspent := Unspent(outputs, spends);
    assert DistinctPlaces(outputs) && DistinctPlaces(spends) && forall p :: p in spends ==> p in outputs;
    hide *;
    NetIs(v, ledger, a);
    forall p
      ensures multiset(outputs)[p] == multiset(spends + unspent)[p]
    {
      UnspentCounts(outputs, spends, p);
      CountsOnce(outputs, p);
      CountsOnce(spends, p);
    }
    assert multiset(outputs) == multiset(spends + unspent);
    TotalOfPlaces(outputs, spends + unspent, a);
    CoinsOfAppend(spends, unspent);
    TotalAppend(CoinsOf(spends), CoinsOf(unspent), a);
  }
}
