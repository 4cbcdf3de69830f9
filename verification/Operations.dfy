/** What a user may ask for, and the exact-request checks on every review before it is shown or signed. */
module Operations {
  import opened Common
  import opened Coins
  import opened Pset

  const MAX_FEE_VBYTES: nat := 100_000

  datatype Operation =
    | TransferOp(asset: Asset, recipient: Address, amount: nat, feeRate: nat)
    | IssuanceOp(issued: nat, tokens: nat, feeRate: nat)
    | SwapOfferOp(giveAsset: Asset, giveAmount: nat, wantAsset: Asset, wantAmount: nat, feeRate: nat)
    | SwapTakeOp(count: nat, feeRate: nat)
    | CancelOp(outpoint: OutPoint, feeRate: nat)

  datatype DecodedOffer = DecodedOffer(
    giveAsset: Asset, giveAmount: nat, wantAsset: Asset, wantAmount: nat, outpoint: OutPoint, makerAddress: Address)

  /** Which coin an offer plan offers: not recorded, none before a split, or this one. */
  datatype Offered = Unset | SplitFirst | Direct(outpoint: OutPoint)

  datatype PreparedPlan = PreparedPlan(review: TxReview, offered: Offered, offers: seq<DecodedOffer>)

  datatype Payment = Payment(address: Address, asset: Asset, amount: nat)

  function GetInt(m: map<Asset, int>, a: Asset): int {
    if a in m then m[a] else 0
  }

  // ---- The request a review must express ---------------------------------------------------------

  function Gives(offers: seq<DecodedOffer>): seq<Coin> {
    if offers == [] then []
    else Gives(offers[..|offers| - 1]) + [Coin(offers[|offers| - 1].giveAsset, offers[|offers| - 1].giveAmount)]
  }

  function Wants(offers: seq<DecodedOffer>): seq<Coin> {
    if offers == [] then []
    else Wants(offers[..|offers| - 1]) + [Coin(offers[|offers| - 1].wantAsset, offers[|offers| - 1].wantAmount)]
  }

  function Wanted(o: DecodedOffer): Payment {
    Payment(o.makerAddress, o.wantAsset, o.wantAmount)
  }

  function Paid(output: ExternalOutput): Payment {
    Payment(output.address, output.asset, output.amount)
  }

  function MakerPayments(offers: seq<DecodedOffer>): seq<Payment> {
    seq(|offers|, i requires 0 <= i < |offers| => Wanted(offers[i]))
  }

  function Payments(external: seq<ExternalOutput>): seq<Payment> {
    seq(|external|, i requires 0 <= i < |external| => Paid(external[i]))
  }

  /** The balance change of asset `a` that carrying out the operation means, fee aside. */
  function Effect(op: Operation, plan: PreparedPlan, a: Asset): int {
    match op
    case TransferOp(asset, _, amount, _) => if a == asset then -(amount as int) else 0
    case IssuanceOp(issued, tokens, _) =>
      if plan.review.issuance.None? then 0
      else if plan.review.issuance.value.token == Some(a) then tokens
      else if a == plan.review.issuance.value.asset then issued
      else 0
    case SwapOfferOp(giveAsset, giveAmount, wantAsset, wantAmount, _) =>
      if plan.offered.SplitFirst? then 0
      else if a == wantAsset then wantAmount
      else if a == giveAsset then -(giveAmount as int)
      else 0
    case SwapTakeOp(_, _) => Total(Gives(plan.offers), a) - Total(Wants(plan.offers), a)
    case CancelOp(_, _) => 0
  }

  predicate FeeOk(review: TxReview, rate: nat) {
    0 < review.fee <= rate * MAX_FEE_VBYTES
  }

  ghost predicate DeltasAre(review: TxReview, op: Operation, plan: PreparedPlan) {
    forall a :: GetInt(review.changes, a) == Effect(op, plan, a)
  }

  predicate OfferStructure(review: TxReview, offered: Offered) {
    && review.kind.SwapOffer? && review.sighash == SingleAnyoneCanPay && review.issuance.None?
    && review.foreign == [] && review.external == [] && offered.Direct?
    && review.signed == [offered.outpoint] && review.fee == 0
  }

  /** The changes are these, an absent one being zero. */
  ghost predicate ChangesEqual(review: TxReview, expected: map<Asset, int>) {
    forall a :: GetInt(review.changes, a) == GetInt(expected, a)
  }

  /** The kind, recipients and inputs are the requested ones. */
  predicate StructureOk(op: Operation, plan: PreparedPlan) {
    var review := plan.review;
    match op
    case TransferOp(asset, recipient, amount, _) =>
      && review.kind.Transfer? && review.issuance.None? && review.foreign == []
      && Payments(review.external) == [Payment(recipient, asset, amount)]
    case IssuanceOp(issued, tokens, _) =>
      && review.kind.Issuance? && review.issuance.Some? && review.external == [] && review.foreign == []
      && review.issuance.value.amount == issued && review.issuance.value.tokens == tokens
      && (tokens == 0 <==> review.issuance.value.token.None?)
    case SwapOfferOp(_, _, _, _, _) =>
      if plan.offered.SplitFirst?
      then review.kind.OfferSplit? && review.external == [] && review.foreign == [] && review.issuance.None?
      else OfferStructure(review, plan.offered)
    case SwapTakeOp(count, _) =>
      && review.kind.SwapTake? && review.issuance.None? && |plan.offers| == count && |review.foreign| == |plan.offers|
      && (forall i :: 0 <= i < |plan.offers| ==> plan.offers[i].outpoint in review.foreign)
      && multiset(Payments(review.external)) == multiset(MakerPayments(plan.offers))
    case CancelOp(outpoint, _) =>
      && review.kind.Cancel? && review.external == [] && review.foreign == [] && review.issuance.None?
      && outpoint in review.signed
  }

  /** The review expresses exactly the requested effect. */
  ghost predicate Matches(op: Operation, plan: PreparedPlan, genesis: nat) {
    && plan.review.genesis == genesis && plan.review.signed != []
    && plan.review.sighash == SighashOf(plan.review.kind)
    && StructureOk(op, plan) && DeltasAre(plan.review, op, plan)
    && (!plan.review.kind.SwapOffer? ==> FeeOk(plan.review, op.feeRate))
  }

  // ---- The checks ----------------------------------------------------------------------------------

  /** Every non-zero change is expected and every non-zero expectation is met. */
  method ExpectDeltas(actual: map<Asset, int>, expected: map<Asset, int>) returns (ok: bool)
    ensures ok <==> forall a :: GetInt(actual, a) == GetInt(expected, a)
  {
    var left := actual.Keys;
    while left != {}
      invariant left <= actual.Keys
      invariant forall a :: a in actual.Keys - left && actual[a] != 0 ==> GetInt(expected, a) == actual[a]
    {
      var a :| a in left;
      if actual[a] != 0 && (a !in expected || expected[a] != actual[a]) {
        assert GetInt(actual, a) != GetInt(expected, a);
        return false;
      }
      left := left - {a};
    }
    left := expected.Keys;
    while left != {}
      invariant left <= expected.Keys
      invariant forall a :: a in expected.Keys - left && expected[a] != 0 ==> GetInt(actual, a) == expected[a]
    {
      var a :| a in left;
      if expected[a] != 0 && (a !in actual || actual[a] != expected[a]) {
        assert GetInt(actual, a) != GetInt(expected, a);
        return false;
      }
      left := left - {a};
    }
    ok := true;
  }

  /** The balance changes of a take: what the offers give minus what they want. */
  ghost predicate Expects(expected: map<Asset, int>, offers: seq<DecodedOffer>) {
    forall a :: GetInt(expected, a) == Total(Gives(offers), a) - Total(Wants(offers), a)
  }

  method AddOffer(expected: map<Asset, int>, o: DecodedOffer, ghost offers: seq<DecodedOffer>)
      returns (next: map<Asset, int>)
    requires Expects(expected, offers)
    ensures Expects(next, offers + [o])
  {
    next := expected[o.giveAsset := GetInt(expected, o.giveAsset) + o.giveAmount];
    next := next[o.wantAsset := GetInt(next, o.wantAsset) - o.wantAmount];
    assert (offers + [o])[..|offers|] == offers;
    forall a
      ensures GetInt(next, a) == Total(Gives(offers + [o]), a) - Total(Wants(offers + [o]), a)
    {
      TotalSnoc(Gives(offers), Coin(o.giveAsset, o.giveAmount), a);
      TotalSnoc(Wants(offers), Coin(o.wantAsset, o.wantAmount), a);
    }
  }

  /** The first unmatched output making the payment. */
  method FindPayment(unmatched: seq<ExternalOutput>, p: Payment) returns (index: int)
    ensures index == -1 <==> p !in multiset(Payments(unmatched))
    ensures index != -1 ==> 0 <= index < |unmatched| && Paid(unmatched[index]) == p
  {
    for i := 0 to |unmatched|
      invariant forall j :: 0 <= j < i ==> Paid(unmatched[j]) != p
    {
      if Paid(unmatched[i]) == p {
        assert Payments(unmatched)[i] == p;
        return i;
      }
    }
    index := -1;
  }

  lemma PaymentsSplit(left: seq<ExternalOutput>, right: seq<ExternalOutput>)
    ensures Payments(left + right) == Payments(left) + Payments(right)
  {}

  lemma Spliced(unmatched: seq<ExternalOutput>, index: nat)
    requires index < |unmatched|
    ensures multiset(Payments(unmatched))
         == multiset(Payments(unmatched[..index] + unmatched[index + 1..])) + multiset{Paid(unmatched[index])}
  {
    var left, right := unmatched[..index], unmatched[index + 1..];
    PaymentsSplit(left, right);
    PaymentsSplit(left + [unmatched[index]], right);
    PaymentsSplit(left, [unmatched[index]]);
    assert unmatched == left + [unmatched[index]] + right;
  }

  lemma MakerSnoc(offers: seq<DecodedOffer>, i: nat)
    requires i < |offers|
    ensures multiset(MakerPayments(offers[..i + 1]))
        == multiset(MakerPayments(offers[..i])) + multiset{Wanted(offers[i])}
  {
    assert MakerPayments(offers[..i + 1]) == MakerPayments(offers[..i]) + [Wanted(offers[i])];
  }

  lemma MakerPrefix(offers: seq<DecodedOffer>, i: nat)
    requires i <= |offers|
    ensures multiset(MakerPayments(offers[..i])) <= multiset(MakerPayments(offers))
  {
    assert MakerPayments(offers) == MakerPayments(offers[..i]) + MakerPayments(offers[i..]);
  }

  /** Striking the offers' payments out of the outputs leaves `unmatched`. */
  ghost predicate Struck(external: seq<ExternalOutput>, unmatched: seq<ExternalOutput>, offers: seq<DecodedOffer>) {
    multiset(Payments(external)) == multiset(Payments(unmatched)) + multiset(MakerPayments(offers))
  }

  lemma NothingStruck(external: seq<ExternalOutput>)
    ensures Struck(external, external, []) && Expects(map[], [])
  {}

  lemma StrikeOne(external: seq<ExternalOutput>, unmatched: seq<ExternalOutput>, offers: seq<DecodedOffer>, i: nat,
      index: nat)
    requires i < |offers| && index < |unmatched| && Paid(unmatched[index]) == Wanted(offers[i])
    requires Struck(external, unmatched, offers[..i])
    ensures Struck(external, unmatched[..index] + unmatched[index + 1..], offers[..i + 1])
  {
    MakerSnoc(offers, i);
    Spliced(unmatched, index);
    hide Payments, MakerPayments;
  }

  lemma CannotStrike(external: seq<ExternalOutput>, unmatched: seq<ExternalOutput>, offers: seq<DecodedOffer>, i: nat)
    requires i < |offers| && Wanted(offers[i]) !in multiset(Payments(unmatched))
        && Struck(external, unmatched, offers[..i])
    ensures multiset(Payments(external)) != multiset(MakerPayments(offers))
  {
    MakerSnoc(offers, i);
    MakerPrefix(offers, i + 1);
    hide Payments, MakerPayments;
    var p := Wanted(offers[i]);
    assert multiset(Payments(external))[p] == multiset(MakerPayments(offers[..i]))[p];
    assert multiset(MakerPayments(offers))[p] >= multiset(MakerPayments(offers[..i + 1]))[p];
  }

  lemma AllStruck(external: seq<ExternalOutput>, unmatched: seq<ExternalOutput>, offers: seq<DecodedOffer>)
    requires Struck(external, unmatched, offers)
    ensures unmatched == [] <==> multiset(Payments(external)) == multiset(MakerPayments(offers))
  {
    assert |multiset(Payments(unmatched))| == |Payments(unmatched)| == |unmatched|;
    hide Payments, MakerPayments;
  }

  /** Strikes each offer's payment out of the outputs and sums the expected changes. */
  method MatchOffers(review: TxReview, offers: seq<DecodedOffer>) returns (ok: bool, expected: map<Asset, int>)
    ensures ok <==> (forall i :: 0 <= i < |offers| ==> offers[i].outpoint in review.foreign)
                    && multiset(Payments(review.external)) == multiset(MakerPayments(offers))
    ensures ok ==> Expects(expected, offers)
  {
    expected := map[];
    var unmatched := review.external;
    assert offers[..0] == [] && offers[..|offers|] == offers;
    NothingStruck(review.external);
    hide *;
    for i := 0 to |offers|
      invariant forall j :: 0 <= j < i ==> offers[j].outpoint in review.foreign
      invariant Expects(expected, offers[..i]) && Struck(review.external, unmatched, offers[..i])
    {
      if offers[i].outpoint !in review.foreign { return false, expected; }
      assert offers[..i + 1] == offers[..i] + [offers[i]];
      expected := AddOffer(expected, offers[i], offers[..i]);
      var index := FindPayment(unmatched, Wanted(offers[i]));
      if index == -1 {
        CannotStrike(review.external, unmatched, offers, i);
        return false, expected;
      }
      StrikeOne(review.external, unmatched, offers, i, index);
      unmatched := unmatched[..index] + unmatched[index + 1..];
    }
    AllStruck(review.external, unmatched, offers);
    ok := unmatched == [];
  }

  method ExpectFee(review: TxReview, rate: nat) returns (ok: bool)
    ensures ok <==> FeeOk(review, rate)
  {
    ok := review.fee != 0 && review.fee <= rate * MAX_FEE_VBYTES;
  }

  /** The offer review, made directly or as the second stage after a split. */
  method CheckSwapOfferReview(op: Operation, plan: PreparedPlan) returns (ok: bool)
    requires op.SwapOfferOp? && !plan.offered.SplitFirst?
    ensures ok <==> OfferStructure(plan.review, plan.offered) && DeltasAre(plan.review, op, plan)
  {
    var review := plan.review;
    if !review.kind.SwapOffer? || review.sighash != SingleAnyoneCanPay || review.issuance.Some?
      || review.foreign != [] || review.external != [] || plan.offered.Unset?
      || review.signed != [plan.offered.outpoint] || review.fee != 0
    {
      return false;
    }
    ok := ExpectDeltas(review.changes,
        map[op.giveAsset := -(op.giveAmount as int), op.wantAsset := op.wantAmount as int]);
  }

  lemma OnePayment(external: seq<ExternalOutput>, p: Payment)
    ensures Payments(external) == [p] <==> |external| == 1 && Paid(external[0]) == p
  {
    if |external| == 1 {
      assert Payments(external) == [Paid(external[0])];
    }
    assert |Payments(external)| == |external|;
  }

  /** Rejects every review that does not express exactly the requested effect. */
  method CheckReview(op: Operation, plan: PreparedPlan, genesis: nat) returns (ok: bool)
    ensures ok <==> Matches(op, plan, genesis)
    ensures ok ==> plan.review.genesis == genesis && plan.review.signed != []
    ensures ok && !plan.review.kind.SwapOffer? ==>
              plan.review.sighash == All && 0 < plan.review.fee <= op.feeRate * 100_000
    ensures ok && !op.SwapTakeOp? ==> plan.review.foreign == []
    ensures ok && !op.IssuanceOp? ==> plan.review.issuance == None
    ensures ok && !op.TransferOp? && !op.SwapTakeOp? ==> plan.review.external == []
    ensures ok && op.TransferOp? ==>
              && plan.review.kind == Transfer
              && |plan.review.external| == 1 && plan.review.external[0].address == op.recipient
              && plan.review.external[0].asset == op.asset && plan.review.external[0].amount == op.amount
              && ChangesEqual(plan.review, map[op.asset := -(op.amount as int)])
    ensures ok && op.IssuanceOp? ==>
              && plan.review.kind == Issuance && plan.review.issuance.Some?
              && plan.review.issuance.value.amount == op.issued && plan.review.issuance.value.tokens == op.tokens
              && (op.tokens > 0 <==> plan.review.issuance.value.token.Some?)
    ensures ok && op.SwapOfferOp? && !plan.offered.SplitFirst? ==>
              && plan.review.kind == SwapOffer && plan.review.sighash == SingleAnyoneCanPay && plan.review.fee == 0
              && plan.offered.Direct? && plan.review.signed == [plan.offered.outpoint]
              && ChangesEqual(plan.review, map[op.giveAsset := -(op.giveAmount as int), op.wantAsset := op.wantAmount])
    ensures ok && op.SwapOfferOp? && plan.offered.SplitFirst? ==>
              plan.review.kind == OfferSplit && ChangesEqual(plan.review, map[])
    ensures ok && op.SwapTakeOp? ==>
              && plan.review.kind == SwapTake && |plan.offers| == op.count == |plan.review.foreign|
              && forall o :: o in plan.offers ==> o.outpoint in plan.review.foreign
    ensures ok && op.CancelOp? ==>
              plan.review.kind == Cancel && op.outpoint in plan.review.signed && ChangesEqual(plan.review, map[])
  {
    var review := plan.review;
    if review.genesis != genesis || review.signed == [] || review.sighash != SighashOf(review.kind) { return false; }
    if op.TransferOp? { OnePayment(review.external, Payment(op.recipient, op.asset, op.amount)); }
    ok := CheckRequest(op, plan);
  }

  /** The part of the check that depends on what was asked for. */
  method CheckRequest(op: Operation, plan: PreparedPlan) returns (ok: bool)
    ensures ok <==> StructureOk(op, plan) && DeltasAre(plan.review, op, plan)
                    && (!plan.review.kind.SwapOffer? ==> FeeOk(plan.review, op.feeRate))
  {
    var review := plan.review;
    var expected: map<Asset, int> := map[];
    match op {
      case TransferOp(asset, recipient, amount, _) =>
        OnePayment(review.external, Payment(recipient, asset, amount));
        if !review.kind.Transfer? || review.issuance.Some? || review.foreign != [] || |review.external| != 1
          || review.external[0].address != recipient || review.external[0].asset != asset
              || review.external[0].amount != amount
        {
          return false;
        }
        expected := map[asset := -(amount as int)];
      case IssuanceOp(issued, tokens, _) =>
        if !review.kind.Issuance? || review.issuance.None? || review.external != [] || review.foreign != []
          || review.issuance.value.amount != issued || review.issuance.value.tokens != tokens
          || (tokens == 0) != review.issuance.value.token.None?
        {
          return false;
        }
        expected := map[review.issuance.value.asset := issued];
        if review.issuance.value.token.Some? { expected := expected[review.issuance.value.token.value := tokens]; }
      case SwapOfferOp(_, _, _, _, _) =>
        if !plan.offered.SplitFirst? {
          ok := CheckSwapOfferReview(op, plan);
          return;
        }
        if !review.kind.OfferSplit? || review.external != [] || review.foreign != []
            || review.issuance.Some? { return false; }
      case SwapTakeOp(count, _) =>
        if !review.kind.SwapTake? || review.issuance.Some? || |plan.offers| != count
            || |review.foreign| != |plan.offers| {
          return false;
        }
        ok, expected := MatchOffers(review, plan.offers);
        if !ok { return false; }
      case CancelOp(outpoint, _) =>
        if !review.kind.Cancel? || review.external != [] || review.foreign != [] || review.issuance.Some?
          || outpoint !in review.signed
        {
          return false;
        }
    }
    ok := ExpectFee(review, op.feeRate);
    if !ok { return false; }
    ok := ExpectDeltas(review.changes, expected);
  }
}
