/** Witness addresses of one network: decoding, re-encoding and regrouping of bits. */
module AddressCodec {
  import opened Common
  import opened Bech32
  import opened XorArithmetic

  // ---- Regrouping bits ------------------------------------------------------------------------

  /** The number a string of `width`-bit groups spells. */
  function Number(groups: seq<nat>, width: nat): nat {
    if groups == [] then 0 else ShiftLeft(Number(groups[..|groups| - 1], width), width) + groups[|groups| - 1]
  }

  predicate Grouped(groups: seq<nat>, width: nat) {
    forall i :: 0 <= i < |groups| ==> groups[i] < Pow2(width)
  }

  /** `output` regroups all of `input`'s bits, except `left` final zero bits. */
  ghost predicate Regrouped(input: seq<nat>, from: nat, output: seq<nat>, to: nat, left: nat) {
    && Grouped(output, to) && |input| * from == |output| * to + left
    && Number(input, from) == ShiftLeft(Number(output, to), left)
  }

  lemma {:induction false} ShiftLeftSum(a: nat, j: nat, k: nat)
    ensures ShiftLeft(ShiftLeft(a, j), k) == ShiftLeft(a, j + k)
  {
    if k > 0 { ShiftLeftSum(a, j, k - 1); }
  }

  lemma {:induction false} ShiftLeftPlus(a: nat, b: nat, k: nat)
    ensures ShiftLeft(a + b, k) == ShiftLeft(a, k) + ShiftLeft(b, k)
  {
    if k > 0 { ShiftLeftPlus(a, b, k - 1); }
  }

  lemma NumberSnoc(groups: seq<nat>, g: nat, width: nat)
    ensures Number(groups + [g], width) == ShiftLeft(Number(groups, width), width) + g
  {
    assert (groups + [g])[..|groups|] == groups;
  }

  /** The low `j + k` bits are the low `j` bits and, above them, the next `k`. */
  lemma {:induction false} LowSplit(a: nat, j: nat, k: nat)
    ensures Low(a, j + k) == Low(a, j) + ShiftLeft(Low(ShiftRight(a, j), k), j)
  {
    if j > 0 {
      LowSplit(a / 2, j - 1, k);
      assert ShiftLeft(Low(ShiftRight(a, j), k), j) == 2 * ShiftLeft(Low(ShiftRight(a / 2, j - 1), k), j - 1);
    }
  }

  lemma {:induction false} LowOfLow(a: nat, j: nat, k: nat)
    requires j <= k
    ensures Low(Low(a, k), j) == Low(a, j)
  {
    if j > 0 {
      LowHalves(a, k);
      LowOfLow(a / 2, j - 1, k - 1);
    }
  }

  lemma {:induction false} LowOfShifted(a: nat, v: nat, j: nat, k: nat)
    requires v < Pow2(k)
    ensures Low(ShiftLeft(a, k) + v, j + k) == ShiftLeft(Low(a, j), k) + v
  {
    if k == 0 {
      assert v == 0;
    } else {
      var half := ShiftLeft(a, k - 1);
      assert ShiftLeft(a, k) == 2 * half;
      assert (2 * half + v) / 2 == half + v / 2 && (2 * half + v) % 2 == v % 2;
      LowOfShifted(a, v / 2, j, k - 1);
    }
  }

  /** What has been consumed is what has been pushed, plus `count` pending bits. */
  ghost predicate Pending(input: seq<nat>, from: nat, output: seq<nat>, to: nat, accumulator: nat, count: nat) {
    && Grouped(output, to) && |input| * from == |output| * to + count
    && Number(input, from) == ShiftLeft(Number(output, to), count) + Low(accumulator, count)
  }

  lemma ConsumeOne(input: seq<nat>, from: nat, output: seq<nat>, to: nat, accumulator: nat, count: nat, v: nat)
    requires Pending(input, from, output, to, accumulator, count) && v < Pow2(from) && count < to
    ensures Pending(input + [v], from, output, to, Low(Or(ShiftLeft(accumulator, from), v), from + to - 1),
        count + from)
  {
    hide *;
    OrDisjoint(accumulator, v, from);
    PendingIs(input, from, output, to, accumulator, count);
    NumberSnoc(input, v, from);
    LowOfShifted(accumulator, v, count, from);
    LowOfLow(ShiftLeft(accumulator, from) + v, count + from, from + to - 1);
    ShiftLeftPlus(ShiftLeft(Number(output, to), count), Low(accumulator, count), from);
    ShiftLeftSum(Number(output, to), count, from);
    assert |input + [v]| * from == |input| * from + from by { Times(|input|, from); }
    PendingIs(input + [v], from, output, to, Low(Or(ShiftLeft(accumulator, from), v), from + to - 1), count + from);
  }

  lemma Times(n: nat, k: nat)
    ensures (n + 1) * k == n * k + k
  {}

  lemma PendingIs(input: seq<nat>, from: nat, output: seq<nat>, to: nat, accumulator: nat, count: nat)
    ensures Pending(input, from, output, to, accumulator, count) <==>
            && Grouped(output, to) && |input| * from == |output| * to + count
            && Number(input, from) == ShiftLeft(Number(output, to), count) + Low(accumulator, count)
  {
    hide Grouped, Number, ShiftLeft, Low;
  }

  lemma ProduceOne(input: seq<nat>, from: nat, output: seq<nat>, to: nat, accumulator: nat, count: nat)
    requires Pending(input, from, output, to, accumulator, count + to)
    ensures Pending(input, from, output + [Low(ShiftRight(accumulator, count), to)], to, accumulator, count)
  {
    hide *;
    var g := Low(ShiftRight(accumulator, count), to);
    PendingIs(input, from, output, to, accumulator, count + to);
    LowSplit(accumulator, count, to);
    NumberSnoc(output, g, to);
    ShiftLeftPlus(ShiftLeft(Number(output, to), to), g, count);
    ShiftLeftSum(Number(output, to), to, count);
    LowBelow(ShiftRight(accumulator, count), to);
    GroupedSnoc(output, g, to);
    assert |output + [g]| * to == |output| * to + to by { Times(|output|, to); }
    PendingIs(input, from, output + [g], to, accumulator, count);
  }

  lemma GroupedSnoc(output: seq<nat>, g: nat, to: nat)
    requires Grouped(output, to) && g < Pow2(to)
    ensures Grouped(output + [g], to)
  {
    hide Pow2;
  }

  /** The push loop: whole groups out of the accumulator. */
  method PushGroups(accumulator: nat, count: nat, to: nat, output: seq<nat>, ghost input: seq<nat>, ghost from: nat)
    returns (left: nat, next: seq<nat>)
    requires to > 0 && Pending(input, from, output, to, accumulator, count)
    ensures left < to && Pending(input, from, next, to, accumulator, left)
  {
    left, next := count, output;
    hide Pending, Low, ShiftRight;
    while left >= to
      invariant Pending(input, from, next, to, accumulator, left)
    {
      left := left - to;
      ProduceOne(input, from, next, to, accumulator, left);
      next := next + [Low(ShiftRight(accumulator, left), to)];
    }
  }

  method ConvertBits(values: seq<nat>, from: nat, to: nat, pad: bool) returns (r: Option<seq<nat>>)
    requires from > 0 && to > 0
    ensures r.None? <==>
              !Grouped(values, from) || (!pad
                  && (var left := (|values| * from) % to; left >= from || Low(Number(values, from), left) != 0))
    ensures r.Some? && !pad ==> Regrouped(values, from, r.value, to, (|values| * from) % to)
    ensures r.Some? && pad ==> exists extra :: 0 <= extra < to && Regrouped(r.value, to, values, from, extra)
  {
    var accumulator: nat, count: nat, result: seq<nat> := 0, 0, [];
    assert values[..0] == [] && values[..|values|] == values;
    StartPending(from, to);
    hide Pending, Number, Low, ShiftLeft, ShiftRight, Grouped, Or, Regrouped;
    for i := 0 to |values|
      invariant count < to && Pending(values[..i], from, result, to, accumulator, count) && Grouped(values[..i], from)
    {
      GroupedAt(values, from, i);
      TooWide(values[i], from);
      if ShiftRight(values[i], from) != 0 { return None; }
      assert values[..i + 1] == values[..i] + [values[i]];
      ConsumeOne(values[..i], from, result, to, accumulator, count, values[i]);
      accumulator := Low(Or(ShiftLeft(accumulator, from), values[i]), from + to - 1);
      count, result := PushGroups(accumulator, count + from, to, result, values[..i + 1], from);
    }
    var rest := Low(ShiftLeft(accumulator, to - count), to);
    Leftover(values, from, result, to, accumulator, count);
    if pad && count > 0 {
      PadOne(values, from, result, to, accumulator, count);
      result := result + [rest];
    }
    if !pad && (count >= from || rest != 0) { return None; }
    r := Some(result);
  }

  lemma StartPending(from: nat, to: nat)
    ensures Pending([], from, [], to, 0, 0) && Grouped([], from)
  {}

  lemma GroupedAt(values: seq<nat>, width: nat, i: nat)
    requires i < |values| && Grouped(values[..i], width)
    ensures values[i] < Pow2(width) ==> Grouped(values[..i + 1], width)
    ensures values[i] >= Pow2(width) ==> !Grouped(values, width)
  {
    hide Pow2;
  }

  lemma {:induction false} TooWide(v: nat, width: nat)
    ensures ShiftRight(v, width) == 0 <==> v < Pow2(width)
  {
    if width > 0 { TooWide(v / 2, width - 1); }
  }

  lemma {:induction false} Apart(a: nat, b: nat, k: nat)
    requires a < b
    ensures a * k + k <= b * k
  {
    if a + 1 < b {
      Apart(a, b - 1, k);
      Times(b - 1, k);
    }
  }

  lemma ModOf(q: nat, to: nat, count: nat)
    requires count < to
    ensures (q * to + count) % to == count
  {
    var x := q * to + count;
    var quotient := x / to;
    assert x == quotient * to + x % to;
    if quotient < q { Apart(quotient, q, to); }
    if q < quotient { Apart(q, quotient, to); }
  }

  /** The bits left over at the end are the low bits of the number. */
  lemma Leftover(values: seq<nat>, from: nat, output: seq<nat>, to: nat, accumulator: nat, count: nat)
    requires Pending(values, from, output, to, accumulator, count) && count < to
    ensures count == (|values| * from) % to
    ensures var rest := Low(ShiftLeft(accumulator, to - count), to);
            && rest == ShiftLeft(Low(accumulator, count), to - count)
            && (rest != 0 <==> Low(Number(values, from), count) != 0)
            && (rest == 0 ==> Regrouped(values, from, output, to, count))
    ensures count == 0 && Grouped(values, from) ==> Regrouped(output, to, values, from, 0)
  {
    var low, number := Low(accumulator, count), Number(output, to);
    PendingIs(values, from, output, to, accumulator, count);
    LowBelow(accumulator, count);
    RegroupedIs(values, from, output, to, count);
    RegroupedIs(output, to, values, from, 0);
    Nothing(accumulator, number);
    hide Number, Low, ShiftLeft, Grouped, Pending, Regrouped, Pow2;
    ModOf(|output|, to, count);
    PowPositive(to - count);
    LowOfShifted(accumulator, 0, count, to - count);
    LowOfShifted(number, low, 0, count);
    ShiftLeftZero(low, to - count);
    ShiftLeftZero(Low(number, 0), count);
  }

  lemma Nothing(accumulator: nat, number: nat)
    ensures Low(accumulator, 0) == 0 && Low(number, 0) == 0 && ShiftLeft(number, 0) == number
  {}

  lemma RegroupedIs(input: seq<nat>, from: nat, output: seq<nat>, to: nat, left: nat)
    ensures Regrouped(input, from, output, to, left) <==>
            && Grouped(output, to) && |input| * from == |output| * to + left
            && Number(input, from) == ShiftLeft(Number(output, to), left)
  {
    hide Grouped, Number, ShiftLeft;
  }

  lemma PadOne(values: seq<nat>, from: nat, output: seq<nat>, to: nat, accumulator: nat, count: nat)
    requires Pending(values, from, output, to, accumulator, count) && 0 < count < to && Grouped(values, from)
    ensures Regrouped(output + [Low(ShiftLeft(accumulator, to - count), to)], to, values, from, to - count)
  {
    var low, number := Low(accumulator, count), Number(output, to);
    var padded := output + [Low(ShiftLeft(accumulator, to - count), to)];
    Leftover(values, from, output, to, accumulator, count);
    PendingIs(values, from, output, to, accumulator, count);
    RegroupedIs(padded, to, values, from, to - count);
    hide Number, Low, ShiftLeft, Grouped, Pending, Regrouped;
    NumberSnoc(output, ShiftLeft(low, to - count), to);
    ShiftLeftPlus(ShiftLeft(number, count), low, to - count);
    ShiftLeftSum(number, count, to - count);
    assert |padded| * to == |output| * to + to by { Times(|output|, to); }
  }

  // ---- Regrouping loses nothing -----------------------------------------------------------------------

  lemma {:induction false} NumberInjective(a: seq<nat>, b: seq<nat>, width: nat)
    requires |a| == |b| && Grouped(a, width) && Grouped(b, width) && Number(a, width) == Number(b, width)
    ensures a == b
  {
    if a != [] {
      var n := |a| - 1;
      hide Pow2;
      SplitEqual(Number(a[..n], width), a[n], Number(b[..n], width), b[n], width);
      NumberInjective(a[..n], b[..n], width);
      assert a == a[..n] + [a[n]] && b == b[..n] + [b[n]];
    }
  }

  lemma {:induction false} SplitEqual(a: nat, v: nat, b: nat, w: nat, k: nat)
    requires v < Pow2(k) && w < Pow2(k) && ShiftLeft(a, k) + v == ShiftLeft(b, k) + w
    ensures a == b && v == w
  {
    if k > 0 {
      assert ShiftLeft(a, k) == 2 * ShiftLeft(a, k - 1) && ShiftLeft(b, k) == 2 * ShiftLeft(b, k - 1);
      SplitEqual(a, v / 2, b, w / 2, k - 1);
    }
  }

  /** Five-bit groups that regroup into bytes are recovered by padding the bytes back to five-bit groups. */
  lemma RegroupInverse(values: seq<nat>, bytes: seq<nat>, left: nat, back: seq<nat>, extra: nat)
    requires Grouped(values, 5) && Regrouped(values, 5, bytes, 8, left) && left < 5
    requires Regrouped(back, 5, bytes, 8, extra) && Grouped(back, 5) && extra < 5
    ensures back == values
  {
    assert |back| == |values| && left == extra;
    hide Number, ShiftLeft, Pow2;
    NumberInjective(back, values, 5);
  }

  lemma ShiftLeftInjective(a: nat, b: nat, k: nat)
    requires ShiftLeft(a, k) == ShiftLeft(b, k)
    ensures a == b
  {
    PowPositive(k);
    SplitEqual(a, 0, b, 0, k);
  }

  /** No two byte strings come from the same five-bit groups. */
  lemma RegroupUnique(values: seq<nat>, one: seq<nat>, two: seq<nat>, left: nat)
    requires Regrouped(values, 5, one, 8, left) && Regrouped(values, 5, two, 8, left)
    ensures one == two
  {
    assert |one| == |two|;
    hide Number, ShiftLeft, Pow2;
    ShiftLeftInjective(Number(one, 8), Number(two, 8), left);
    NumberInjective(one, two, 8);
  }
}
