/** Reed-Solomon error correction of the QR encoder: the generator polynomial
    and the remainder of a data block. Polynomials are coefficient sequences,
    highest power first. */
module ReedSolomon {
  import opened Gf256

  type Poly = seq<Byte>

  function Zeros(n: nat): (p: Poly)
    ensures |p| == n
  {
    seq(n, _ => 0)
  }

  function Sum(p: Poly, q: Poly): (r: Poly)
    requires |p| == |q|
    ensures |r| == |p|
  {
    seq(|p|, i requires 0 <= i < |p| => Add(p[i], q[i]))
  }

  function Scale(c: Byte, p: Poly): (r: Poly)
    ensures |r| == |p|
  {
    seq(|p|, i requires 0 <= i < |p| => Mul(c, p[i]))
  }

  /** Schoolbook product; an empty `q` is the zero polynomial. */
  function Product(q: Poly, g: Poly): (r: Poly)
    requires |g| > 0
    ensures |r| == |q| + |g| - 1
  {
    if q == [] then Zeros(|g| - 1)
    else
      var k := |q| - 1;
      Sum(Product(q[..k], g) + [0], Zeros(k) + Scale(q[k], g))
  }

  function Eval(p: Poly, x: Byte): Byte {
    if p == [] then 0 else Add(Mul(Eval(p[..|p| - 1], x), x), p[|p| - 1])
  }

  /** Powers of the primitive element 2. */
  function Alpha(i: nat): Byte {
    if i == 0 then 1 else Mul(Alpha(i - 1), 2)
  }

  /** (x - 1)(x - a)(x - a^2) ... with `n` factors. */
  function Generator(n: nat): (g: Poly)
    ensures |g| == n + 1
  {
    if n == 0 then [1] else Product(Generator(n - 1), [1, Alpha(n - 1)])
  }

  function Coef(p: Poly, k: int): Byte {
    if 0 <= k < |p| then p[k] else 0
  }

  // ---- The generator ------------------------------------------------------------

  lemma {:induction false} CoefLinear(p: Poly, r: Byte, k: int)
    ensures Coef(Product(p, [1, r]), k) == Add(Coef(p, k), Mul(Coef(p, k - 1), r))
  {
    hide Add, Mul;
    MulByZero(r);
    AddGroup(Coef(p, k), 0, 0, 0);
    if p != [] && 0 <= k <= |p| {
      var n := |p| - 1;
      var front, c := p[..n], p[n];
      CoefLinear(front, r, k);
      MulOne(c);
      var m := Mul(Coef(front, k - 1), r);
      AddGroup(c, m, 0, 0);
      AddGroup(m, 0, 0, 0);
      AddGroup(Add(Coef(front, k), m), 0, 0, 0);
      AddGroup(Mul(c, r), 0, 0, 0);
    }
  }

  /** `result` holds the polynomial `g` right-aligned, its leading coefficient
      dropped once `g` is one longer than the array. */
  ghost predicate Holds(result: array<Byte>, g: Poly)
    reads result
  {
    forall j :: 0 <= j < result.Length ==> result[j] == Coef(g, j + |g| - result.Length)
  }

  /** The inner loop: multiply the polynomial held by (x - root), in place. */
  method MultiplyByFactor(result: array<Byte>, root: Byte, ghost g: Poly)
    requires Holds(result, g)
    modifies result
    ensures Holds(result, Product(g, [1, root]))
  {
    hide Add, Mul, Product;
    ghost var shift := |g| - result.Length;
    ghost var product := Product(g, [1, root]);
    for j := 0 to result.Length
      invariant forall k :: 0 <= k < j ==> result[k] == Coef(product, k + shift + 1)
      invariant forall k :: j <= k < result.Length ==> result[k] == Coef(g, k + shift)
    {
      CoefLinear(g, root, j + shift + 1);
      AddGroup(Mul(Coef(g, j + shift), root), Coef(g, j + shift + 1), 0, 0);
      var scaled := GfMultiply(result[j], root);
      result[j] := scaled;
      if j + 1 < result.Length {
        result[j] := Add(result[j], result[j + 1]);
      }
    }
  }

  method ReedSolomonDivisor(degree: nat) returns (divisor: Poly)
    requires degree >= 1
    ensures |divisor| == degree && [1] + divisor == Generator(degree)
  {
    hide Add, Mul, Product;
    var result := new Byte[degree](_ => 0);
    result[degree - 1] := 1;
    var root: Byte := 1;
    for i := 0 to degree
      invariant root == Alpha(i)
      invariant Holds(result, Generator(i))
    {
      MultiplyByFactor(result, root, Generator(i));
      root := GfMultiply(root, 0x02);
    }
    divisor := result[..];
    GeneratorMonic(degree);
    assert forall k :: 0 <= k < degree ==> divisor[k] == Generator(degree)[k + 1];
  }

  lemma {:induction false} GeneratorMonic(n: nat)
    ensures Generator(n)[0] == 1
  {
    hide Add, Mul;
    if n > 0 {
      GeneratorMonic(n - 1);
      CoefLinear(Generator(n - 1), Alpha(n - 1), 0);
      MulByZero(Alpha(n - 1));
      AddGroup(1, 0, 0, 0);
    }
  }

  // ---- The remainder ------------------------------------------------------------

  lemma AppendQuotient(data: Poly, rem: Poly, q: Poly, d: Poly, byte: Byte)
    requires |d| > 0 && |rem| == |d| && |q| == |data|
    requires data + rem == Product(q, [1] + d)
    ensures var factor := Add(byte, rem[0]);
            (data + [byte]) + Sum(rem[1..] + [0], Scale(factor, d)) == Product(q + [factor], [1] + d)
  {
    hide *;
    var factor, rest := Add(byte, rem[0]), rem[1..] + [0];
    var scaled := Scale(factor, d);
    ProductAppend(q, factor, [1] + d);
    ScaleMonic(factor, d);
    SumZeros(data);
    SumHead(byte, rem[0]);
    assert data + rem + [0] == data + ([rem[0]] + rest);
    SumAppend(data, Zeros(|q|), [rem[0]] + rest, [factor] + scaled);
    SumAppend([rem[0]], [factor], rest, scaled);
    assert data + ([byte] + Sum(rest, scaled)) == (data + [byte]) + Sum(rest, scaled);
  }

  lemma ProductAppend(q: Poly, c: Byte, g: Poly)
    requires |g| > 0
    ensures Product(q + [c], g) == Sum(Product(q, g) + [0], Zeros(|q|) + Scale(c, g))
  {
    assert (q + [c])[..|q|] == q;
  }

  lemma ScaleMonic(c: Byte, d: Poly)
    ensures Scale(c, [1] + d) == [c] + Scale(c, d)
  {
    hide Mul;
    MulOne(c);
  }

  lemma SumHead(byte: Byte, r: Byte)
    ensures Sum([r], [Add(byte, r)]) == [byte]
  {
    hide Add;
    AddGroup(r, byte, r, 0);
    AddGroup(byte, r, r, 0);
    AddGroup(byte, 0, 0, 0);
  }

  lemma SumAppend(a: Poly, b: Poly, c: Poly, d: Poly)
    requires |a| == |b| && |c| == |d|
    ensures Sum(a + c, b + d) == Sum(a, b) + Sum(c, d)
  {}

  lemma SumZeros(p: Poly)
    ensures Sum(p, Zeros(|p|)) == p
  {
    forall i | 0 <= i < |p|
      ensures Add(p[i], 0) == p[i]
    {
      AddGroup(p[i], 0, 0, 0);
    }
  }

  method ReedSolomonRemainder(data: Poly, divisor: Poly) returns (result: Poly, ghost quotient: Poly)
    requires |divisor| > 0
    ensures |result| == |divisor| && |quotient| == |data|
    ensures data + result == Product(quotient, [1] + divisor)
  {
    hide Add, Mul;
    result := Zeros(|divisor|);
    quotient := [];
    assert [] + result == Product([], [1] + divisor);
    for n := 0 to |data|
      invariant |result| == |divisor| && |quotient| == n
      invariant data[..n] + result == Product(quotient, [1] + divisor)
    {
      AppendQuotient(data[..n], result, quotient, divisor, data[n]);
      var factor := Add(data[n], result[0]);
      ghost var target := Sum(result[1..] + [0], Scale(factor, divisor));
      result := result[1..];
      result := result + [0];
      ghost var shifted := result;
      for index := 0 to |divisor|
        invariant |result| == |divisor|
        invariant forall i :: 0 <= i < |divisor| ==> result[i] == if i < index then target[i] else shifted[i]
      {
        MulCommutes(divisor[index], factor);
        var product := GfMultiply(divisor[index], factor);
        result := result[index := Add(result[index], product)];
      }
      assert result == target;
      quotient := quotient + [factor];
      assert data[..n + 1] == data[..n] + [data[n]];
    }
    assert data[..|data|] == data;
  }

  // ---- Roots ----------------------------------------------------------------------

  lemma {:induction false} EvalSum(p: Poly, q: Poly, x: Byte)
    requires |p| == |q|
    ensures Eval(Sum(p, q), x) == Add(Eval(p, x), Eval(q, x))
  {
    hide Add, Mul;
    if p != [] {
      var n := |p| - 1;
      assert Sum(p, q)[..n] == Sum(p[..n], q[..n]);
      EvalSum(p[..n], q[..n], x);
      MulDistributes(Eval(p[..n], x), Eval(q[..n], x), x);
      AddGroup(Mul(Eval(p[..n], x), x), Mul(Eval(q[..n], x), x), p[n], q[n]);
    } else {
      AddGroup(0, 0, 0, 0);
    }
  }

  lemma {:induction false} EvalZerosThenScale(k: nat, c: Byte, g: Poly, x: Byte)
    ensures Eval(Zeros(k) + Scale(c, g), x) == Mul(c, Eval(g, x))
    decreases k + |g|
  {
    hide Add, Mul;
    var p := Zeros(k) + Scale(c, g);
    MulByZero(c);
    MulByZero(x);
    AddGroup(0, 0, 0, 0);
    if g != [] {
      var n := |g| - 1;
      assert p[..|p| - 1] == Zeros(k) + Scale(c, g[..n]);
      EvalZerosThenScale(k, c, g[..n], x);
      MulDistributes(Mul(Eval(g[..n], x), x), g[n], c);
      MulAssociates(c, Eval(g[..n], x), x);
    } else if k > 0 {
      assert p[..|p| - 1] == Zeros(k - 1) + Scale(c, g);
      EvalZerosThenScale(k - 1, c, g, x);
    }
  }

  lemma {:induction false} EvalProduct(q: Poly, g: Poly, x: Byte)
    requires |g| > 0
    ensures Eval(Product(q, g), x) == Mul(Eval(q, x), Eval(g, x))
  {
    hide Add, Mul;
    if q == [] {
      MulByZero(Eval(g, x));
      assert Zeros(|g| - 1) == Zeros(|g| - 1) + Scale(0, []);
      EvalZerosThenScale(|g| - 1, 0, [], x);
      MulByZero(0);
    } else {
      var k := |q| - 1;
      var front := Product(q[..k], g);
      EvalProduct(q[..k], g, x);
      EvalSum(front + [0], Zeros(k) + Scale(q[k], g), x);
      assert (front + [0])[..|front|] == front;
      AddGroup(Mul(Eval(front, x), x), 0, 0, 0);
      EvalZerosThenScale(k, q[k], g, x);
      var a, b := Eval(q[..k], x), Eval(g, x);
      MulDistributes(Mul(a, x), q[k], b);
      MulAssociates(a, b, x);
      MulAssociates(a, x, b);
      MulCommutes(b, x);
    }
  }

  lemma {:induction false} GeneratorRoots(n: nat, i: nat)
    requires i < n
    ensures Eval(Generator(n), Alpha(i)) == 0
  {
    hide Add, Mul;
    var x, last := Alpha(i), [1, Alpha(n - 1)];
    EvalProduct(Generator(n - 1), last, x);
    if i == n - 1 {
      assert last[..1] == [1];
      MulByZero(x);
      AddGroup(0, 1, 0, 0);
      AddGroup(1, 0, 0, 0);
      MulOne(x);
      AddGroup(x, 0, 0, 0);
      assert Eval([1], x) == 1 by {
        assert [1][..0] == [];
      }
      MulByZero(Eval(Generator(n - 1), x));
    } else {
      GeneratorRoots(n - 1, i);
      MulByZero(Eval(last, x));
    }
  }

  /** A block of data followed by a remainder that makes it a multiple of the
      generator vanishes at every root of the generator. */
  lemma CodewordVanishes(codeword: Poly, quotient: Poly, n: nat, i: nat)
    requires i < n && codeword == Product(quotient, Generator(n))
    ensures Eval(codeword, Alpha(i)) == 0
  {
    hide Add, Mul;
    EvalProduct(quotient, Generator(n), Alpha(i));
    GeneratorRoots(n, i);
    MulByZero(Eval(quotient, Alpha(i)));
  }
}
