/**
 The `complex` class of binary_operator_overloading.cpp: a pair of `int`s (the
 fields `real` and `img`, here `realPart` and `imgPart`, since `real` is a
 Dafny type name) with an overloaded `+` that builds a new value from the
 component-wise sums.
 */
module BinaryOperatorOverloading {

  import opened Locals
  import Decimal

  datatype Complex = Complex(realPart: int, imgPart: int)

  /** `complex(int r = 0, int i = 0)`: both arguments default to 0. */
  function New(r: int := 0, i: int := 0): Complex {
    Complex(r, i)
  }

  /**
   `operator+`: a default-constructed `result` whose real part and then
   imaginary part are overwritten with the sums. The right operand is read
   through a `const&` and the left one is only read, so neither can change;
   here both are values.
   */
  function Add(a: Complex, b: Complex): (r: Complex)
    ensures r.realPart == a.realPart + b.realPart
    ensures r.imgPart == a.imgPart + b.imgPart
  {
    var result := New();
    var withReal := result.(realPart := a.realPart + b.realPart);
    withReal.(imgPart := a.imgPart + b.imgPart)
  }

  /** The default-constructed value is (0,0) and a two-sided identity for `+`. */
  lemma DefaultIsIdentity(c: Complex)
    ensures New() == Complex(0, 0)
    ensures Add(New(), c) == c && Add(c, New()) == c
  {
  }

  lemma AddCommutative(a: Complex, b: Complex)
    ensures Add(a, b) == Add(b, a)
  {
  }

  lemma AddAssociative(a: Complex, b: Complex, c: Complex)
    ensures Add(Add(a, b), c) == Add(a, Add(b, c))
  {
  }

  /** `display()`: the real part, " + ", the imaginary part, "i" and the line break of `endl`. */
  function Display(c: Complex): string {
    Decimal.IntToString(c.realPart) + " + " + Decimal.IntToString(c.imgPart) + "i\n"
  }

  /**
   The display shows both parts unchanged and in order: it splits at a
   " + " into a literal that reads back as the real part and, before the
   closing "i" and line break, one that reads back as the imaginary part.
   */
  lemma DisplayStatesParts(c: Complex)
    ensures exists k ::
              && 1 <= k && k + 3 < |Display(c)| - 2
              && Display(c)[k..k + 3] == " + "
              && Display(c)[|Display(c)| - 2..] == "i\n"
              && Decimal.IsIntLiteral(Display(c)[..k])
              && Decimal.ParseInt(Display(c)[..k]) == c.realPart
              && Decimal.IsIntLiteral(Display(c)[k + 3..|Display(c)| - 2])
              && Decimal.ParseInt(Display(c)[k + 3..|Display(c)| - 2]) == c.imgPart
  {
    var d := Display(c);
    var re, im := Decimal.IntToString(c.realPart), Decimal.IntToString(c.imgPart);
    var k := |re|;
    assert d == re + " + " + im + "i\n";
    assert d[..k] == re;
    assert d[k..k + 3] == " + ";
    assert d[k + 3..|d| - 2] == im;
    Decimal.ParseIntToString(c.realPart);
    Decimal.ParseIntToString(c.imgPart);
  }

  /** Distinct values display differently. */
  lemma DisplayInjective(a: Complex, b: Complex)
    ensures Display(a) == Display(b) <==> a == b
  {
    if Display(a) == Display(b) {
      var ra, ia := Decimal.IntToString(a.realPart), Decimal.IntToString(a.imgPart);
      var rb, ib := Decimal.IntToString(b.realPart), Decimal.IntToString(b.imgPart);
      assert Display(a) == ra + (" + " + ia + "i\n");
      assert Display(b) == rb + (" + " + ib + "i\n");
      Decimal.IntToStringHasNoSpace(a.realPart);
      Decimal.IntToStringHasNoSpace(b.realPart);
      Decimal.SplitAtSeparator(ra, " + " + ia + "i\n", rb, " + " + ib + "i\n", ' ');
      assert ia == (" + " + ia + "i\n")[3..|ia| + 3];
      assert ib == (" + " + ib + "i\n")[3..|ib| + 3];
      Decimal.IntToStringInjective(a.realPart, b.realPart);
      Decimal.IntToStringInjective(a.imgPart, b.imgPart);
    }
  }

  /**
   `dst = lhs + rhs;`: only `dst` is rebound, so both operands keep their
   values unless one of them is the destination itself.
   */
  function AssignSum(env: Env<Complex>, dst: string, lhs: string, rhs: string): (r: Env<Complex>)
    requires lhs in env && rhs in env
    ensures r.Keys == env.Keys + {dst}
    ensures r[dst].realPart == env[lhs].realPart + env[rhs].realPart
    ensures r[dst].imgPart == env[lhs].imgPart + env[rhs].imgPart
    ensures forall y :: y in env && y != dst ==> r[y] == env[y]
  {
    Assign(env, dst, Add(env[lhs], env[rhs]))
  }

  /** The variables of `main` after `c3 = c1 + c2;`. */
  function MainTrace(): Env<Complex> {
    var env1 := Assign(map[], "c1", New(4, 1));
    var env2 := Assign(env1, "c2", New(5, 42));
    var env3 := Assign(env2, "c3", New());
    AssignSum(env3, "c3", "c1", "c2")
  }

  /** `main` computes (4,1) + (5,42) = (9,43), prints `9 + 43i`, and leaves c1 and c2 alone. */
  lemma MainTraceHolds()
    ensures MainTrace().Keys == {"c1", "c2", "c3"}
    ensures MainTrace()["c1"] == Complex(4, 1) && MainTrace()["c2"] == Complex(5, 42)
    ensures MainTrace()["c3"] == Complex(9, 43)
    ensures Display(MainTrace()["c3"]) == "9 + 43i\n"
  {
  }
}
