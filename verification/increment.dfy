/**
 The `increment` class of unary_operator_overloading.cpp: one `int` field
 `age` and two overloaded `++` operators, prefix and postfix. Both operators
 return `void` and add 1 to `age` in place; a call is modelled as the
 object's value after it.
 */
module UnaryOperatorOverloading {

  import opened Locals
  import Decimal

  datatype Increment = Increment(age: int)

  /** Which of the two overloads a `++` resolves to: `++x` or `x++`. */
  datatype Fixity = Prefix | Postfix

  /** `increment()`: `age` starts at 0. */
  function Default(): Increment {
    Increment(0)
  }

  /** `increment(int a)`: `age` starts at `a`. */
  function WithAge(a: int): Increment {
    Increment(a)
  }

  /** Each constructor stores its starting age; the default one is the parameterised one at 0. */
  lemma DefaultIsWithAgeZero()
    ensures forall a :: WithAge(a).age == a
    ensures Default() == WithAge(0)
    ensures Default().age == 0
  {
  }

  /** `void operator++()`: `++age`. */
  function PreIncrement(c: Increment): (r: Increment)
    ensures r.age == c.age + 1
  {
    c.(age := c.age + 1)
  }

  /**
   `void operator++(int)`: also `++age`. Unlike the built-in postfix `++`
   it yields no copy of the old value, so the only effect is the update.
   */
  function PostIncrement(c: Increment): (r: Increment)
    ensures r.age == c.age + 1
  {
    c.(age := c.age + 1)
  }

  /** The two overloads are indistinguishable by their effect. */
  lemma PostfixActsAsPrefix(c: Increment)
    ensures PostIncrement(c) == PreIncrement(c)
    ensures PostIncrement(c) != c
  {
  }

  function Step(c: Increment, f: Fixity): Increment {
    match f
    case Prefix => PreIncrement(c)
    case Postfix => PostIncrement(c)
  }

  /** A run of `++` calls on one object, in order. */
  function Apply(c: Increment, ops: seq<Fixity>): (r: Increment)
    ensures r.age == c.age + |ops|
    decreases |ops|
  {
    if ops == [] then c else Apply(Step(c, ops[0]), ops[1..])
  }

  /** Only the number of calls matters, not which overload each one used. */
  lemma ApplyCountsOnly(c: Increment, ops: seq<Fixity>, ops': seq<Fixity>)
    requires |ops| == |ops'|
    ensures Apply(c, ops) == Apply(c, ops')
  {
  }

  /** `++x;` or `x++;` on the variable `x`: no other object changes. */
  function IncrementVar(env: Env<Increment>, x: string, f: Fixity): (r: Env<Increment>)
    requires x in env
    ensures r.Keys == env.Keys
    ensures r[x].age == env[x].age + 1
    ensures forall y :: y in env && y != x ==> r[y] == env[y]
  {
    Assign(env, x, Step(env[x], f))
  }

  /** `display()`: the label, the age and the line break of `endl`. */
  function Display(c: Increment): string {
    "Age : " + Decimal.IntToString(c.age) + "\n"
  }

  /** The line shows the age unchanged: after the label comes a literal that reads back as `age`. */
  lemma DisplayStatesAge(c: Increment)
    ensures |Display(c)| > 7 && Display(c)[..6] == "Age : " && Display(c)[|Display(c)| - 1] == '\n'
    ensures Decimal.IsIntLiteral(Display(c)[6..|Display(c)| - 1])
    ensures Decimal.ParseInt(Display(c)[6..|Display(c)| - 1]) == c.age
  {
    assert Display(c)[6..|Display(c)| - 1] == Decimal.IntToString(c.age);
    Decimal.ParseIntToString(c.age);
  }

  lemma DisplayInjective(a: Increment, b: Increment)
    ensures Display(a) == Display(b) <==> a == b
  {
    if Display(a) == Display(b) {
      assert Decimal.IntToString(a.age) == Display(a)[6..|Display(a)| - 1];
      assert Decimal.IntToString(b.age) == Display(b)[6..|Display(b)| - 1];
      Decimal.IntToStringInjective(a.age, b.age);
    }
  }

  /** The variables of `main` after its three increments. */
  function MainTrace(): Env<Increment> {
    var env1 := Assign(map[], "inc1", Default());
    var env2 := Assign(env1, "inc2", WithAge(15));
    var env3 := IncrementVar(env2, "inc1", Prefix);
    var env4 := IncrementVar(env3, "inc2", Prefix);
    IncrementVar(env4, "inc2", Postfix)
  }

  /** The two lines `main` prints. */
  function MainOutput(): seq<string> {
    [Display(MainTrace()["inc1"]), Display(MainTrace()["inc2"])]
  }

  /** `inc1` goes 0 -> 1; `inc2` goes 15 -> 16 -> 17. */
  lemma MainTraceHolds()
    ensures MainTrace().Keys == {"inc1", "inc2"}
    ensures MainTrace()["inc1"].age == 1
    ensures MainTrace()["inc2"].age == 17
  {
  }

  /** The output the comments beside the two `display()` calls announce. */
  const CommentedOutput: seq<string> := ["Age : 1\n", "Age : 16\n"]

  /** Those comments with the second one corrected to the value the code computes. */
  const CorrectedOutput: seq<string> := ["Age : 1\n", "Age : 17\n"]

  /** The second comment is wrong: `main` never prints `Age : 16`. */
  lemma CommentedOutputIsWrong()
    ensures MainOutput() != CommentedOutput
    ensures MainOutput()[1] != CommentedOutput[1]
    ensures "Age : 16\n" !in MainOutput()
  {
    CorrectedOutputHolds();
  }

  /** The corrected comments describe exactly what `main` prints. */
  lemma CorrectedOutputHolds()
    ensures MainOutput() == CorrectedOutput
  {
    var t := MainTrace();
    assert t["inc1"] == Increment(1) && t["inc2"] == Increment(17);
    assert Decimal.IntToString(17) == Decimal.NatToString(1) + "7" == "17";
    assert Display(t["inc1"]) == "Age : 1\n";
    assert Display(t["inc2"]) == "Age : 17\n";
  }
}
