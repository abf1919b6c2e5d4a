# Object-oriented C++ snippets, modelled in Dafny

The repository is a set of one-file C++ teaching programs. Four of them hold
logic that can be stated and proved, and each is modelled as one Dafny
module:

- `BinaryOperatorOverloading` (complex.dfy): the `complex` class, its
  defaulted constructor, the overloaded `+` that builds a new value from the
  component-wise sums, `display()`, and the trace of `main` (`c3 = c1 + c2`).
- `UnaryOperatorOverloading` (increment.dfy): the `increment` class, its two
  constructors, the prefix and postfix `++` overloads (both `void`, both add 1
  to `age`), `display()`, and the trace of `main`.
- `FriendFunction` (rectangle.dfy): the `Rectangle` class and the friend
  function `area` that reports `length * breadth`, and the trace of `main`.
- `VirtualFunction` (character.dfy): the `Character` base class with the
  virtual `attack`, its overrides in `Warrior` and `Mage`, and the pointer
  rebinding in `main`.

Two helper modules serve them. `Decimal` (decimal.dfy) is the text `cout`
writes for an `int`, with a parser that reads it back. `Locals` (locals.dfy)
holds the named local variables of a `main` as a map.

Objects are immutable datatype values. An operation that mutates an object
in place (`++`) is a function from the object before the call to the object
after it. A statement of `main` is a function from the variables before it
to the variables after it, and its contract says which variables it leaves
alone. Virtual dispatch is a `match` on the constructor of the object's
value, which stands for the object's dynamic class. Each `main` is modelled
as a trace of values and printed lines, and a lemma pins the trace down.

The comment at unary_operator_overloading.cpp:37 says the program prints
`Age : 16`. The code starts `inc2` at 15 and increments it twice, so it
prints `Age : 17`. The model follows the code (see Findings).

## Model

| member | source | states |
|---|---|---|
| `BinaryOperatorOverloading.New` | C++/POLYMORPHISM/COMPILE_TIME/OPERATOR_OVERLOADING/binary_operator_overloading.cpp:11-15 | The constructor with both arguments defaulted to 0. It has no contract of its own: `DefaultIsIdentity` states that `complex()` is (0,0), and `MainTraceHolds` that `complex(4,1)` and `complex(5,42)` store their arguments. |
| `BinaryOperatorOverloading.Add` | C++/POLYMORPHISM/COMPILE_TIME/OPERATOR_OVERLOADING/binary_operator_overloading.cpp:17-23 | The sum's real part is the sum of the operands' real parts, and its imaginary part is the sum of their imaginary parts. |
| `BinaryOperatorOverloading.DefaultIsIdentity` | C++/POLYMORPHISM/COMPILE_TIME/OPERATOR_OVERLOADING/binary_operator_overloading.cpp:11-22 | `complex()` is (0,0), and adding it on either side gives back the other operand. |
| `BinaryOperatorOverloading.AddCommutative` | C++/POLYMORPHISM/COMPILE_TIME/OPERATOR_OVERLOADING/binary_operator_overloading.cpp:17-23 | `a + b == b + a`. |
| `BinaryOperatorOverloading.AddAssociative` | C++/POLYMORPHISM/COMPILE_TIME/OPERATOR_OVERLOADING/binary_operator_overloading.cpp:17-23 | `(a + b) + c == a + (b + c)`. |
| `BinaryOperatorOverloading.AssignSum` | C++/POLYMORPHISM/COMPILE_TIME/OPERATOR_OVERLOADING/binary_operator_overloading.cpp:17-23 | `dst = lhs + rhs` gives `dst` the component-wise sum, and every other variable, both operands included, keeps its value. |
| `BinaryOperatorOverloading.Display` | C++/POLYMORPHISM/COMPILE_TIME/OPERATOR_OVERLOADING/binary_operator_overloading.cpp:24-27 | The line `display()` writes, ending in the line break of `endl`. It has no contract of its own: `DisplayStatesParts` states that it shows both parts unchanged and in order, and `DisplayInjective` that distinct values display differently. |
| `BinaryOperatorOverloading.DisplayStatesParts` | C++/POLYMORPHISM/COMPILE_TIME/OPERATOR_OVERLOADING/binary_operator_overloading.cpp:24-27 | The displayed line splits at a ` + ` into a literal that reads back as the real part and, before the closing `i` and line break, a literal that reads back as the imaginary part. |
| `BinaryOperatorOverloading.DisplayInjective` | C++/POLYMORPHISM/COMPILE_TIME/OPERATOR_OVERLOADING/binary_operator_overloading.cpp:24-27 | Two values display the same text exactly when they are equal. |
| `BinaryOperatorOverloading.MainTraceHolds` | C++/POLYMORPHISM/COMPILE_TIME/OPERATOR_OVERLOADING/binary_operator_overloading.cpp:31-36 | (4,1) + (5,42) = (9,43), displayed as `9 + 43i` followed by a line break, and `c1` and `c2` are unchanged. |
| `UnaryOperatorOverloading.Default` | C++/POLYMORPHISM/COMPILE_TIME/OPERATOR_OVERLOADING/unary_operator_overloading.cpp:10 | `increment()`. It has no contract of its own: `DefaultIsWithAgeZero` states that `age` starts at 0. |
| `UnaryOperatorOverloading.WithAge` | C++/POLYMORPHISM/COMPILE_TIME/OPERATOR_OVERLOADING/unary_operator_overloading.cpp:13 | `increment(int a)`. It has no contract of its own: `DefaultIsWithAgeZero` states that it sets `age` to `a` for every `a`. |
| `UnaryOperatorOverloading.DefaultIsWithAgeZero` | C++/POLYMORPHISM/COMPILE_TIME/OPERATOR_OVERLOADING/unary_operator_overloading.cpp:10-13 | The parameterised constructor sets `age` to `a` for every `a`, and the default constructor sets it to 0, giving the same object as `increment(0)`. |
| `UnaryOperatorOverloading.PreIncrement` | C++/POLYMORPHISM/COMPILE_TIME/OPERATOR_OVERLOADING/unary_operator_overloading.cpp:16-18 | Prefix `++` leaves the object with `age` exactly 1 more than before. |
| `UnaryOperatorOverloading.PostIncrement` | C++/POLYMORPHISM/COMPILE_TIME/OPERATOR_OVERLOADING/unary_operator_overloading.cpp:19-21 | Postfix `++` also leaves the object with `age` exactly 1 more than before. It yields no copy of the old value, because the operator returns `void`. |
| `UnaryOperatorOverloading.PostfixActsAsPrefix` | C++/POLYMORPHISM/COMPILE_TIME/OPERATOR_OVERLOADING/unary_operator_overloading.cpp:16-21 | Postfix `++` has exactly the effect of prefix `++`, and that effect always changes the object. |
| `UnaryOperatorOverloading.Apply` | C++/POLYMORPHISM/COMPILE_TIME/OPERATOR_OVERLOADING/unary_operator_overloading.cpp:16-21 | Any run of n prefix and postfix increments from `age == a` ends with `age == a + n`. |
| `UnaryOperatorOverloading.ApplyCountsOnly` | C++/POLYMORPHISM/COMPILE_TIME/OPERATOR_OVERLOADING/unary_operator_overloading.cpp:16-21 | Two runs of increments of the same length end in the same object, whatever mix of prefix and postfix each uses. |
| `UnaryOperatorOverloading.IncrementVar` | C++/POLYMORPHISM/COMPILE_TIME/OPERATOR_OVERLOADING/unary_operator_overloading.cpp:29-34 | Incrementing one variable adds 1 to its `age` and leaves every other object unchanged. |
| `UnaryOperatorOverloading.Display` | C++/POLYMORPHISM/COMPILE_TIME/OPERATOR_OVERLOADING/unary_operator_overloading.cpp:23-25 | The line `display()` writes, ending in the line break of `endl`. It has no contract of its own: `DisplayStatesAge` states that it shows the age unchanged, and `DisplayInjective` that distinct ages display differently. |
| `UnaryOperatorOverloading.DisplayStatesAge` | C++/POLYMORPHISM/COMPILE_TIME/OPERATOR_OVERLOADING/unary_operator_overloading.cpp:23-25 | The displayed line is `Age : `, then a literal that reads back as `age`, then a line break. |
| `UnaryOperatorOverloading.DisplayInjective` | C++/POLYMORPHISM/COMPILE_TIME/OPERATOR_OVERLOADING/unary_operator_overloading.cpp:23-25 | Two objects display the same line exactly when their ages are equal. |
| `UnaryOperatorOverloading.MainTraceHolds` | C++/POLYMORPHISM/COMPILE_TIME/OPERATOR_OVERLOADING/unary_operator_overloading.cpp:28-37 | `main` ends with `inc1.age == 1` and `inc2.age == 17`; `CorrectedOutputHolds` states the two lines it prints. |
| `UnaryOperatorOverloading.CommentedOutputIsWrong` | C++/POLYMORPHISM/COMPILE_TIME/OPERATOR_OVERLOADING/unary_operator_overloading.cpp:36-37 | The output the comments announce is not what `main` prints: `Age : 16` never appears. |
| `UnaryOperatorOverloading.CorrectedOutputHolds` | C++/POLYMORPHISM/COMPILE_TIME/OPERATOR_OVERLOADING/unary_operator_overloading.cpp:28-37 | `main` prints `Age : 1` then `Age : 17`, each followed by a line break: the comments with the second one corrected to `Age : 17` match the output exactly. |
| `FriendFunction.Area` | C++/CLASS_AND_OBJECT/STATIC_AND_FRIEND_FUNCTION/FRIEND_FUNCTION/friend_function.cpp:17 | The product `length * breadth` that `area` computes. It has no contract of its own: `ReportStatesArea` states that the report carries exactly this product, and `AreaSymmetric` that it does not depend on the order of the sides. |
| `FriendFunction.Report` | C++/CLASS_AND_OBJECT/STATIC_AND_FRIEND_FUNCTION/FRIEND_FUNCTION/friend_function.cpp:15-18 | The text `area` writes. It has no contract of its own: `ReportStatesArea` states what it carries. |
| `FriendFunction.ReportStatesArea` | C++/CLASS_AND_OBJECT/STATIC_AND_FRIEND_FUNCTION/FRIEND_FUNCTION/friend_function.cpp:15-18 | `area` writes its fixed label followed by a number that reads back as exactly `length * breadth`. |
| `FriendFunction.AreaSymmetric` | C++/CLASS_AND_OBJECT/STATIC_AND_FRIEND_FUNCTION/FRIEND_FUNCTION/friend_function.cpp:17 | Swapping length and breadth does not change the area. |
| `FriendFunction.MainTraceHolds` | C++/CLASS_AND_OBJECT/STATIC_AND_FRIEND_FUNCTION/FRIEND_FUNCTION/friend_function.cpp:20-22 | `Rectangle(5,5)` has area 25, reported as `AREA OF THE RECTANGLE 25`. |
| `VirtualFunction.Attack` | C++/INHERITANCE/VIRTUAL_FUNCTION/virtual_function.cpp:7-25 | A call writes the base message exactly when the object's class does not override `attack`. Neither `Warrior` nor `Mage` ever writes it. |
| `VirtualFunction.AttackIdentifiesClass` | C++/INHERITANCE/VIRTUAL_FUNCTION/virtual_function.cpp:7-25 | Two objects' calls write the same message exactly when the objects are of the same class. |
| `VirtualFunction.Run` | C++/INHERITANCE/VIRTUAL_FUNCTION/virtual_function.cpp:28-37 | Each call through the base pointer writes the message of the object bound at that moment, and nothing else decides it. |
| `VirtualFunction.RebindingSwitchesOutput` | C++/INHERITANCE/VIRTUAL_FUNCTION/virtual_function.cpp:29-37 | Rebinding the pointer to an object of another class changes what the next call writes. |
| `VirtualFunction.MainTraceHolds` | C++/INHERITANCE/VIRTUAL_FUNCTION/virtual_function.cpp:28-37 | `main` writes `Warrior swings a sword!` and then `Mage casts a fireball!`, never the generic message. |
| `Decimal.IntToString` | C++/POLYMORPHISM/COMPILE_TIME/OPERATOR_OVERLOADING/binary_operator_overloading.cpp:26 | The text `cout << i` writes for an `int`. It is never empty and starts with a minus sign exactly when `i` is negative; `ParseIntToString` states that it reads back as `i`. |
| `Decimal.ParseIntToString` | C++/POLYMORPHISM/COMPILE_TIME/OPERATOR_OVERLOADING/binary_operator_overloading.cpp:26 | The decimal text written for an `int` is a well-formed literal that reads back as the same `int`. |
| `Decimal.IntToStringInjective` | C++/POLYMORPHISM/COMPILE_TIME/OPERATOR_OVERLOADING/unary_operator_overloading.cpp:24 | Two `int`s are written as the same text exactly when they are equal. |

## Left out

- data_encapsulation.cpp and initilization_list.cpp: their classes only store fields and print them. There is no computation to state, and `mobile` keeps its price in a `float`.
- Access control (`private`, `friend`): visibility is a compile-time rule of C++ and has no run-time behaviour to model. The datatypes' fields are readable by every function.
- Signed 32-bit overflow: the source does not guard against it, and it is undefined behaviour in C++. Every `int` here is a mathematical integer, so `Add`, `Area` and the increments are exact for all inputs.
- Pointers, vtables and object lifetime: a `Character*` is replaced by the object value it points at. Its constructor tag stands for the object's dynamic class.
- Output streams: `cout` is modelled only as the text each `display()`, `area` and `attack` writes, as strings. The line break that `endl` writes is included; the flush that `endl` also performs, and other stream state, are not modelled.
- `area`'s by-value parameter (friend_function.cpp:15): the copy of the rectangle that `area` receives is not modelled as a separate step. Objects here are immutable values, so no call can change a caller's variable, and a contract for the copy could not tell passing by value from passing by reference.
- The `main` functions themselves are not modelled as programs. Each is a trace function or lemma over the values it builds.

## Findings

| source | as written | input that shows it | evidently intended | confidence | as-written member | corrected member |
|---|---|---|---|---|---|---|
| C++/POLYMORPHISM/COMPILE_TIME/OPERATOR_OVERLOADING/unary_operator_overloading.cpp:37 | The comment says `inc2.display()` prints `Age : 16`. | `main` itself: `inc2(15)`, then `++inc2;` and `inc2++;`, so `age` is 17. | The comment should read `Age : 17`, because each form of `++` adds 1. | high; not executed | `UnaryOperatorOverloading.CommentedOutputIsWrong` | `UnaryOperatorOverloading.CorrectedOutputHolds` |
