/**
 The `Rectangle` class of friend_function.cpp: two private `int` fields and a
 free function `area`, declared a friend so that it may read them. Access
 control itself is not modelled; `Area` simply reads the fields.
 */
module FriendFunction {

  import opened Locals
  import Decimal

  /** `Rectangle(int x, int y) : length(x), breadth(y)` stores both arguments as given. */
  datatype Rectangle = Rectangle(length: int, breadth: int)

  /** The quantity `area` computes from its by-value copy of the rectangle. */
  function Area(rec: Rectangle): int {
    rec.length * rec.breadth
  }

  /** Exchanging the two sides leaves the area as it was. */
  lemma AreaSymmetric(rec: Rectangle)
    ensures Area(Rectangle(rec.breadth, rec.length)) == Area(rec)
  {
  }

  const ReportPrefix: string := "AREA OF THE RECTANGLE "

  /** The text `area(rec)` writes (no line break follows it). */
  function Report(rec: Rectangle): string {
    ReportPrefix + Decimal.IntToString(Area(rec))
  }

  /** The report carries the product of the two fields and nothing else: reading the number back gives the area. */
  lemma ReportStatesArea(rec: Rectangle)
    ensures |Report(rec)| > |ReportPrefix| && Report(rec)[..|ReportPrefix|] == ReportPrefix
    ensures Decimal.IsIntLiteral(Report(rec)[|ReportPrefix|..])
    ensures Decimal.ParseInt(Report(rec)[|ReportPrefix|..]) == rec.length * rec.breadth
  {
    assert Report(rec)[|ReportPrefix|..] == Decimal.IntToString(Area(rec));
    Decimal.ParseIntToString(Area(rec));
  }

  /** The variables of `main` once `r` is constructed. */
  function MainEnv(): Env<Rectangle> {
    Assign(map[], "r", Rectangle(5, 5))
  }

  /** `main`: `Rectangle r(5,5); area(r);` reports 25. */
  lemma MainTraceHolds()
    ensures Area(MainEnv()["r"]) == 25
    ensures MainEnv()["r"] == Rectangle(5, 5)
    ensures Report(MainEnv()["r"]) == "AREA OF THE RECTANGLE 25"
  {
  }
}
