/**
 The `Character` hierarchy of virtual_function.cpp: a base class with a
 virtual `attack` and two subclasses, `Warrior` and `Mage`, that override it.
 A `Character*` may point at an object of any of the three classes; the call
 `player1->attack()` runs the implementation of the class of the object it
 points at. Here the object is a value whose constructor is its class, and
 the call is a `match` on that constructor.
 */
module VirtualFunction {

  /** The dynamic class of an object reachable through a `Character*`. */
  datatype Character = Generic | Warrior | Mage

  /** What `Character::attack` writes: the default that a subclass inherits unless it overrides it. */
  const GenericAttack: string := "Character attacks in a generic way!\n"
  const WarriorAttack: string := "Warrior swings a sword!\n"
  const MageAttack: string := "Mage casts a fireball!\n"

  /** Whether the object's class supplies its own `attack`. */
  predicate Overrides(c: Character) {
    c != Generic
  }

  /**
   What the virtual call `attack()` writes for an object of class `c`. A
   class that does not override `attack` gets the base message, and one that
   does never gets it.
   */
  function Attack(c: Character): (msg: string)
    ensures msg == GenericAttack <==> !Overrides(c)
  {
    match c
    case Generic => GenericAttack
    case Warrior => WarriorAttack
    case Mage => MageAttack
  }

  /** Each class has its own message, so the output identifies the object's class. */
  lemma AttackIdentifiesClass(a: Character, b: Character)
    ensures Attack(a) == Attack(b) <==> a == b
  {
  }

  /**
   The output of a sequence of calls `player1->attack()`, with `player1`
   bound to the objects of `bindings` in turn. The pointer's declared type
   is `Character` throughout; only the object it points at is an input.
   */
  function Run(bindings: seq<Character>): (out: seq<string>)
    ensures |out| == |bindings|
    ensures forall i :: 0 <= i < |bindings| ==> out[i] == Attack(bindings[i])
  {
    if bindings == [] then [] else [Attack(bindings[0])] + Run(bindings[1..])
  }

  /** Rebinding the pointer to an object of another class changes what the call writes. */
  lemma RebindingSwitchesOutput(a: Character, b: Character)
    requires a != b
    ensures Run([a, b])[0] != Run([a, b])[1]
  {
  }

  /** `main`: `player1 = &w;` then `player1 = &m;` prints the Warrior line and then the Mage line. */
  lemma MainTraceHolds()
    ensures Run([Warrior, Mage]) == ["Warrior swings a sword!\n", "Mage casts a fireball!\n"]
    ensures GenericAttack !in Run([Warrior, Mage])
  {
  }
}
