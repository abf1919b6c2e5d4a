/**
 The local variables of a demonstration `main`, by name. Each snippet's
 objects are plain values held in named variables; a statement that changes
 one object rebinds one name and leaves every other object as it was.
 */
module Locals {

  type Env<T> = map<string, T>

  /** Binding `x` to `v` (a declaration or an assignment `x = v;`). */
  function Assign<T>(env: Env<T>, x: string, v: T): (r: Env<T>)
    ensures r.Keys == env.Keys + {x}
    ensures r[x] == v
    ensures forall y :: y in env && y != x ==> r[y] == env[y]
  {
    env[x := v]
  }
}
