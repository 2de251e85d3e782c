/** The predicate the cluster optimizer uses to decide whether another move
    point can be placed. */
module Optimize {
  import opened Playable

  /** A Python value as `and` returns it: the first falsy operand, or the
      last one. */
  datatype PyValue = PyBool(b: bool) | PyInt(i: int)

  predicate Truthy(v: PyValue) {
    match v
    case PyBool(b) => b
    case PyInt(i) => i != 0
  }

  /** `new_point(locations, group, remaining)`: `len(locations) > 1 and
      len(group) and remaining > 0`, returned as Python returns it. */
  function NewPoint(locations: seq<int>, group: seq<PlayableNote>, remaining: int): (r: PyValue)
    ensures Truthy(r) <==> |locations| > 1 && |group| > 0 && remaining > 0
    ensures |locations| <= 1 ==> r == PyBool(false)
    ensures |locations| > 1 && |group| == 0 ==> r == PyInt(0)
    ensures |locations| > 1 && |group| > 0 ==> r == PyBool(remaining > 0)
  {
    var anotherLocation := |locations| > 1;
    var anotherGroup := |group|;
    var anotherRemaining := remaining > 0;
    if !anotherLocation then PyBool(anotherLocation)
    else if anotherGroup == 0 then PyInt(anotherGroup)
    else PyBool(anotherRemaining)
  }
}
