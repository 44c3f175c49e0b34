/** The path states a connection-test suite keeps, and the one operation a peer
    can trigger on them from outside: reporting a path as unreachable. */
module Paths {

  datatype PathState = Waiting | Running | Done | Unavailable | Stopped

  /** What reporting path i leaves behind, and whether the report was accepted. */
  function Mark(paths: seq<PathState>, i: int): (seq<PathState>, bool)
  {
    if i < 0 || i >= |paths| || paths[i].Running? || paths[i].Done? then (paths, false)
    else (paths[i := Unavailable], true)
  }

  /** The suite's shared table, guarded by its mutex. */
  class PathTable {
    var states: seq<PathState>
    var errors: seq<string>
    var changed: bool // the one-slot channel that wakes the suite's loop

    ghost predicate Valid() reads this { |errors| == |states| }

    constructor (prepared: seq<bool>)
      ensures Valid() && !changed
      ensures states == seq(|prepared|, i requires 0 <= i < |prepared| => if prepared[i] then Waiting else Unavailable)
    {
      states := seq(|prepared|, i requires 0 <= i < |prepared| => if prepared[i] then Waiting else Unavailable);
      errors := seq(|prepared|, i => "");
      changed := false;
    }

    /** Refused for a running or finished path; the first reason given is kept,
        and only the report that changes the state wakes the loop. */
    method MarkUnavailable(i: int, reason: string) returns (accepted: bool)
      requires Valid()
      modifies this
      ensures Valid()
      ensures (states, accepted) == Mark(old(states), i)
      ensures accepted <==> 0 <= i < |old(states)| && !old(states)[i].Running? && !old(states)[i].Done?
      ensures states == if accepted then old(states)[i := Unavailable] else old(states)
      ensures changed == (old(changed) || states != old(states))
      ensures accepted && !old(states)[i].Unavailable? ==> errors == old(errors)[i := reason]
      ensures !accepted || old(states)[i].Unavailable? ==> errors == old(errors)
    {
      if i < 0 || i >= |states| || states[i].Running? || states[i].Done? {
        return false;
      }
      if states[i].Unavailable? {
        assert states[i := Unavailable] == states;
        return true;
      }
      states := states[i := Unavailable];
      errors := errors[i := reason];
      changed := true;
      assert states[i] != old(states)[i];
      return true;
    }
  }
}
