/** The full specialisation `Stack<std::string>`: strings kept in a deque
    whose back is the top. */
module StringStack {
  import Lifo

  class StringStack {
    var elems: seq<string>

    constructor ()
      ensures elems == []
    {
      elems := [];
    }

    /** `push_back` of a copy of the string. */
    method Push(elem: string)
      modifies this
      ensures elems == Lifo.Push(old(elems), elem)
    {
      elems := elems + [elem];
    }

    /** `pop_back`: the back is the top, whatever the source's comment
        calls it. The source asserts that the stack is not empty. */
    method Pop()
      requires elems != []
      modifies this
      ensures old(elems) == Lifo.Push(elems, Lifo.Top(old(elems)))
    {
      elems := elems[..|elems| - 1];
    }

    /** `back()`, a const query. */
    function Top(): (r: string)
      requires elems != []
      reads this
      ensures elems == Lifo.Push(elems[..|elems| - 1], r)
    {
      elems[|elems| - 1]
    }

    function Empty(): (b: bool)
      reads this
      ensures b <==> |elems| == 0
    {
      elems == []
    }
  }

  /** Pushing a string and popping it again leaves the stack as it was,
      and in between the string is the top. */
  method PushPop(s: StringStack, x: string) returns (shown: string)
    modifies s
    ensures shown == x
    ensures s.elems == old(s.elems)
  {
    s.Push(x);
    shown := s.Top();
    s.Pop();
    Lifo.PushThenPop(old(s.elems), x);
  }
}
