/** The partial specialisation `Stack<T*>`. The type parameter `P` stands
    for the pointer type `T*`: the stack copies and returns addresses and
    never follows one, so its methods change nothing but the stack. */
module PointerStack {
  import Lifo

  class PointerStack<P> {
    /** The vector of pointers, bottom first; the back is the top. */
    var elems: seq<P>

    constructor ()
      ensures elems == []
    {
      elems := [];
    }

    method Push(elem: P)
      modifies this
      ensures elems == Lifo.Push(old(elems), elem)
    {
      elems := elems + [elem];
    }

    /** Reads the back, removes it and returns it; the source asserts
        that the stack is not empty. */
    method Pop() returns (p: P)
      requires elems != []
      modifies this
      ensures p == old(Top())
      ensures elems == Lifo.Pop(old(elems))
    {
      p := elems[|elems| - 1];
      elems := elems[..|elems| - 1];
    }

    /** The last pointer, left in place. */
    function Top(): (r: P)
      requires elems != []
      reads this
      ensures elems == Lifo.Push(elems[..|elems| - 1], r)
    {
      elems[|elems| - 1]
    }

    function Empty(): (b: bool)
      reads this
      ensures b <==> |elems| == 0
    {
      elems == []
    }
  }

  /** Pushing two addresses and popping twice returns them in reverse
      order and leaves the stack empty. */
  method PushTwicePopTwice<P>(x: P, y: P) returns (first: P, second: P, emptyAfter: bool)
    ensures first == y && second == x && emptyAfter
  {
    var s := new PointerStack<P>();
    s.Push(x);
    s.Push(y);
    first := s.Pop();
    second := s.Pop();
    emptyAfter := s.Empty();
  }
}
