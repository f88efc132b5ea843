/** `Stack<T>` over a `std::deque<T>`, with an assignment operator from a
    stack of any element type T2 written against the source's public
    interface only: copy it, then pop the copy and `push_front` each top. */
module DequeStack {
  import Lifo

  class Stack<T> {
    /** The deque, bottom first; the back is the top. */
    var elems: seq<T>

    constructor ()
      ensures elems == []
    {
      elems := [];
    }

    /** The implicit copy constructor: an independent copy of the deque. */
    constructor Copy(other: Stack<T>)
      ensures elems == other.elems
    {
      elems := other.elems;
    }

    method Push(elem: T)
      modifies this
      ensures elems == Lifo.Push(old(elems), elem)
    {
      elems := elems + [elem];
    }

    method Pop()
      requires elems != []
      modifies this
      ensures old(elems) == Lifo.Push(elems, Lifo.Top(old(elems)))
    {
      elems := elems[..|elems| - 1];
    }

    /** A const query for the back element. */
    function Top(): (r: T)
      requires elems != []
      reads this
      ensures elems == Lifo.Push(elems[..|elems| - 1], r)
    {
      elems[|elems| - 1]
    }

    function Empty(): (b: bool)
      reads this
      ensures b <==> |elems| == 0
    {
      elems == []
    }

    /** `*this = op2`: the old contents are dropped and the destination
        holds the converted source elements in the source's bottom-to-top
        order. Only the copy `tmp` is popped, so the source keeps its
        contents; since the copy is taken before anything is cleared, this
        holds when the source is the destination itself. */
    method AssignFrom<T2>(src: Stack<T2>, conv: T2 -> T) returns (self: Stack<T>)
      modifies this
      ensures elems == Lifo.Converted(conv, old(src.elems))
      ensures src as object != this as object ==> src.elems == old(src.elems)
      ensures self == this
    {
      var tmp := new Stack<T2>.Copy(src);
      elems := [];
      while !tmp.Empty()
        invariant tmp.elems == old(src.elems)[..|tmp.elems|]
        invariant elems == Lifo.Converted(conv, old(src.elems)[|tmp.elems|..])
        decreases |tmp.elems|
      {
        var k := |tmp.elems|;
        elems := [conv(tmp.Top())] + elems;
        tmp.Pop();
        assert old(src.elems)[k - 1..][1..] == old(src.elems)[k..];
      }
      self := this;
    }
  }

  /** Assigning a stack to itself through the templated operator, with
      the identity conversion, leaves it as it was. */
  method AssignToItself<T>(s: Stack<T>)
    modifies s
    ensures s.elems == old(s.elems)
  {
    var id := (x: T) => x;
    var _ := s.AssignFrom(s, id);
    Lifo.ConvertedIdentity(id, old(s.elems));
  }
}
