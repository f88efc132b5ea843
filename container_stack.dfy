/** `Stack<T, Cont = std::vector<T>>`: the container is a type argument.
    A vector (the default) and a deque (as the test chooses) behave alike
    through `push_back`, `pop_back` and `back`, so both are a sequence. */
module ContainerStack {
  import Lifo

  class Stack<T> {
    /** The container, bottom first; the back is the top. */
    var elems: seq<T>

    constructor ()
      ensures elems == []
    {
      elems := [];
    }

    method Push(elem: T)
      modifies this
      ensures elems == Lifo.Push(old(elems), elem)
    {
      elems := elems + [elem];
    }

    /** `pop_back`; the source asserts that the stack is not empty. */
    method Pop()
      requires elems != []
      modifies this
      ensures old(elems) == Lifo.Push(elems, Lifo.Top(old(elems)))
    {
      elems := elems[..|elems| - 1];
    }

    /** `back()`, a const query. */
    function Top(): (r: T)
      requires elems != []
      reads this
      ensures elems == Lifo.Push(elems[..|elems| - 1], r)
    {
      elems[|elems| - 1]
    }

    function Empty(): (b: bool)
      reads this
      ensures b <==> |elems| == 0
    {
      elems == []
    }
  }

  /** The test: an int stack over the default vector and a double stack
      over a deque each push a value, show the top and pop it. */
  method Driver() returns (shownInt: int, shownDouble: real, emptyAfter: bool)
    ensures shownInt == 7 && shownDouble == 42.42 && emptyAfter
  {
    var intStack := new Stack<int>();
    var dblStack := new Stack<real>();
    intStack.Push(7);
    shownInt := intStack.Top();
    intStack.Pop();
    dblStack.Push(42.42);
    shownDouble := dblStack.Top();
    dblStack.Pop();
    emptyAfter := intStack.Empty() && dblStack.Empty();
  }
}
