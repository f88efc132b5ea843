/** `Stack<T, Cont>` whose container is a template template parameter
    (`std::deque` by default, `std::vector` on request), with a templated
    assignment from a stack of another element type and container. Every
    container is a sequence here: which one is chosen changes performance,
    not behaviour. */
module TemplateContainerStack {
  import Lifo

  class Stack<T> {
    /** The container, bottom first; the back is the top. */
    var elems: seq<T>

    /** The implicit default constructor: an empty container. */
    constructor ()
      ensures elems == []
    {
      elems := [];
    }

    /** `push_back` of a copy of `elem`. */
    method Push(elem: T)
      modifies this
      ensures elems == Lifo.Push(old(elems), elem)
    {
      elems := elems + [elem];
    }

    /** `pop_back`; the source asserts that the stack is not empty. */
    method Pop()
      requires elems != []
      modifies this
      ensures old(elems) == Lifo.Push(elems, Lifo.Top(old(elems)))
    {
      elems := elems[..|elems| - 1];
    }

    /** `back()`, a const query. */
    function Top(): (r: T)
      requires elems != []
      reads this
      ensures elems == Lifo.Push(elems[..|elems| - 1], r)
    {
      elems[|elems| - 1]
    }

    function Empty(): (b: bool)
      reads this
      ensures b <==> |elems| == 0
    {
      elems == []
    }

    /** `*this = op2` for a stack of element type T2: clear, then insert
        the whole range of `op2`'s container (read through friend access),
        each element converted by `conv`. The source stack is only read.
        Assigning a stack of the same type to itself selects the implicit
        copy assignment in C++, never this template, so the source is a
        different object. */
    method AssignFrom<T2>(src: Stack<T2>, conv: T2 -> T) returns (self: Stack<T>)
      requires src as object != this as object
      modifies this
      ensures elems == Lifo.Converted(conv, src.elems)
      ensures src.elems == old(src.elems)
      ensures self == this
    {
      elems := [];
      elems := Lifo.Converted(conv, src.elems) + elems;
      self := this;
    }
  }

  /** The loop `while (!s.empty()) { s.top(); s.pop(); }` of the driver,
      returning what `top()` showed on each round. */
  method Drain<T>(s: Stack<T>) returns (shown: seq<T>)
    modifies s
    ensures shown == Lifo.Drained(old(s.elems))
    ensures s.elems == []
  {
    shown := [];
    while !s.Empty()
      invariant shown + Lifo.Drained(s.elems) == Lifo.Drained(old(s.elems))
      decreases |s.elems|
    {
      ghost var before := s.elems;
      shown := shown + [s.Top()];
      s.Pop();
      assert Lifo.Drained(before) == [Lifo.Top(before)] + Lifo.Drained(s.elems);
    }
  }

  /** The first half of the driver: an int stack holding 1, 2 is assigned
      to a float stack that held 3.3, and 4.4 is pushed there. Returns that
      float stack and the tops the driver shows on the way. */
  method FloatStackFromIntStack() returns (fStack: Stack<real>, tops: seq<real>)
    ensures fresh(fStack)
    ensures fStack.elems == [1.0, 2.0, 4.4]
    ensures tops == [2.0, 3.3, 4.4]
  {
    var iStack := new Stack<int>();
    fStack := new Stack<real>();
    iStack.Push(1);
    iStack.Push(2);
    var t1 := iStack.Top();
    fStack.Push(3.3);
    var t2 := fStack.Top();
    var toFloat := (i: int) => i as real;
    var _ := fStack.AssignFrom(iStack, toFloat);
    assert fStack.elems[0] == 1.0 && fStack.elems[1] == 2.0;
    fStack.Push(4.4);
    tops := [t1 as real, t2, fStack.Top()];
  }

  /** The driver of this stack: after the first half, a double stack over a
      vector holding 5.5, 6.6 is assigned from the float stack and drained.
      Returns the tops the driver shows, in order, and the drained values. */
  method Driver() returns (tops: seq<real>, drained: seq<real>)
    ensures tops == [2.0, 3.3, 4.4, 6.6]
    ensures drained == [4.4, 2.0, 1.0]
  {
    var fStack, shown := FloatStackFromIntStack();
    var vStack := new Stack<real>();
    vStack.Push(5.5);
    vStack.Push(6.6);
    tops := shown + [vStack.Top()];
    var _ := vStack.AssignFrom(fStack, (f: real) => f);
    assert vStack.elems == [1.0, 2.0, 4.4];
    drained := Drain(vStack);
    assert drained[0] == 4.4 && drained[1] == 2.0 && drained[2] == 1.0;
  }
}
