/** `Stack<T, Maxsize>`: a fixed-capacity stack over a `std::array<T,
    Maxsize>` plus a counter `numElems`. Slots at and above `numElems`
    exist but hold nothing the stack reports. */
module BoundedStack {
  import Lifo

  /** `SIZE_MAX + 1` for a 64-bit `std::size_t`, the type of `numElems`. */
  const SizeModulus: nat := 0x1_0000_0000_0000_0000

  class Stack<T(0)> {
    /** The template argument `Maxsize`, fixed per stack type. */
    const maxSize: nat
    var elems: array<T>
    var numElems: nat

    /** The counter never exceeds the capacity and the array has exactly
        `maxSize` slots. */
    ghost predicate Valid()
      reads this
    {
      elems.Length == maxSize && numElems <= maxSize
    }

    /** The live elements, bottom first. */
    ghost function Contents(): seq<T>
      requires Valid()
      reads this, elems
    {
      elems[..numElems]
    }

    /** Default-initialised slots and `numElems(0)`. */
    constructor (maxSize: nat)
      ensures Valid() && fresh(elems)
      ensures this.maxSize == maxSize && numElems == 0
      ensures Contents() == [] && Empty() && Size() == 0
    {
      this.maxSize := maxSize;
      elems := new T[maxSize];
      numElems := 0;
    }

    /** Writes slot `numElems`, then increments it; the source asserts
        that there is room. */
    method Push(elem: T)
      requires Valid() && numElems < maxSize
      modifies this`numElems, elems
      ensures Valid()
      ensures numElems == old(numElems) + 1
      ensures elems[..] == old(elems[..])[old(numElems) := elem]
      ensures Contents() == Lifo.Push(old(Contents()), elem)
    {
      elems[numElems] := elem;
      numElems := numElems + 1;
    }

    /** Only decrements `numElems`: no slot is written. The precondition
        is the one the source means to assert (see PopAsWritten). */
    method Pop()
      requires Valid() && numElems > 0
      modifies this`numElems
      ensures Valid()
      ensures numElems == old(numElems) - 1
      ensures elems[..] == old(elems[..])
      ensures Contents() == Lifo.Pop(old(Contents()))
    {
      numElems := numElems - 1;
    }

    /** The slot below `numElems`. The source's `top()` is not `const` but
        writes nothing, so it is a function; the precondition is the
        intended one (see TopIndexAsWritten). */
    function Top(): (r: T)
      requires Valid() && numElems > 0
      reads this, elems
      ensures r == Lifo.Top(Contents())
    {
      elems[numElems - 1]
    }

    function Empty(): (b: bool)
      requires Valid()
      reads this, elems
      ensures b <==> Contents() == []
    {
      numElems == 0
    }

    function Size(): (n: nat)
      requires Valid()
      reads this, elems
      ensures n == |Contents()| && n <= maxSize
    {
      numElems
    }
  }

  /** Whether `pop()` as written stops at its assertion or goes on. */
  datatype PopOutcome = AssertionFails | Decremented(numElems: nat)

  /** `std::array<T, Maxsize>::empty()`, which `pop()` and `top()` assert
      against: it depends on the capacity only, not on `numElems`. */
  function ArrayEmpty(maxSize: nat): (b: bool)
  {
    maxSize == 0
  }

  /** What `pop()` does as written: the assertion on `ArrayEmpty`, then
      `--numElems`, which wraps around as a `size_t`. */
  function PopAsWritten(maxSize: nat, numElems: nat): (r: PopOutcome)
    requires numElems < SizeModulus
  {
    if ArrayEmpty(maxSize) then AssertionFails
    else Decremented((numElems + SizeModulus - 1) % SizeModulus)
  }

  /** The index `top()` reads as written, `numElems - 1` in `size_t`. */
  function TopIndexAsWritten(numElems: nat): (i: nat)
    requires numElems < SizeModulus
  {
    (numElems + SizeModulus - 1) % SizeModulus
  }

  /** As written, popping an empty stack of any non-zero capacity passes
      the assertion and leaves a counter far above the capacity. */
  lemma PopAsWrittenAcceptsEmpty(maxSize: nat)
    requires 0 < maxSize < SizeModulus - 1
    ensures PopAsWritten(maxSize, 0) == Decremented(SizeModulus - 1)
    ensures SizeModulus - 1 > maxSize
  {
  }

  /** As written, `top()` on an empty stack of any non-zero capacity
      passes the assertion and reads outside the array. */
  lemma TopAsWrittenReadsOutside(maxSize: nat)
    requires 0 < maxSize < SizeModulus
    ensures !ArrayEmpty(maxSize)
    ensures TopIndexAsWritten(0) >= maxSize
  {
  }

  /** The source's driver: a capacity-20 int stack pushes 7, shows the top
      and pops; a capacity-40 string stack does the same with "hello". */
  method Driver() returns (shownInt: int, shownString: string, emptyAfter: bool)
    ensures shownInt == 7 && shownString == "hello" && emptyAfter
  {
    var int20Stack := new Stack<int>(20);
    var int40Stack := new Stack<int>(40);
    var stringStack := new Stack<string>(40);
    int20Stack.Push(7);
    shownInt := int20Stack.Top();
    int20Stack.Pop();
    stringStack.Push("hello");
    shownString := stringStack.Top();
    stringStack.Pop();
    emptyAfter := int20Stack.Empty() && stringStack.Empty() && int40Stack.Empty();
  }
}
