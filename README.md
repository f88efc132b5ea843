# Stack class templates, modelled in Dafny

The C++ templates book examples contain one stateful component: a family of
last-in-first-out `Stack` class templates, refined step by step. There are five
variants:

- a stack over a pluggable container (a type argument in chapter 2 and a template
  template argument in chapter 5);
- a fixed-capacity stack over `std::array` plus a counter;
- a full specialisation for `std::string`;
- a partial specialisation for pointers, whose `pop()` returns the removed pointer;
- two assignment operators from a stack of another element type.

Each variant is its own Dafny class in its own module, named after what
distinguishes it. All variants keep their elements bottom first, with the back as the top.

- `Lifo` states the LIFO discipline once, over the contents as a sequence:
  `Push`, `Pop` and `Top`. It also defines `Drained`, the values read by
  repeated `top()`/`pop()` until the stack is empty, and `Converted`, an
  element-wise conversion. The lemmas relate these (LIFO order, pop undoes
  push, draining a converted copy).
- `TemplateContainerStack` (`ch05/5_7`): `Stack<T, Cont>`, the range-copy assignment
  that uses friend access, and the driver with its drain loop.
- `BoundedStack` (`ch03/3_1`): `Stack<T, Maxsize>` as an `array` of `maxSize` slots
  plus `numElems`. It also models the `pop()`/`top()` guards as the source
  writes them (see Findings).
- `StringStack` (`ch02/2_5`), `ContainerStack` (`ch02/2_7`) and `PointerStack`
  (`ch02/2_6`): the remaining variants.
- `DequeStack` (`ch05/5_5`): `Stack<T>` over a deque, and the assignment that copies
  the source into `tmp`, clears, then pops `tmp` and `push_front`s each top.

Which container a stack uses (vector, deque, allocator) affects only performance, so
every container is a `seq`. An element-type conversion in an assignment is a
parameter `conv: T2 -> T`. Each `assert` in the source becomes a `requires`.
The constructors state that a new stack is empty. `Push` and `Pop` of each class
state the whole new contents in terms of `Lifo`. `Top`, `Empty` and `Size` are
functions that read the object. They are `const` in the source, except the
fixed-capacity `top()`, which is not `const` but writes nothing.

Pop-based assignment keeps the element order: `push_front` rebuilds the source
order, and both `AssignFrom` methods prove it. The fixed-capacity `pop()` and
`top()` do not detect an empty stack (see Findings); the model's `BoundedStack.Stack`
requires `numElems > 0` there.

## Model

| member | source | states |
|---|---|---|
| Lifo.Drained | Codes/ch05/5_7/stack.cpp:31-34 | popping until empty reads every element once, the top first: element i of the result is the i-th element from the top |
| Lifo.Converted | Codes/ch05/5_7/stack.hpp:54-57 | the converted copy has the source's size and, position for position, the converted source element |
| Lifo.PushThenPop | Codes/ch02/2_5/stack2.hpp:21-30 | a push grows the stack by one and its argument becomes the top; a pop right after it restores the previous contents exactly |
| Lifo.PopThenPush | Codes/ch02/2_7/stack3.hpp:29-41 | a pop shrinks a non-empty stack by one; pushing back the top it removed restores the stack |
| Lifo.PushAllAppends | Codes/ch02/2_7/stack3.hpp:23-27 | pushing a list of values one at a time places them above the old contents in push order |
| Lifo.DrainAfterPushes | Codes/ch05/5_7/stack.hpp:29-47 | after pushes of v1..vn, draining reads vn..v1 first and only then what was there before |
| Lifo.LifoOrder | Codes/ch02/2_5/stack2.hpp:21-36 | pushing v1..vn onto an empty stack and draining it reads exactly vn..v1 |
| Lifo.DrainConverted | Codes/ch05/5_7/stack.cpp:29-34 | draining a stack assigned from another reads the converted values in the order draining the source would |
| Lifo.ConvertedTop | Codes/ch05/5_7/stack.hpp:49-59 | after assignment from a non-empty stack, the destination is non-empty and its top is the converted source top |
| Lifo.ConvertedIdentity | Codes/ch05/5_5/stackassign.hpp:5-11 | with a conversion that changes nothing, assignment reproduces the source sequence exactly |
| TemplateContainerStack.Stack.constructor | Codes/ch05/5_7/stack.hpp:9-27 | a new stack's container is empty |
| TemplateContainerStack.Stack.Push | Codes/ch05/5_7/stack.hpp:29-33 | the element is appended at the back as the new top; earlier elements unchanged |
| TemplateContainerStack.Stack.Pop | Codes/ch05/5_7/stack.hpp:35-40 | requires a non-empty stack; the old contents are the new ones plus the old top, so exactly the last element is removed |
| TemplateContainerStack.Stack.Top | Codes/ch05/5_7/stack.hpp:42-47 | requires a non-empty stack; the result is the back element, with the rest below it; reads the object only |
| TemplateContainerStack.Stack.Empty | Codes/ch05/5_7/stack.hpp:17-20 | true iff the container holds no element |
| TemplateContainerStack.Stack.AssignFrom | Codes/ch05/5_7/stack.hpp:49-59 | the old contents are dropped; afterwards the destination holds the converted source elements in the same bottom-to-top order; the source is unchanged; the destination object is returned |
| TemplateContainerStack.Drain | Codes/ch05/5_7/stack.cpp:31-34 | the loop shows the values in `Drained` order and leaves the stack empty |
| TemplateContainerStack.FloatStackFromIntStack | Codes/ch05/5_7/stack.cpp:7-22 | after the int stack holding 1, 2 is assigned to the float stack that held 3.3 and 4.4 is pushed, the float stack holds 1, 2, 4.4 bottom to top; the tops shown are 2, 3.3, 4.4 |
| TemplateContainerStack.Driver | Codes/ch05/5_7/stack.cpp:5-36 | the driver shows tops 2, 3.3, 4.4, 6.6 and draining the vector-backed stack yields 4.4, 2, 1 |
| BoundedStack.Stack.constructor | Codes/ch03/3_1/stacknontype.hpp:22-27 | a new stack has `maxSize` slots and `numElems == 0`, so it is empty and its size is 0 |
| BoundedStack.Stack.Push | Codes/ch03/3_1/stacknontype.hpp:29-35 | requires `numElems < Maxsize`; writes slot `numElems` only, increments the counter, keeps `numElems <= Maxsize`; contents grow by the element |
| BoundedStack.Stack.Pop | Codes/ch03/3_1/stacknontype.hpp:37-42 | requires `numElems > 0` (the intended guard); only decrements the counter, writes no slot, keeps `numElems <= Maxsize`; the contents lose their top |
| BoundedStack.Stack.Top | Codes/ch03/3_1/stacknontype.hpp:44-49 | requires `numElems > 0` (the intended guard); slot `numElems-1` is the top of the live contents; reads only |
| BoundedStack.Stack.Empty | Codes/ch03/3_1/stacknontype.hpp:14-16 | true iff no element is live (`numElems == 0`) |
| BoundedStack.Stack.Size | Codes/ch03/3_1/stacknontype.hpp:17-19 | the number of live elements, never above the capacity |
| BoundedStack.PopAsWrittenAcceptsEmpty | Codes/ch03/3_1/stacknontype.hpp:37-42 | as written, `pop()` on an empty stack of non-zero capacity passes its assertion and wraps the counter to `SIZE_MAX`, far above the capacity |
| BoundedStack.TopAsWrittenReadsOutside | Codes/ch03/3_1/stacknontype.hpp:44-49 | as written, `top()` on an empty stack of non-zero capacity passes its assertion and reads index `SIZE_MAX`, outside the array |
| BoundedStack.Driver | Codes/ch03/3_1/stacknontype.cpp:4-17 | the capacity-20 int stack shows 7 and the capacity-40 string stack shows "hello"; all stacks are empty at the end |
| StringStack.StringStack.constructor | Codes/ch02/2_5/stack2.hpp:6-19 | a new string stack is empty |
| StringStack.StringStack.Push | Codes/ch02/2_5/stack2.hpp:21-24 | a copy of the string is appended at the back as the new top |
| StringStack.StringStack.Pop | Codes/ch02/2_5/stack2.hpp:26-30 | requires a non-empty stack; removes the back element, which is the top |
| StringStack.StringStack.Top | Codes/ch02/2_5/stack2.hpp:32-36 | requires a non-empty stack; the back element, read only |
| StringStack.StringStack.Empty | Codes/ch02/2_5/stack2.hpp:15-18 | true iff the deque is empty |
| StringStack.PushPop | Codes/ch02/2_5/stack2.hpp:21-30 | pushing a string shows it as the top, and popping it restores the previous contents |
| ContainerStack.Stack.constructor | Codes/ch02/2_7/stack3.hpp:4-21 | a new stack's container is empty, whichever container type is chosen |
| ContainerStack.Stack.Push | Codes/ch02/2_7/stack3.hpp:23-27 | the element is appended at the back as the new top |
| ContainerStack.Stack.Pop | Codes/ch02/2_7/stack3.hpp:29-34 | requires a non-empty stack; removes only the back element |
| ContainerStack.Stack.Top | Codes/ch02/2_7/stack3.hpp:36-41 | requires a non-empty stack; the back element, read only |
| ContainerStack.Stack.Empty | Codes/ch02/2_7/stack3.hpp:17-20 | true iff the container is empty |
| ContainerStack.Driver | Codes/ch02/2_7/stack3test.cpp:5-24 | the int stack over a vector shows 7, the double stack over a deque shows 42.42, and both are empty again after their pops |
| PointerStack.PointerStack.constructor | Codes/ch02/2_6/stackpartspec.hpp:5-23 | a new pointer stack is empty |
| PointerStack.PointerStack.Push | Codes/ch02/2_6/stackpartspec.hpp:25-29 | the pointer value is appended at the back |
| PointerStack.PointerStack.Pop | Codes/ch02/2_6/stackpartspec.hpp:31-38 | requires a non-empty stack; returns what `top()` returned before and removes exactly that element; only the stack changes |
| PointerStack.PointerStack.Top | Codes/ch02/2_6/stackpartspec.hpp:40-45 | requires a non-empty stack; the last pointer, left in place |
| PointerStack.PointerStack.Empty | Codes/ch02/2_6/stackpartspec.hpp:19-22 | true iff the vector is empty |
| PointerStack.PushTwicePopTwice | Codes/ch02/2_6/stackpartspec.hpp:25-38 | pushing x then y and popping twice returns y, then x, and leaves the stack empty |
| DequeStack.Stack.constructor | Codes/ch05/5_5/stackdecl.hpp:1-5 | a new stack's deque is empty |
| DequeStack.Stack.Copy | Codes/ch05/5_5/stackassign.hpp:5 | the copy holds the same elements as the original |
| DequeStack.Stack.Push | Codes/ch05/5_5/stackdecl.hpp:7 | the element is appended as the new top |
| DequeStack.Stack.Pop | Codes/ch05/5_5/stackdecl.hpp:8 | requires a non-empty stack; removes exactly the top |
| DequeStack.Stack.Top | Codes/ch05/5_5/stackdecl.hpp:9 | requires a non-empty stack; the back element, a const query |
| DequeStack.Stack.Empty | Codes/ch05/5_5/stackdecl.hpp:10-13 | true iff the deque is empty |
| DequeStack.Stack.AssignFrom | Codes/ch05/5_5/stackassign.hpp:1-13 | the old contents are dropped; afterwards the destination equals the converted source, element for element, bottom to top, so the sizes match; a distinct source is unchanged; the destination is returned |
| DequeStack.AssignToItself | Codes/ch05/5_5/stackassign.hpp:5-11 | assigning a stack to itself with the identity conversion leaves its contents as they were |

In `DequeStack.Stack.AssignFrom`, the loop invariant says what happens after each pop
and `push_front`. `tmp` still holds the bottom part of the source. The destination holds the
converted rest, in source order. The loop ends when `tmp` is empty, with `|tmp|` as its measure.

## Findings

| source | as written | input that shows it | evidently intended | confidence | as-written member | corrected member |
|---|---|---|---|---|---|---|
| Codes/ch03/3_1/stacknontype.hpp:40 | `pop()` asserts `!elems.empty()` on the `std::array`, which is false only when `Maxsize == 0` | `Stack<int,20>` freshly built, then `pop()`: the assertion passes and `--numElems` wraps to `SIZE_MAX` | assert `numElems > 0` | not executed | BoundedStack.PopAsWrittenAcceptsEmpty | BoundedStack.Stack.Pop |
| Codes/ch03/3_1/stacknontype.hpp:47 | `top()` makes the same assertion, then reads `elems[numElems - 1]` | `Stack<int,20>` freshly built, then `top()`: the assertion passes and index `SIZE_MAX` is read, outside the array | assert `numElems > 0` | not executed | BoundedStack.TopAsWrittenReadsOutside | BoundedStack.Stack.Top |

## Left out

- Output through `std::cout` in the drivers. A driver method returns the values it would print instead.
- Floating point. `float` and `double` are Dafny `real`, so `4.4f` widened to `double` is the exact 4.4 here.
- Containers and allocators. Deque, vector and allocator arguments are all a `seq`. Template
  selection (which specialisation an instantiation binds to) is not modelled: each variant is its own class.
- `Codes/ch02/2_6/stackpartspec.hpp:17` lacks its `;`, so the header as written does not compile. The
  model uses the evident declaration, `T* top() const;`.
- Pointers. A pointer is a value of the type parameter `P`, never dereferenced. Null pointers and
  what a pointer points to are not modelled, except that no method may change anything but the stack.
- The definitions of `push`, `pop` and `top` that go with `Codes/ch05/5_5/stackdecl.hpp` are not shown
  there. They are modelled as their declarations and comments describe them, with the same
  behaviour as the other stacks.
- `Codes/ch02/2_1/stack1.hpp`, `Codes/ch03/3_4/stackauto.hpp` and their drivers are not part of this model.
- TemplateContainerStack.Stack.AssignFrom: requires that the source is a different object from the destination.
  In C++, `s = s` on one stack type selects the implicit copy assignment, not this template.
  Called explicitly on itself, the template would clear the container it then copies from.
- BoundedStack.Stack.Pop: requires `numElems > 0`, which the source means but does not check (see Findings).
- BoundedStack.Stack.Top: requires `numElems > 0`, which the source means but does not check (see Findings).
- The width of `std::size_t`. The fixed-capacity counter is a `nat` bounded by the capacity, and the
  as-written guards assume a 64-bit `size_t`. Other behaviour does not depend on the width.
- Assertions compiled out with `NDEBUG`. Every `assert` is modelled as a precondition.
