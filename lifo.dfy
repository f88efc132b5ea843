/** The last-in-first-out discipline shared by every Stack variant of the
    book's examples, stated once over the stack's contents as a sequence
    (bottom first, top last). The classes in the other modules keep their
    elements in a field and promise their effects in terms of these
    functions; the lemmas here say what those effects mean together. */
module Lifo {

  /** The contents after pushing `x`: `x` becomes the new top. */
  function Push<T>(s: seq<T>, x: T): (r: seq<T>)
  {
    s + [x]
  }

  /** The element a `top()` query returns: the most recently pushed one. */
  function Top<T>(s: seq<T>): (r: T)
    requires s != []
  {
    s[|s| - 1]
  }

  /** The contents after `pop()`: the top is gone, the rest stays. */
  function Pop<T>(s: seq<T>): (r: seq<T>)
    requires s != []
  {
    s[..|s| - 1]
  }

  /** Pushing `vs[0]`, then `vs[1]`, ... one at a time. */
  function PushAll<T>(s: seq<T>, vs: seq<T>): (r: seq<T>)
    decreases |vs|
  {
    if vs == [] then s else PushAll(Push(s, vs[0]), vs[1..])
  }

  /** The values read by `while (!empty()) { top(); pop(); }`, in the
      order they are read: the top first. */
  function Drained<T>(s: seq<T>): (r: seq<T>)
    ensures |r| == |s|
    ensures forall i :: 0 <= i < |s| ==> r[i] == s[|s| - 1 - i]
    decreases |s|
  {
    if s == [] then [] else [Top(s)] + Drained(Pop(s))
  }

  /** Each element converted to another element type, in the same
      bottom-to-top order. */
  function Converted<A, B>(conv: A -> B, s: seq<A>): (r: seq<B>)
    ensures |r| == |s|
    ensures forall i :: 0 <= i < |s| ==> r[i] == conv(s[i])
    decreases |s|
  {
    if s == [] then [] else [conv(s[0])] + Converted(conv, s[1..])
  }

  /** A push grows the stack by one, its argument is the new top, and a
      pop right after it restores the previous contents exactly. */
  lemma PushThenPop<T>(s: seq<T>, x: T)
    ensures |Push(s, x)| == |s| + 1
    ensures Top(Push(s, x)) == x
    ensures Pop(Push(s, x)) == s
  {
  }

  /** Pushing back the top that was just popped restores the stack. */
  lemma PopThenPush<T>(s: seq<T>)
    requires s != []
    ensures |Pop(s)| == |s| - 1
    ensures Push(Pop(s), Top(s)) == s
  {
  }

  /** Pushing a list of values appends them above the old contents. */
  lemma {:induction false} PushAllAppends<T>(s: seq<T>, vs: seq<T>)
    ensures PushAll(s, vs) == s + vs
    decreases |vs|
  {
    if vs != [] {
      PushAllAppends(Push(s, vs[0]), vs[1..]);
      assert s + [vs[0]] + vs[1..] == s + vs;
    }
  }

  /** LIFO: pushing v1 .. vn and then popping until empty reads vn .. v1
      first and only then what was there before. */
  lemma {:induction false} DrainAfterPushes<T>(s: seq<T>, vs: seq<T>)
    ensures Drained(PushAll(s, vs)) == Drained(vs) + Drained(s)
  {
    PushAllAppends(s, vs);
    var d, e := Drained(s + vs), Drained(vs) + Drained(s);
    assert |d| == |e|;
    forall i | 0 <= i < |d|
      ensures d[i] == e[i]
    {
      if i < |vs| {
        assert d[i] == (s + vs)[|s| + |vs| - 1 - i] == vs[|vs| - 1 - i];
      } else {
        assert d[i] == (s + vs)[|s| + |vs| - 1 - i] == s[|s| - 1 - (i - |vs|)];
      }
    }
  }

  /** Draining a stack filled from empty by pushes of `vs` reads `vs`
      backwards. */
  lemma LifoOrder<T>(vs: seq<T>)
    ensures |Drained(PushAll([], vs))| == |vs|
    ensures forall i :: 0 <= i < |vs| ==> Drained(PushAll([], vs))[i] == vs[|vs| - 1 - i]
  {
    PushAllAppends([], vs);
    assert [] + vs == vs;
  }

  /** A converted copy is drained in the same order as its source, one
      converted value at a time. */
  lemma {:induction false} DrainConverted<A, B>(conv: A -> B, s: seq<A>)
    ensures Drained(Converted(conv, s)) == Converted(conv, Drained(s))
  {
    var d, e := Drained(Converted(conv, s)), Converted(conv, Drained(s));
    forall i | 0 <= i < |s|
      ensures d[i] == e[i]
    {
      DrainConvertedAt(conv, s, i);
    }
  }

  /** The pointwise step of DrainConverted: round i of both drains reads
      the same converted value. */
  lemma DrainConvertedAt<A, B>(conv: A -> B, s: seq<A>, i: nat)
    requires i < |s|
    ensures |Drained(Converted(conv, s))| == |Converted(conv, Drained(s))| == |s|
    ensures Drained(Converted(conv, s))[i] == Converted(conv, Drained(s))[i]
  {
    var c, r := Converted(conv, s), Drained(s);
    assert Drained(c)[i] == c[|s| - 1 - i] == conv(s[|s| - 1 - i]);
    assert Converted(conv, r)[i] == conv(r[i]) == conv(s[|s| - 1 - i]);
  }

  /** A converted copy has the same size and, when non-empty, a top that
      corresponds to the source's top. */
  lemma ConvertedTop<A, B>(conv: A -> B, s: seq<A>)
    requires s != []
    ensures Converted(conv, s) != []
    ensures Top(Converted(conv, s)) == conv(Top(s))
  {
  }

  /** Assigning with a conversion that changes nothing reproduces the
      source exactly; with it, a stack assigned from itself is unchanged. */
  lemma {:induction false} ConvertedIdentity<T>(conv: T -> T, s: seq<T>)
    requires forall x :: conv(x) == x
    ensures Converted(conv, s) == s
  {
    var c := Converted(conv, s);
    forall i | 0 <= i < |s|
      ensures c[i] == s[i]
    {
      assert c[i] == conv(s[i]);
    }
  }
}
