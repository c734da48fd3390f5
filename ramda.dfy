/** Right-to-left function composition, as ramda's `compose` provides it:
    `compose(f1, ..., fn)(x)` is `f1(...(fn(x)))`, so the last function
    listed runs first. */
module Ramda {

  function Compose<T>(fs: seq<T -> T>, x: T): (r: T)
    ensures |fs| == 1 ==> r == fs[0](x)
    decreases |fs|
  {
    if fs == [] then x else fs[0](Compose(fs[1..], x))
  }

  /** Composing a concatenation is composing the two halves, the right
      half applied first. */
  lemma {:induction false} ComposeAppend<T>(fs: seq<T -> T>, gs: seq<T -> T>, x: T)
    ensures Compose(fs + gs, x) == Compose(fs, Compose(gs, x))
    decreases |fs|
  {
    if fs == [] {
      assert fs + gs == gs;
    } else {
      assert (fs + gs)[1..] == fs[1..] + gs;
      ComposeAppend(fs[1..], gs, x);
    }
  }

  /** Three functions composed: the third runs first, the first last. */
  lemma ComposeThree<T>(f: T -> T, g: T -> T, h: T -> T, x: T)
    ensures Compose([f, g, h], x) == f(g(h(x)))
  {
    assert [f, g, h] == [f] + [g, h];
    ComposeAppend([f], [g, h], x);
    assert [g, h] == [g] + [h];
    ComposeAppend([g], [h], x);
  }
}
