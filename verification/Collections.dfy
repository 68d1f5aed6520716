/** Small generic notions shared by the whole model. */
module Collections {
  datatype Option<+T> = None | Some(value: T)

  /** The elements of a list, in no order: Python's `set(xs)`. */
  function Elements<T>(xs: seq<T>): set<T> {
    set x | x in xs
  }

  ghost predicate NoDuplicates<T>(xs: seq<T>) {
    forall i, j :: 0 <= i < j < |xs| ==> xs[i] != xs[j]
  }

  /**
   * `order` is what a `for` loop over a Python set may see: every element exactly
   * once, in some order.  The engine's results must not depend on which order it is.
   */
  ghost predicate Iterates<T(!new)>(order: set<T> -> seq<T>) {
    forall s :: Elements(order(s)) == s && NoDuplicates(order(s))
  }

  /** Equality by name: a definition quantified over what is `Same` is used only where it is called for. */
  ghost predicate Same<T>(x: T, y: T) {
    x == y
  }

  lemma TakeOneMore<T>(xs: seq<T>, i: nat)
    requires i < |xs|
    ensures xs[..i + 1] == xs[..i] + [xs[i]]
    ensures xs[..i + 1][..i] == xs[..i]
  {
  }

  lemma Associative<T>(a: seq<T>, b: seq<T>, c: seq<T>)
    ensures a + b + c == a + (b + c)
  {
  }

  lemma NoElements<T>(xs: seq<T>)
    ensures Elements(xs) == {} <==> xs == []
  {
    if xs != [] {
      assert xs[0] in Elements(xs);
    }
  }

  /** Nothing and one thing can only be iterated in one way. */
  lemma OnlyElement<T>(xs: seq<T>, x: T)
    requires Elements(xs) == {x} && NoDuplicates(xs)
    ensures xs == [x]
  {
    NoElements(xs);
    assert |xs| > 1 ==> xs[0] != xs[1];
    forall i | 0 <= i < |xs| ensures xs[i] == x {
      assert xs[i] in Elements(xs);
    }
  }

  lemma TakeAll<T>(xs: seq<T>)
    ensures xs[..|xs|] == xs
  {
  }
}
