/**
 * Binary function composition, `compose(a, b) = x => a(b(x))`, and the two
 * worked examples of its associativity: the closures the script composes
 * (f(x) = 2x, g(x) = x + 3, h(x) = x - 5) and the different functions its
 * docblock computes by hand (f(x) = x + 2, g(x) = 3x, h(x) = x + 5).
 */
module Composition {

  /** The closure `x => a(b(x))`. Building it calls neither `a` nor `b`. */
  function Compose<A, B, C>(a: B -> C, b: A -> B): A -> C
  {
    x => a(b(x))
  }

  /** Applying a composition applies the inner function first, then the outer one. */
  lemma ComposeApplies<A, B, C>(a: B -> C, b: A -> B, x: A)
    ensures Compose(a, b)(x) == a(b(x))
  {
  }

  /** Associativity: the grouping of three composed functions does not change the result. */
  lemma ComposeAssociative<A, B, C, D>(f: C -> D, g: B -> C, h: A -> B)
    ensures forall x :: Compose(Compose(f, g), h)(x) == Compose(f, Compose(g, h))(x)
    ensures forall x :: Compose(f, Compose(g, h))(x) == f(g(h(x)))
  {
  }

  // The closures the script composes.

  function F(x: int): int { x * 2 }
  function G(x: int): int { x + 3 }
  function H(x: int): int { x - 5 }

  /** `$result1`: (f ∘ g) ∘ h. */
  function Result1(): int -> int { Compose(Compose(F, G), H) }

  /** `$result2`: f ∘ (g ∘ h). */
  function Result2(): int -> int { Compose(F, Compose(G, H)) }

  /** Both groupings compute 2(x - 5 + 3) = 2x - 4 for every integer. */
  lemma ResultsAgree(x: int)
    ensures Result1()(x) == Result2()(x) == 2 * x - 4
  {
    ComposeApplies(Compose(F, G), H, x);
    ComposeApplies(F, G, H(x));
    ComposeApplies(F, Compose(G, H), x);
    ComposeApplies(G, H, x);
  }

  /** At the test value 10: h(10) = 5, g(5) = 8, f(8) = 16. */
  lemma ResultsAtTestValue()
    ensures H(10) == 5 && G(5) == 8 && F(8) == 16
    ensures Result1()(10) == 16 && Result2()(10) == 16
  {
  }

  // The functions the docblock composes by hand.

  function DocF(x: int): int { x + 2 }
  function DocG(x: int): int { 3 * x }
  function DocH(x: int): int { x + 5 }

  /** The two inner compositions of the docblock: g ∘ h is 3x + 15 and f ∘ g is 3x + 2. */
  lemma DocInnerCompositions(x: int)
    ensures Compose(DocG, DocH)(x) == 3 * x + 15
    ensures Compose(DocF, DocG)(x) == 3 * x + 2
  {
    ComposeApplies(DocG, DocH, x);
    ComposeApplies(DocF, DocG, x);
  }

  /** Both groupings of the docblock functions are 3x + 17. */
  lemma DocGroupingsAgree(x: int)
    ensures Compose(DocF, Compose(DocG, DocH))(x) == 3 * x + 17
    ensures Compose(Compose(DocF, DocG), DocH)(x) == 3 * x + 17
  {
    DocInnerCompositions(x);
    ComposeApplies(DocF, Compose(DocG, DocH), x);
    ComposeApplies(Compose(DocF, DocG), DocH, x);
    ComposeApplies(DocF, DocG, DocH(x));
  }
}
