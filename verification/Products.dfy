/** Multiplication by name, so that proofs can combine products of reals without expanding them. */
module Products {
  function Product(x: real, y: real): real { x * y }

  function Square(x: real): real { Product(x, x) }

  lemma ProductSign(x: real, y: real)
    requires x >= 0.0 && y >= 0.0
    ensures Product(x, y) >= 0.0
  {
  }

  lemma StrictProduct(x: real, y: real)
    requires x > 0.0 && y > 0.0
    ensures Product(x, y) > 0.0
  {
  }
}
