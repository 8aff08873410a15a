/** What a quantity costs at a price, kept behind a name so that proofs need not multiply. */
module Money {
  function Cost(price: real, quantity: real): real
  {
    price * quantity
  }

  lemma CostMonotone(price: real, higher: real, quantity: real)
    requires price <= higher && quantity >= 0.0
    ensures Cost(price, quantity) <= Cost(higher, quantity)
  {
    assert (higher - price) * quantity >= 0.0;
  }

  lemma CostAdds(price: real, q1: real, q2: real)
    ensures Cost(price, q1 + q2) == Cost(price, q1) + Cost(price, q2)
  {
  }

  lemma SignOfFactor(a: real, b: real)
    requires b > 0.0
    ensures (a * b >= 0.0 <==> a >= 0.0) && (a * b <= 0.0 <==> a <= 0.0)
  {
  }
}
