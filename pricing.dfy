/** The shipping rule the cart and checkout pages share: shipping is free above a
    subtotal of 200, and costs 15 otherwise. Amounts are whole currency units. */
module Pricing {

  const FREE_SHIPPING_ABOVE := 200
  const SHIPPING_FEE := 15

  /** `subtotal > 200 ? 0 : 15` */
  function Shipping(subtotal: int): (fee: int)
    ensures fee == 0 <==> subtotal > FREE_SHIPPING_ABOVE
    ensures fee == 0 || fee == SHIPPING_FEE
  {
    if subtotal > FREE_SHIPPING_ABOVE then 0 else SHIPPING_FEE
  }

  /** `subtotal + shipping` */
  function Total(subtotal: int): (total: int)
    ensures subtotal <= total <= subtotal + SHIPPING_FEE
    ensures total == subtotal <==> subtotal > FREE_SHIPPING_ABOVE
  {
    subtotal + Shipping(subtotal)
  }
}
