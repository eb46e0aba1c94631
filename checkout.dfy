/** The demonstration driver of the source, as verified clients of the order
    aggregate: what a caller can conclude from the contracts alone. */
module Checkout {
  import opened Discount
  import opened Orders

  /** A laptop (1 x 1000) and two keyboards (2 x 50), paid by credit card and
      sent by courier: the total shown with a 10% discount is 990, while the
      card is charged the undiscounted 1100, and the courier then receives
      that very order. */
  method DemoCheckout() returns (order: Order, displayed: real, effects: seq<Event>)
    ensures displayed == 990.0
    ensures effects == [Paid(CreditCard, 1100.0), Delivered(Courier, order)]
  {
    order := new Order();
    order.AddItem("Laptop", 1, 1000.0);
    order.AddItem("Keyboard", 2, 50.0);
    assert Subtotal(order.items) == 1100.0;
    order.SetPaymentMethod(Some(CreditCard));
    order.SetDeliveryMethod(Some(Courier));
    displayed := order.CalculateTotalPrice(PercentageDiscount(10.0));
    assert displayed == 1100.0 * (1.0 - 10.0 / 100.0);
    order.ProcessPayment();
    order.Deliver();
    effects := order.trace;
  }

  /** An empty order totals zero with and without a 50% discount, and with no
      strategies attached, paying and delivering emit nothing and do not fail. */
  method EmptyCheckout() returns (plain: real, halved: real, effects: seq<Event>)
    ensures plain == 0.0 && halved == 0.0
    ensures effects == []
  {
    var order := new Order();
    plain := order.CalculateTotalPrice(NoDiscount);
    halved := order.CalculateTotalPrice(PercentageDiscount(50.0));
    order.ProcessPayment();
    order.Deliver();
    effects := order.trace;
  }
}
