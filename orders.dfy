/** The order aggregate: a growing list of line items, an optional payment
    strategy and an optional delivery strategy. Totals are computed on demand
    through a discount calculator supplied by the caller; payment always bills
    the undiscounted total. */
module Orders {
  import opened Discount

  /** A reference that may be unset (the source's null). */
  datatype Option<T> = None | Some(value: T)

  /** One purchased line: product name, quantity and unit price. */
  datatype OrderItem = OrderItem(productName: string, quantity: int, price: real)

  /** The three payment channels. */
  datatype PaymentMethod = CreditCard | PayPal | BankTransfer

  /** The three delivery modes. */
  datatype DeliveryMethod = Courier | Post | PickUpPoint

  /** What a strategy emits when it is invoked: a payment confirmation naming
      the channel and the amount, or a delivery notice naming the mode and the
      order that was handed over. No payment variant checks the amount, and no
      delivery variant looks into the order. */
  datatype Event =
    | Paid(channel: PaymentMethod, amount: real)
    | Delivered(mode: DeliveryMethod, order: Order)

  /** The price of one line, quantity times unit price. */
  function LineTotal(item: OrderItem): (r: real) {
    item.quantity as real * item.price
  }

  /** The undiscounted total of a list of items, accumulated front to back
      as the source's loop does (the last item is added last). */
  function Subtotal(items: seq<OrderItem>): (r: real) {
    if |items| == 0 then 0.0
    else Subtotal(items[..|items| - 1]) + LineTotal(items[|items| - 1])
  }

  /** Appending one item adds exactly its line total. */
  lemma {:induction false} SubtotalAppend(items: seq<OrderItem>, item: OrderItem)
    ensures Subtotal(items + [item]) == Subtotal(items) + LineTotal(item)
  {
    assert (items + [item])[..|items|] == items;
  }

  /** The subtotal of a concatenation is the sum of the subtotals. */
  lemma {:induction false} SubtotalConcat(a: seq<OrderItem>, b: seq<OrderItem>)
    ensures Subtotal(a + b) == Subtotal(a) + Subtotal(b)
    decreases |b|
  {
    if |b| == 0 {
      assert a + b == a;
    } else {
      var n := |b| - 1;
      assert (a + b)[..|a + b| - 1] == a + b[..n];
      SubtotalConcat(a, b[..n]);
    }
  }

  /** Taking any one item out of a list lowers the subtotal by exactly that
      item's line total. */
  lemma {:induction false} SubtotalRemove(b: seq<OrderItem>, j: nat)
    requires j < |b|
    ensures Subtotal(b) == Subtotal(b[..j] + b[j + 1..]) + LineTotal(b[j])
  {
    var front, x, back := b[..j], b[j], b[j + 1..];
    assert b == (front + [x]) + back;
    calc {
      Subtotal(b);
      { SubtotalConcat(front + [x], back); }
      Subtotal(front + [x]) + Subtotal(back);
      { SubtotalAppend(front, x); }
      Subtotal(front) + LineTotal(x) + Subtotal(back);
      { SubtotalConcat(front, back); }
      Subtotal(front + back) + LineTotal(x);
    }
  }

  /** Matching the last item of `a` with an equal item of `b` and removing
      both leaves two rearrangements of the same items. */
  lemma {:induction false} MultisetRemoveMatching(a: seq<OrderItem>, b: seq<OrderItem>, j: nat)
    requires multiset(a) == multiset(b)
    requires 0 < |a| && j < |b| && b[j] == a[|a| - 1]
    ensures multiset(a[..|a| - 1]) == multiset(b[..j] + b[j + 1..])
  {
    var n, x := |a| - 1, b[j];
    assert a == a[..n] + [x];
    assert b == b[..j] + [x] + b[j + 1..];
    assert multiset(b[..j] + b[j + 1..]) == multiset(b) - multiset{x};
  }

  /** The subtotal does not depend on the order in which the items were
      added: any rearrangement of the same items has the same subtotal. */
  lemma {:induction false} SubtotalPermutation(a: seq<OrderItem>, b: seq<OrderItem>)
    requires multiset(a) == multiset(b)
    ensures Subtotal(a) == Subtotal(b)
    decreases |a|
  {
    if |a| == 0 {
      assert |b| == |multiset(b)| == 0;
    } else {
      var n := |a| - 1;
      assert a[n] in multiset(b) by {
        assert a == a[..n] + [a[n]];
      }
      var j :| 0 <= j < |b| && b[j] == a[n];
      MultisetRemoveMatching(a, b, j);
      SubtotalPermutation(a[..n], b[..j] + b[j + 1..]);
      SubtotalRemove(b, j);
    }
  }

  /** The displayed total equals the billed (undiscounted) total exactly when
      there is no discount, the percentage is zero, or the subtotal is zero;
      every other discount makes display and billing disagree. */
  lemma DisplayedVersusBilled(items: seq<OrderItem>, c: DiscountCalculator)
    ensures ApplyDiscount(c, Subtotal(items)) == Subtotal(items)
        <==> c.NoDiscount? || c.percentage == 0.0 || Subtotal(items) == 0.0
  {
    if c.PercentageDiscount? {
      var s := Subtotal(items);
      assert s - ApplyDiscount(c, s) == s * c.percentage / 100.0;
      if s != 0.0 && c.percentage != 0.0 {
        assert s * c.percentage != 0.0;
      }
    }
  }

  /** An empty order totals zero under every calculator. */
  lemma EmptyOrderTotalsZero(c: DiscountCalculator)
    ensures ApplyDiscount(c, Subtotal([])) == 0.0
  {
  }

  /** The order aggregate. `trace` stands for the console: the events the
      attached strategies emitted on behalf of this order, oldest first. */
  class Order {
    var items: seq<OrderItem>
    var paymentMethod: Option<PaymentMethod>
    var deliveryMethod: Option<DeliveryMethod>
    var trace: seq<Event>

    /** A new order has no items and no strategies attached. */
    constructor ()
      ensures items == [] && paymentMethod == None && deliveryMethod == None
      ensures trace == []
    {
      items := [];
      paymentMethod := None;
      deliveryMethod := None;
      trace := [];
    }

    /** Attach (or detach, with None) the payment strategy. */
    method SetPaymentMethod(p: Option<PaymentMethod>)
      modifies this`paymentMethod
      ensures paymentMethod == p
    {
      paymentMethod := p;
    }

    /** Attach (or detach, with None) the delivery strategy. */
    method SetDeliveryMethod(d: Option<DeliveryMethod>)
      modifies this`deliveryMethod
      ensures deliveryMethod == d
    {
      deliveryMethod := d;
    }

    /** Append one line, unvalidated, after all earlier lines. */
    method AddItem(productName: string, quantity: int, price: real)
      modifies this`items
      ensures items == old(items) + [OrderItem(productName, quantity, price)]
      ensures Subtotal(items) == old(Subtotal(items)) + LineTotal(OrderItem(productName, quantity, price))
    {
      SubtotalAppend(items, OrderItem(productName, quantity, price));
      items := items + [OrderItem(productName, quantity, price)];
    }

    /** The total of the current items under the given calculator. Changes
        nothing: the result is recomputed on every call. */
    method CalculateTotalPrice(discountCalculator: DiscountCalculator) returns (r: real)
      ensures r == ApplyDiscount(discountCalculator, Subtotal(items))
    {
      var total := 0.0;
      for i := 0 to |items|
        invariant total == Subtotal(items[..i])
      {
        assert items[..i + 1][..i] == items[..i];
        total := total + items[i].quantity as real * items[i].price;
      }
      assert items[..|items|] == items;
      r := ApplyDiscount(discountCalculator, total);
    }

    /** Bill the undiscounted total through the attached payment strategy,
        whatever discount was used for display; without one, do nothing. */
    method ProcessPayment()
      modifies this`trace
      ensures paymentMethod.None? ==> trace == old(trace)
      ensures paymentMethod.Some? ==>
        trace == old(trace) + [Paid(paymentMethod.value, Subtotal(items))]
    {
      var amount := CalculateTotalPrice(NoDiscount);
      if paymentMethod.Some? {
        trace := trace + [Paid(paymentMethod.value, amount)];
      }
    }

    /** Hand this order, once, to the attached delivery strategy; without
        one, do nothing. */
    method Deliver()
      modifies this`trace
      ensures deliveryMethod.None? ==> trace == old(trace)
      ensures deliveryMethod.Some? ==>
        trace == old(trace) + [Delivered(deliveryMethod.value, this)]
    {
      if deliveryMethod.Some? {
        trace := trace + [Delivered(deliveryMethod.value, this)];
      }
    }
  }
}
