# Order processing with pluggable strategies

A model of the order aggregate of the Intermag shop exercise. An `Order` keeps a
growing list of line items (name, quantity, unit price) and two optional
strategies: a payment method and a delivery method. Its total is computed on
demand through a discount calculator that the caller supplies. Payment always
bills the undiscounted total, whatever discount was used to show the total to
the customer. Delivery hands the order itself to the delivery method. Either
operation does nothing when its strategy is unset.

Modules:

- `Discount` (`discount.dfy`): the two discount calculators, as a datatype and
  one pure function `ApplyDiscount`, with lemmas about identity, boundaries,
  sign and linearity.
- `Orders` (`orders.dfy`): `OrderItem`, the payment and delivery variants, the
  `Event` a strategy emits, the specification function `Subtotal`, and the
  class `Order` with its methods.
- `Checkout` (`checkout.dfy`): the source's demonstration run and the empty
  order, as client methods proved from the contracts of `Order` alone.

Modelling choices:

- Prices and totals (`double` in the source) are `real`, so the model states
  the intended exact arithmetic. Quantities are `int`, converted to `real`
  before the multiplication, as the source's implicit conversion does.
- The payment and delivery variants only write a console line. Here each one
  appends an `Event` to the order's `trace` field: `Paid(channel, amount)` or
  `Delivered(mode, order)`. The trace stands for the console.
- The nullable `PaymentMethod` and `DeliveryMethod` properties are `Option`
  fields, so "unset means no-op" is stated in the contracts.
- The discount calculator is a datatype value, so it cannot be absent. The
  source does not check for a null calculator: it dereferences it and fails
  with a null-reference error (Intermag.cs:26). It raises no dedicated
  invalid-argument error, so the model follows the code and has no error path
  for a missing calculator.

## Model

| member | source | states |
|---|---|---|
| `Discount.ApplyDiscount` | Intermag.cs:116-136 | a percentage discount removes exactly `percentage`% of the total, for any sign and size of either (no clamping) |
| `Discount.NoDiscountIsIdentity` | Intermag.cs:116-122 | the no-discount calculator returns every total unchanged, including zero and negative totals |
| `Discount.ZeroTotalStaysZero` | Intermag.cs:116-136 | both calculators map a total of 0 to 0 |
| `Discount.DiscountIsAdditive` | Intermag.cs:116-136 | both calculators are linear: discounting a sum equals summing the discounted parts |
| `Discount.PercentageBoundaries` | Intermag.cs:133-136 | 0% leaves the total unchanged; 100% gives 0 |
| `Discount.PercentageSign` | Intermag.cs:133-136 | for a positive total: the result is below the total iff p > 0, above it iff p < 0, zero iff p = 100, negative iff p > 100 |
| `Orders.SubtotalAppend` | Intermag.cs:14-25 | appending an item raises the undiscounted total by exactly quantity × price |
| `Orders.SubtotalConcat` | Intermag.cs:21-25 | the undiscounted total of two item lists put together is the sum of their totals |
| `Orders.SubtotalPermutation` | Intermag.cs:21-25 | the undiscounted total does not depend on the order of the items: any rearrangement has the same total |
| `Orders.DisplayedVersusBilled` | Intermag.cs:29-33 | the displayed total equals the billed undiscounted total iff there is no discount, the percentage is 0, or the subtotal is 0 |
| `Orders.EmptyOrderTotalsZero` | Intermag.cs:19-27 | an order without items totals 0 under every calculator |
| `Orders.Order.constructor` | Intermag.cs:9-12 | a new order has no items, no payment method, no delivery method and has emitted nothing |
| `Orders.Order.SetPaymentMethod` | Intermag.cs:6 | the payment method can be set or cleared after construction; nothing else changes |
| `Orders.Order.SetDeliveryMethod` | Intermag.cs:7 | the delivery method can be set or cleared after construction; nothing else changes |
| `Orders.Order.AddItem` | Intermag.cs:14-17 | exactly one item with the given name, quantity and price is appended after the unchanged earlier items; the subtotal grows by quantity × price; nothing else changes |
| `Orders.Order.CalculateTotalPrice` | Intermag.cs:19-27 | returns the calculator applied to the sum of quantity × price over all items, and modifies nothing |
| `Orders.Order.ProcessPayment` | Intermag.cs:29-33 | with a payment method set, emits exactly one payment of the undiscounted subtotal on that channel (each payment variant of Intermag.cs:70-92 confirms its own channel and the amount it was given, unvalidated); unset, emits nothing; items and strategies stay unchanged |
| `Orders.Order.Deliver` | Intermag.cs:35-38 | with a delivery method set, hands this very order to it exactly once (each delivery variant of Intermag.cs:93-114 names its own mode and does not look into the order); unset, emits nothing; nothing else changes |
| `Checkout.DemoCheckout` | Intermag.cs:160-174 | items (1 × 1000) and (2 × 50) with a 10% discount display 990, the credit card is charged 1100, then the courier receives that same order; the whole trace is exactly these two events |
| `Checkout.EmptyCheckout` | Intermag.cs:19-38 | an empty order totals 0 with no discount and with 50%, and without strategies paying and delivering emit nothing |

## Left out

- The wording of the console messages of the payment, delivery and notification
  classes (Intermag.cs:74-112): replaced by the `Event` values; only which
  variant ran, the amount and the order are kept.
- `INotification`, `EmailNotification` and `SmsNotification`
  (Intermag.cs:138-157): they only print, and `Order` never calls them.
- `Program.Main` (Intermag.cs:158-178) as a program: it appears only as the
  scenario `Checkout.DemoCheckout`, without its console output and the final
  notification.
- IEEE-754 `double` behaviour (rounding, non-associative addition, NaN,
  infinities): amounts are exact reals, so `SubtotalPermutation` holds here
  but can fail by rounding in the source.
- The `Items` getter hands out the mutable list itself, so a C# caller could
  change it behind the order's back. Among `Order`'s methods only `AddItem`
  changes `items`, and only by appending; Dafny cannot hide the field, so a
  client may reassign it, much as a C# client can mutate the list returned by
  the getter. The list is a value here, so aliasing of it is not modelled.
- Strategy objects are reference types in the source; here they are plain
  values, so object identity and any state a future variant might keep are
  not modelled.
