/** The bill screen: recomputing tax, tip and total, the payment action and the
    WhatsApp receipt. Money is an exact `real`. */
module Billing {
  import opened Wrappers
  import opened Text
  import Seqs
  import Validation

  /** 12% GST, charged on the subtotal. */
  const TaxRate: real := 0.12

  datatype LineItem = LineItem(id: string, name: string, price: real, quantity: int)

  datatype PaymentMethod = Cash | Upi | Card

  datatype Bill = Bill(
    orderId: string,
    table: string,
    items: seq<LineItem>,
    subtotal: real,
    tax: real,
    discount: real,
    tip: real,
    total: real,
    paymentMethod: Option<PaymentMethod>,
    customerPhone: Option<string>)

  /** A line's price × quantity. */
  function LineAmount(l: LineItem): real {
    l.price * l.quantity as real
  }

  /** The bill data the screen starts with. */
  function SeededBill(): Bill {
    Bill("ORD-001", "Table 5",
         [LineItem("1", "Butter Chicken", 320.0, 2),
          LineItem("2", "Naan", 80.0, 3),
          LineItem("3", "Lassi", 120.0, 2)],
         1120.0, 134.4, 0.0, 0.0, 1254.4, None, None)
  }

  /** The bill's derived amounts agree with its subtotal, discount and the tip percent. */
  predicate Consistent(b: Bill, tipPercent: real) {
    && b.tax == b.subtotal * TaxRate
    && b.tip == b.subtotal * (tipPercent / 100.0)
    && b.total == b.subtotal + b.tax - b.discount + b.tip
  }

  /** `calculateTotal`: rewrites tax, tip and total from the subtotal, the discount and
      the tip percent, which is used as entered (a negative percent gives a negative tip). */
  function Recompute(b: Bill, tipPercent: real): (r: Bill)
    ensures Consistent(r, tipPercent)
    ensures r.(tax := b.tax, tip := b.tip, total := b.total) == b
  {
    var tax := b.subtotal * TaxRate;
    var tip := b.subtotal * (tipPercent / 100.0);
    b.(tax := tax, tip := tip, total := b.subtotal + tax - b.discount + tip)
  }

  /** Recomputing twice is recomputing once. */
  lemma RecomputeIdempotent(b: Bill, tipPercent: real)
    ensures Recompute(Recompute(b, tipPercent), tipPercent) == Recompute(b, tipPercent)
  {
  }

  /** Recomputation reads only the subtotal, the discount and the tip percent;
      tax reads the subtotal alone. */
  lemma RecomputeReadsOnlyInputs(a: Bill, b: Bill, p: real, q: real)
    ensures a.subtotal == b.subtotal ==> Recompute(a, p).tax == Recompute(b, q).tax
    ensures a.subtotal == b.subtotal && a.discount == b.discount && p == q ==>
      && Recompute(a, p).tip == Recompute(b, q).tip
      && Recompute(a, p).total == Recompute(b, q).total
  {
  }

  /** A consistent bill is a fixed point of recomputation. */
  lemma ConsistentIsFixedPoint(b: Bill, tipPercent: real)
    requires Consistent(b, tipPercent)
    ensures Recompute(b, tipPercent) == b
  {
  }

  /** The tip percent is not clamped: a negative percent lowers the total below the taxed,
      discounted subtotal. */
  lemma NegativeTipLowersTotal(b: Bill, tipPercent: real)
    requires b.subtotal > 0.0 && tipPercent < 0.0
    ensures Recompute(b, tipPercent).tip < 0.0
    ensures Recompute(b, tipPercent).total < b.subtotal + b.subtotal * TaxRate - b.discount
  {
    assert b.subtotal * (tipPercent / 100.0) < 0.0 by {
      assert tipPercent / 100.0 < 0.0;
    }
  }

  /** The seeded subtotal is the sum of its lines, and its tax and total are what
      recomputation with no tip and no discount gives. */
  lemma SeededBillIsConsistent()
    ensures Seqs.SumOf(SeededBill().items, LineAmount) == SeededBill().subtotal
    ensures Recompute(SeededBill(), 0.0) == SeededBill()
  {
    var items := SeededBill().items;
    assert Seqs.SumOf(items[2..], LineAmount) == 240.0;
    assert Seqs.SumOf(items[1..], LineAmount) == 480.0;
  }

  /** The ten-percent tip on the seeded bill. */
  lemma SeededBillWithTenPercentTip()
    ensures Recompute(SeededBill(), 10.0).tip == 112.0
    ensures Recompute(SeededBill(), 10.0).total == 1366.4
  {
  }

  // ---- WhatsApp receipt ----

  /** `replace(/\D/g, '')`: the digits of `s`, in order. */
  function CleanPhone(s: string): (r: string)
    ensures forall i :: 0 <= i < |r| ==> IsDigit(r[i])
    ensures Seqs.IsSubsequence(r, s)
    ensures forall c :: multiset(r)[c] == if IsDigit(c) then multiset(s)[c] else 0
  {
    CleanPhoneKeepsDigits(s);
    Seqs.Filter(s, IsDigit)
  }

  /** Removing the non-digits keeps every digit, in order and as often as it occurs. */
  lemma CleanPhoneKeepsDigits(s: string)
    ensures Seqs.IsSubsequence(Seqs.Filter(s, IsDigit), s)
    ensures forall c :: multiset(Seqs.Filter(s, IsDigit))[c] == if IsDigit(c) then multiset(s)[c] else 0
  {
    Seqs.FilterIsSubsequence(s, IsDigit);
    forall c ensures multiset(Seqs.Filter(s, IsDigit))[c] == if IsDigit(c) then multiset(s)[c] else 0 {
      Seqs.FilterMultiplicity(s, IsDigit, c);
    }
  }

  /** For an accepted phone number, cleaning only drops the leading `+`. */
  lemma CleanPhoneOfValid(s: string)
    requires Validation.IsValidPhone(s)
    ensures CleanPhone(s) == Validation.PhoneDigits(s)
  {
    var d := Validation.PhoneDigits(s);
    Seqs.FilterKeepsAll(d, IsDigit);
    if s[0] == '+' {
      assert Seqs.Filter(s, IsDigit) == Seqs.Filter(s[1..], IsDigit);
    }
  }

  datatype SendOutcome = PhoneRequired | InvalidPhone | Sent(cleanPhone: string)

  /** `handleWhatsAppSend`: refuses an empty or malformed phone, otherwise addresses the
      receipt to the phone's digits. */
  function WhatsAppSend(phone: string): (r: SendOutcome)
    ensures r.PhoneRequired? <==> phone == ""
    ensures r.InvalidPhone? <==> phone != "" && !Validation.IsValidPhone(phone)
    ensures r.Sent? ==> r.cleanPhone == Validation.PhoneDigits(phone)
    ensures r.Sent? ==> 2 <= |r.cleanPhone| <= 15 && forall i :: 0 <= i < |r.cleanPhone| ==> IsDigit(r.cleanPhone[i])
  {
    if phone == "" then PhoneRequired
    else match Validation.ParsePhone(phone)
      case Failure(_) => InvalidPhone
      case Success(accepted) =>
        CleanPhoneOfValid(accepted);
        Sent(CleanPhone(accepted))
  }

  // ---- the screen's state ----

  datatype PaymentOutcome =
    | NoMethodSelected
    | Charged(via: PaymentMethod, amount: real, sendReceipt: bool)
    | PaymentFailed

  /** The state of the bill screen. */
  class BillingScreen {
    var bill: Bill
    var selectedPayment: Option<PaymentMethod>
    var customerPhone: string
    var tipPercent: real
    var isProcessing: bool

    /** The derived amounts follow the tip percent in force. */
    ghost predicate Valid()
      reads this
    {
      Consistent(bill, tipPercent)
    }

    /** The seeded bill, then the recomputation the mount effect performs. */
    constructor ()
      ensures bill == SeededBill() && Valid()
      ensures selectedPayment == None && customerPhone == "" && tipPercent == 0.0 && !isProcessing
    {
      bill := SeededBill();
      selectedPayment := None;
      customerPhone := "";
      tipPercent := 0.0;
      isProcessing := false;
      SeededBillIsConsistent();
      new;
      CalculateTotal();
    }

    /** `calculateTotal`: only tax, tip and total change. */
    method CalculateTotal()
      modifies this`bill
      ensures bill == Recompute(old(bill), tipPercent)
      ensures Valid()
    {
      var subtotal := bill.subtotal;
      var tax := subtotal * TaxRate;
      var tip := subtotal * (tipPercent / 100.0);
      var total := subtotal + tax - bill.discount + tip;
      bill := bill.(tax := tax, tip := tip, total := total);
    }

    /** A tip button or the custom tip field, followed by the effect that recomputes. */
    method SetTipPercent(p: real)
      modifies this`bill, this`tipPercent
      ensures tipPercent == p
      ensures bill == Recompute(old(bill), p)
      ensures Valid()
    {
      tipPercent := p;
      CalculateTotal();
    }

    method SelectPayment(m: PaymentMethod)
      modifies this`selectedPayment
      ensures selectedPayment == Some(m)
    {
      selectedPayment := Some(m);
    }

    method SetCustomerPhone(s: string)
      modifies this`customerPhone
      ensures customerPhone == s
    {
      customerPhone := s;
    }

    /** `handlePayment`. `failed` says whether the simulated charge threw; the ghost
        `processingWhileCharging` is the flag while the charge is awaited. */
    method HandlePayment(failed: bool) returns (r: PaymentOutcome, ghost processingWhileCharging: bool)
      requires Valid()
      modifies this`isProcessing
      ensures old(selectedPayment).None? ==> r == NoMethodSelected && isProcessing == old(isProcessing)
      ensures old(selectedPayment).Some? ==> processingWhileCharging && !isProcessing
      ensures old(selectedPayment).Some? && failed ==> r == PaymentFailed
      ensures old(selectedPayment).Some? && !failed ==>
        r == Charged(selectedPayment.value, bill.total, customerPhone != "")
      ensures r.Charged? ==>
        r.amount == bill.subtotal + bill.subtotal * TaxRate - bill.discount + bill.subtotal * (tipPercent / 100.0)
    {
      processingWhileCharging := false;
      if selectedPayment.None? {
        return NoMethodSelected, processingWhileCharging;
      }
      isProcessing := true;
      processingWhileCharging := isProcessing;
      if failed {
        r := PaymentFailed;
      } else {
        r := Charged(selectedPayment.value, bill.total, customerPhone != "");
      }
      isProcessing := false;
    }

    /** `handleWhatsAppSend` on the current phone field. */
    method HandleWhatsAppSend() returns (r: SendOutcome)
      ensures r == WhatsAppSend(customerPhone)
      ensures r.Sent? ==> Validation.IsValidPhone(customerPhone)
    {
      r := WhatsAppSend(customerPhone);
    }
  }
}
