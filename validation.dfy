/** The zod schemas of the form and order inputs: each schema is a parse that either
    yields the normalised value or fails with the message of the first rule broken,
    as zod's `parse` reports it in `errors[0]` (fields in declaration order, the rules
    of one field in the order they are chained). */
module Validation {
  import opened Wrappers
  import opened Text

  const MaxNameLength := 100
  const MaxDescriptionLength := 500
  const MaxPrice: real := 100000.0
  const MaxCategoryLength := 50
  const MinPreparationTime := 1
  const MaxPreparationTime := 180
  const MaxQuantity := 100
  const MinPhoneDigits := 2
  const MaxPhoneDigits := 15

  const NameRequired := "Name is required"
  const NameTooLong := "Name must be less than 100 characters"
  const DescriptionTooLong := "Description must be less than 500 characters"
  const PriceNotPositive := "Price must be positive"
  const PriceTooHigh := "Price is too high"
  const CategoryRequired := "Category is required"
  const CategoryTooLong := "Category must be less than 50 characters"
  /** zod's own message for a failed `.int()` check. */
  const NotAnInteger := "Expected integer, received float"
  const PreparationTooShort := "Preparation time must be at least 1 minute"
  const PreparationTooLong := "Preparation time must be less than 180 minutes"
  const InvalidImageUrl := "Invalid image URL"
  const InvalidPhone := "Invalid phone number format"
  const InvalidMenuItemId := "Invalid menu item ID"
  const QuantityNotPositive := "Quantity must be positive"
  const QuantityTooHigh := "Quantity is too high"
  const InvalidTableId := "Invalid table ID"
  const NoItems := "At least one item is required"
  const TotalNotPositive := "Total must be positive"

  /** A submitted menu item: the optional fields may be absent. */
  datatype MenuItemInput = MenuItemInput(
    name: string,
    description: Option<string>,
    price: real,
    category: string,
    preparationTime: real,
    isPopular: Option<bool>,
    isAvailable: Option<bool>,
    imageUrl: Option<string>)

  /** What `MenuItemSchema.parse` returns: trimmed strings and every default filled in. */
  datatype ValidItem = ValidItem(
    name: string,
    description: string,
    price: real,
    category: string,
    preparationTime: int,
    isPopular: bool,
    isAvailable: bool,
    imageUrl: string)

  /** `Number.isInteger` on a finite number. */
  predicate IsInteger(x: real) {
    x.Floor as real == x
  }

  function ParseName(s: string): (r: Result<string, string>)
    ensures r.Success? <==> 1 <= |Trim(s)| <= MaxNameLength
    ensures r.Success? ==> r.value == Trim(s)
  {
    var t := Trim(s);
    if |t| < 1 then Failure(NameRequired)
    else if |t| > MaxNameLength then Failure(NameTooLong)
    else Success(t)
  }

  function ParseDescription(d: Option<string>): (r: Result<string, string>)
    ensures r.Success? <==> (d.Some? ==> |Trim(d.value)| <= MaxDescriptionLength)
    ensures r.Success? ==> r.value == if d.Some? then Trim(d.value) else ""
  {
    var t := if d.Some? then Trim(d.value) else "";
    if |t| > MaxDescriptionLength then Failure(DescriptionTooLong) else Success(t)
  }

  function ParsePrice(p: real): (r: Result<real, string>)
    ensures r.Success? <==> 0.0 < p <= MaxPrice
    ensures r.Success? ==> r.value == p
  {
    if p <= 0.0 then Failure(PriceNotPositive)
    else if p > MaxPrice then Failure(PriceTooHigh)
    else Success(p)
  }

  function ParseCategory(s: string): (r: Result<string, string>)
    ensures r.Success? <==> 1 <= |Trim(s)| <= MaxCategoryLength
    ensures r.Success? ==> r.value == Trim(s)
  {
    var t := Trim(s);
    if |t| < 1 then Failure(CategoryRequired)
    else if |t| > MaxCategoryLength then Failure(CategoryTooLong)
    else Success(t)
  }

  function ParsePreparationTime(t: real): (r: Result<int, string>)
    ensures r.Success? <==> IsInteger(t) && MinPreparationTime as real <= t <= MaxPreparationTime as real
    ensures r.Success? ==> r.value == t.Floor && r.value as real == t
  {
    if !IsInteger(t) then Failure(NotAnInteger)
    else if t < MinPreparationTime as real then Failure(PreparationTooShort)
    else if t > MaxPreparationTime as real then Failure(PreparationTooLong)
    else Success(t.Floor)
  }

  /** `z.string().url().optional().or(z.literal('')).default('')`; `isUrl` stands for zod's URL check. */
  function ParseImageUrl(u: Option<string>, isUrl: string -> bool): (r: Result<string, string>)
    ensures r.Success? <==> (u.Some? ==> isUrl(u.value) || u.value == "")
    ensures r.Success? ==> r.value == if u.Some? then u.value else ""
  {
    if u.None? then Success("")
    else if isUrl(u.value) || u.value == "" then Success(u.value)
    else Failure(InvalidImageUrl)
  }

  /** Acceptance of a menu item, rule by rule. */
  predicate MenuItemAcceptable(m: MenuItemInput, isUrl: string -> bool) {
    && 1 <= |Trim(m.name)| <= MaxNameLength
    && (m.description.Some? ==> |Trim(m.description.value)| <= MaxDescriptionLength)
    && 0.0 < m.price <= MaxPrice
    && 1 <= |Trim(m.category)| <= MaxCategoryLength
    && IsInteger(m.preparationTime)
    && MinPreparationTime as real <= m.preparationTime <= MaxPreparationTime as real
    && (m.imageUrl.Some? ==> isUrl(m.imageUrl.value) || m.imageUrl.value == "")
  }

  /** `MenuItemSchema.parse`. */
  function ParseMenuItem(m: MenuItemInput, isUrl: string -> bool): (r: Result<ValidItem, string>)
    ensures r.Success? <==> MenuItemAcceptable(m, isUrl)
    ensures r.Success? ==> r.value == ValidItem(
      Trim(m.name),
      if m.description.Some? then Trim(m.description.value) else "",
      m.price,
      Trim(m.category),
      m.preparationTime.Floor,
      if m.isPopular.Some? then m.isPopular.value else false,
      if m.isAvailable.Some? then m.isAvailable.value else true,
      if m.imageUrl.Some? then m.imageUrl.value else "")
    ensures r.Success? ==> r.value.preparationTime as real == m.preparationTime
  {
    var name :- ParseName(m.name);
    var description :- ParseDescription(m.description);
    var price :- ParsePrice(m.price);
    var category :- ParseCategory(m.category);
    var preparationTime :- ParsePreparationTime(m.preparationTime);
    var imageUrl :- ParseImageUrl(m.imageUrl, isUrl);
    Success(ValidItem(name, description, price, category, preparationTime,
                      if m.isPopular.Some? then m.isPopular.value else false,
                      if m.isAvailable.Some? then m.isAvailable.value else true,
                      imageUrl))
  }

  /** The reported error is that of the first field, in schema order, that breaks a rule. */
  lemma FirstErrorWins(m: MenuItemInput, isUrl: string -> bool)
    ensures |Trim(m.name)| == 0 ==> ParseMenuItem(m, isUrl) == Failure(NameRequired)
    ensures |Trim(m.name)| > MaxNameLength ==> ParseMenuItem(m, isUrl) == Failure(NameTooLong)
    ensures ParseName(m.name).Success? && ParseDescription(m.description).Success? && m.price <= 0.0
      ==> ParseMenuItem(m, isUrl) == Failure(PriceNotPositive)
    ensures ParseName(m.name).Success? && ParseDescription(m.description).Success? && m.price > MaxPrice
      ==> ParseMenuItem(m, isUrl) == Failure(PriceTooHigh)
    ensures && ParseName(m.name).Success? && ParseDescription(m.description).Success?
            && ParsePrice(m.price).Success? && ParseCategory(m.category).Success?
            && IsInteger(m.preparationTime)
            && !(MinPreparationTime as real <= m.preparationTime <= MaxPreparationTime as real)
      ==> ParseMenuItem(m, isUrl).Failure?
          && ParseMenuItem(m, isUrl).error in {PreparationTooShort, PreparationTooLong}
  {
  }

  /** What a validated item looks like when submitted again. */
  function AsInput(v: ValidItem): MenuItemInput {
    MenuItemInput(v.name, Some(v.description), v.price, v.category, v.preparationTime as real,
                  Some(v.isPopular), Some(v.isAvailable), Some(v.imageUrl))
  }

  /** Parsing normalises: an item the schema produced is accepted again unchanged. */
  lemma ParseIsNormalising(m: MenuItemInput, isUrl: string -> bool)
    requires ParseMenuItem(m, isUrl).Success?
    ensures ParseMenuItem(AsInput(ParseMenuItem(m, isUrl).value), isUrl) == ParseMenuItem(m, isUrl)
  {
    var v := ParseMenuItem(m, isUrl).value;
    var again := AsInput(v);
    TrimIdempotent(m.name);
    TrimIdempotent(m.category);
    if m.description.Some? {
      TrimIdempotent(m.description.value);
    }
    assert Trim("") == "";
    assert again.preparationTime.Floor == v.preparationTime;
    assert MenuItemAcceptable(again, isUrl);
    assert ParseMenuItem(again, isUrl).value == v;
  }

  // ---- PhoneSchema: /^\+?[1-9]\d{1,14}$/ ----

  /** The digits of a phone number: everything after an optional leading `+`. */
  function PhoneDigits(s: string): string {
    if |s| > 0 && s[0] == '+' then s[1..] else s
  }

  /** The phone pattern, stated on its parts: 2 to 15 digits, the first of them 1 to 9. */
  predicate IsValidPhone(s: string) {
    var d := PhoneDigits(s);
    && MinPhoneDigits <= |d| <= MaxPhoneDigits
    && '1' <= d[0] <= '9'
    && forall i :: 0 <= i < |d| ==> IsDigit(d[i])
  }

  /** `PhoneSchema.safeParse`: the string itself on success. */
  function ParsePhone(s: string): (r: Result<string, string>)
    ensures r.Success? <==> IsValidPhone(s)
    ensures r.Success? ==> r.value == s
    ensures r.Failure? ==> r.error == InvalidPhone
  {
    if IsValidPhone(s) then Success(s) else Failure(InvalidPhone)
  }

  /** The pattern as the automaton a regular-expression engine runs:
      count the digits read so far, or reject. */
  datatype PhoneState = Start | AfterPlus | Digits(count: nat) | Rejected

  function PhoneStep(q: PhoneState, c: char): PhoneState {
    match q
    case Start => if c == '+' then AfterPlus else if '1' <= c <= '9' then Digits(1) else Rejected
    case AfterPlus => if '1' <= c <= '9' then Digits(1) else Rejected
    case Digits(n) => if IsDigit(c) && n < MaxPhoneDigits then Digits(n + 1) else Rejected
    case Rejected => Rejected
  }

  function PhoneRun(q: PhoneState, s: string): PhoneState
    decreases |s|
  {
    if s == [] then q else PhoneRun(PhoneStep(q, s[0]), s[1..])
  }

  predicate PhoneAutomatonAccepts(s: string) {
    var q := PhoneRun(Start, s);
    q.Digits? && MinPhoneDigits <= q.count <= MaxPhoneDigits
  }

  lemma {:induction false} RejectedStays(s: string)
    ensures PhoneRun(Rejected, s) == Rejected
    decreases |s|
  {
    if s != [] {
      RejectedStays(s[1..]);
    }
  }

  /** From `n` digits read, the rest is accepted exactly as a run of digits that fits in 15. */
  lemma {:induction false} DigitsRun(n: nat, s: string)
    requires 1 <= n <= MaxPhoneDigits
    ensures PhoneRun(Digits(n), s)
      == if n + |s| <= MaxPhoneDigits && forall i :: 0 <= i < |s| ==> IsDigit(s[i])
         then Digits(n + |s|) else Rejected
    decreases |s|
  {
    if s != [] {
      if IsDigit(s[0]) && n < MaxPhoneDigits {
        DigitsRun(n + 1, s[1..]);
        if forall i :: 0 <= i < |s| - 1 ==> IsDigit(s[1..][i]) {
          assert forall i :: 0 <= i < |s| ==> IsDigit(s[i]) by {
            forall i | 0 <= i < |s| ensures IsDigit(s[i]) {
              if i > 0 { assert s[i] == s[1..][i - 1]; }
            }
          }
        } else {
          var i :| 0 <= i < |s| - 1 && !IsDigit(s[1..][i]);
          assert !IsDigit(s[i + 1]);
        }
      } else {
        RejectedStays(s[1..]);
      }
    }
  }

  /** The automaton and the stated pattern accept the same strings. */
  lemma PhoneAutomatonMatchesPattern(s: string)
    ensures PhoneAutomatonAccepts(s) <==> IsValidPhone(s)
  {
    if s == [] {
    } else if s[0] == '+' {
      var d := s[1..];
      if d == [] {
        assert PhoneRun(Start, s) == PhoneRun(AfterPlus, d);
      } else if '1' <= d[0] <= '9' {
        assert PhoneRun(Start, s) == PhoneRun(Digits(1), d[1..]) by {
          assert PhoneRun(Start, s) == PhoneRun(AfterPlus, d);
        }
        DigitsRun(1, d[1..]);
        DigitsTail(d);
      } else {
        assert PhoneRun(Start, s) == PhoneRun(Rejected, d[1..]) by {
          assert PhoneRun(Start, s) == PhoneRun(AfterPlus, d);
        }
        RejectedStays(d[1..]);
      }
    } else if '1' <= s[0] <= '9' {
      DigitsRun(1, s[1..]);
      DigitsTail(s);
    } else {
      RejectedStays(s[1..]);
    }
  }

  lemma DigitsTail(d: string)
    requires |d| > 0 && IsDigit(d[0])
    ensures (forall i :: 0 <= i < |d| ==> IsDigit(d[i])) <==> (forall i :: 0 <= i < |d| - 1 ==> IsDigit(d[1..][i]))
  {
    if forall i :: 0 <= i < |d| - 1 ==> IsDigit(d[1..][i]) {
      forall i | 0 <= i < |d| ensures IsDigit(d[i]) {
        if i > 0 { assert d[i] == d[1..][i - 1]; }
      }
    }
  }

  /** The examples the pattern is meant for. */
  lemma PhoneExamples()
    ensures IsValidPhone("+14155552671")
    ensures !IsValidPhone("0012345")
    ensures !IsValidPhone("abc123")
    ensures IsValidPhone("12") && !IsValidPhone("1") && !IsValidPhone("+1234567890123456")
  {
    assert PhoneDigits("+14155552671") == "14155552671";
  }

  // ---- OrderItemSchema and OrderSchema ----

  datatype OrderLineInput = OrderLineInput(menuItemId: string, quantity: real)
  datatype OrderLine = OrderLine(menuItemId: string, quantity: int)

  datatype OrderInput = OrderInput(
    tableId: Option<string>,
    items: seq<OrderLineInput>,
    total: real,
    status: Option<string>)

  datatype OrderState = Pending | Preparing | Served | Paid

  datatype Order = Order(tableId: Option<string>, items: seq<OrderLine>, total: real, status: OrderState)

  /** `OrderItemSchema.parse`; `isUuid` stands for zod's UUID check. */
  function ParseOrderLine(l: OrderLineInput, isUuid: string -> bool): (r: Result<OrderLine, string>)
    ensures r.Success? <==> OrderLineAcceptable(l, isUuid)
    ensures r.Success? ==> r.value == OrderLine(l.menuItemId, l.quantity.Floor) && r.value.quantity as real == l.quantity
    ensures !isUuid(l.menuItemId) ==> r == Failure(InvalidMenuItemId)
  {
    if !isUuid(l.menuItemId) then Failure(InvalidMenuItemId)
    else if !IsInteger(l.quantity) then Failure(NotAnInteger)
    else if l.quantity <= 0.0 then Failure(QuantityNotPositive)
    else if l.quantity > MaxQuantity as real then Failure(QuantityTooHigh)
    else Success(OrderLine(l.menuItemId, l.quantity.Floor))
  }

  predicate OrderLineAcceptable(l: OrderLineInput, isUuid: string -> bool) {
    isUuid(l.menuItemId) && IsInteger(l.quantity) && 1.0 <= l.quantity <= MaxQuantity as real
  }

  /** Every line in turn; the first failing line's error. */
  function ParseOrderLines(ls: seq<OrderLineInput>, isUuid: string -> bool): (r: Result<seq<OrderLine>, string>)
    ensures r.Success? <==> forall i :: 0 <= i < |ls| ==> OrderLineAcceptable(ls[i], isUuid)
    ensures r.Success? ==> |r.value| == |ls|
    ensures r.Success? ==> forall i :: 0 <= i < |ls| ==>
      r.value[i] == OrderLine(ls[i].menuItemId, ls[i].quantity.Floor)
      && 1 <= r.value[i].quantity <= MaxQuantity
  {
    if ls == [] then Success([])
    else
      var head :- ParseOrderLine(ls[0], isUuid);
      var tail :- ParseOrderLines(ls[1..], isUuid);
      Success([head] + tail)
  }

  function ParseStatus(s: Option<string>): (r: Result<OrderState, string>)
    ensures r.Success? <==> s.None? || s.value in {"pending", "preparing", "served", "paid"}
    ensures s.None? || s == Some("pending") ==> r == Success(Pending)
    ensures s == Some("preparing") ==> r == Success(Preparing)
    ensures s == Some("served") ==> r == Success(Served)
    ensures s == Some("paid") ==> r == Success(Paid)
  {
    if s.None? || s.value == "pending" then Success(Pending)
    else if s.value == "preparing" then Success(Preparing)
    else if s.value == "served" then Success(Served)
    else if s.value == "paid" then Success(Paid)
    else Failure("Invalid enum value. Expected 'pending' | 'preparing' | 'served' | 'paid', received '" + s.value + "'")
  }

  predicate OrderAcceptable(o: OrderInput, isUuid: string -> bool) {
    && (o.tableId.Some? ==> isUuid(o.tableId.value))
    && |o.items| >= 1
    && (forall i :: 0 <= i < |o.items| ==> OrderLineAcceptable(o.items[i], isUuid))
    && o.total > 0.0
    && (o.status.None? || o.status.value in {"pending", "preparing", "served", "paid"})
  }

  /** `OrderSchema.parse`. */
  function ParseOrder(o: OrderInput, isUuid: string -> bool): (r: Result<Order, string>)
    ensures r.Success? <==> OrderAcceptable(o, isUuid)
    ensures r.Success? ==> |r.value.items| == |o.items| >= 1 && r.value.total == o.total > 0.0
    ensures r.Success? && o.status.None? ==> r.value.status == Pending
    ensures r.Success? ==> && r.value.items == ParseOrderLines(o.items, isUuid).value
                           && r.value.tableId == o.tableId
                           && r.value.status == ParseStatus(o.status).value
    ensures |o.items| == 0 && (o.tableId.Some? ==> isUuid(o.tableId.value)) ==> r == Failure(NoItems)
  {
    var _ :- if o.tableId.Some? && !isUuid(o.tableId.value) then Failure(InvalidTableId) else Success(());
    var items :- if |o.items| == 0 then Failure(NoItems) else ParseOrderLines(o.items, isUuid);
    var _ :- if o.total <= 0.0 then Failure(TotalNotPositive) else Success(());
    var status :- ParseStatus(o.status);
    Success(Order(o.tableId, items, o.total, status))
  }
}
