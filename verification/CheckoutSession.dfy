/** The checkout session: a priced basket edited in place until it is completed or expires. */
module CheckoutSession {
  import opened Common
  import Text
  import opened Orders
  import opened Ordering

  datatype Stage = Open | Completed | Expired

  datatype Error = Invalid | NotOpen | TooLate | EmptyCheckout

  /** The session as a value. */
  datatype View = View(
    items: seq<Line>, stage: Stage, coupon: string, subtotal: int, discount: int,
    fee: int, total: int, orderId: string, expiresAt: int)

  datatype Key = BySku(sku: string) | BySkuId(skuId: string)

  datatype Op =
    | SetItems(items: seq<Line>)
    | UpsertItem(item: Line)
    | Remove(key: Key)
    | ApplyCoupon(code: string, fraction: real)
    | ClearCoupon
    | Complete(orderId: string)

  const DEFAULT_TTL := 1800

  // ------------------------------------------------------------ specification

  function UpperTrimmed(up: char -> char, s: string): (t: string)
    ensures t == "" <==> Text.TrimSpace(s) == ""
  {
    Text.MapRunes(up, Text.TrimSpace(s))
  }

  function NormalKey(up: char -> char, key: Key): Key {
    match key
    case BySku(s) => BySku(UpperTrimmed(up, s))
    case BySkuId(s) => BySkuId(Text.TrimSpace(s))
  }

  predicate Blank(key: Key) {
    match key
    case BySku(s) => s == ""
    case BySkuId(s) => s == ""
  }

  predicate Matches(key: Key, l: Line) {
    match key
    case BySku(s) => l.sku == s
    case BySkuId(s) => l.skuId == s
  }

  /** The lines a removal leaves, in their old order. */
  function Without(lines: seq<Line>, key: Key): (r: seq<Line>)
    ensures |r| <= |lines|
  {
    if lines == [] then []
    else
      var last := lines[|lines| - 1];
      Without(lines[..|lines| - 1], key) + if Matches(key, last) then [] else [last]
  }

  predicate SameItem(a: Line, b: Line) {
    if a.skuId != "" && b.skuId != "" then a.skuId == b.skuId else a.sku == b.sku
  }

  /** The first line for the same variant, or the end. */
  function FirstSame(lines: seq<Line>, item: Line): (k: nat)
    ensures k <= |lines|
    ensures forall i :: 0 <= i < k ==> !SameItem(lines[i], item)
    ensures k < |lines| ==> SameItem(lines[k], item)
  {
    if lines == [] || SameItem(lines[0], item) then 0 else 1 + FirstSame(lines[1..], item)
  }

  function Upserted(lines: seq<Line>, item: Line): seq<Line> {
    var k := FirstSame(lines, item);
    if k < |lines| then lines[k := item] else lines + [item]
  }

  /** The largest whole amount within the fraction of an amount. */
  ghost predicate Within(amount: int, whole: int, fraction: real) {
    amount as real <= whole as real * fraction < amount as real + 1.0
  }

  /** int64(float64(subtotal) * fraction), over reals: the fraction of the goods, rounded down. */
  function DiscountOf(subtotal: int, fraction: real): (discount: int)
    ensures Within(discount, subtotal, fraction)
  {
    (subtotal as real * fraction).Floor
  }

  /** The totals follow from the items, the coupon and the fraction just given. */
  function Repriced(v: View, fraction: real): View {
    var subtotal := Subtotal(v.items);
    var discount := if fraction > 0.0 && v.coupon != "" then DiscountOf(subtotal, fraction) else 0;
    v.(subtotal := subtotal, discount := discount,
       total := subtotal - discount + if v.items == [] then 0 else v.fee)
  }

  function EnsureOpen(v: View, now: int): (View, Option<Error>) {
    if v.stage == Completed then (v, Some(NotOpen))
    else if v.stage == Expired || now > v.expiresAt then (v.(stage := Expired), Some(TooLate))
    else (v, None)
  }

  /** What an operation does to an open session. */
  function Edit(up: char -> char, v: View, op: Op): (View, Option<Error>) {
    match op
    case SetItems(items) =>
      if exists i :: 0 <= i < |items| && !Sellable(NormalizeLine(up, items[i])) then (v, Some(Invalid))
      else (Repriced(v.(items := Normalized(up, items)), 0.0), None)
    case UpsertItem(item) =>
      if !Sellable(NormalizeLine(up, item)) then (v, Some(Invalid))
      else (Repriced(v.(items := Upserted(v.items, NormalizeLine(up, item))), 0.0), None)
    case Remove(key) =>
      if Blank(NormalKey(up, key)) then (v, Some(Invalid))
      else (Repriced(v.(items := Without(v.items, NormalKey(up, key))), 0.0), None)
    case ApplyCoupon(code, fraction) =>
      if UpperTrimmed(up, code) == "" || fraction <= 0.0 || fraction >= 1.0 then (v, Some(Invalid))
      else (Repriced(v.(coupon := UpperTrimmed(up, code)), fraction), None)
    case ClearCoupon => (Repriced(v.(coupon := ""), 0.0), None)
    case Complete(orderId) =>
      if v.items == [] then (v, Some(EmptyCheckout))
      else if Text.TrimSpace(orderId) == "" then (v, Some(Invalid))
      else (v.(stage := Completed, orderId := Text.TrimSpace(orderId)), None)
  }

  function After(up: char -> char, v: View, op: Op, now: int): (View, Option<Error>) {
    if EnsureOpen(v, now).1.Some? then EnsureOpen(v, now) else Edit(up, v, op)
  }

  // ----------------------------------------------------------- implementation

  class Session {
    var buffer: array<Line>
    var count: nat
    var stage: Stage
    var coupon: string
    var subtotal: int
    var discount: int
    const fee: int
    var total: int
    var orderId: string
    const expiresAt: int

    ghost predicate Valid() reads this {
      count <= buffer.Length
    }

    ghost function Value(): View
      requires Valid()
      reads this, buffer
    {
      View(buffer[..count], stage, coupon, subtotal, discount, fee, total, orderId, expiresAt)
    }

    constructor (now: int, ttl: int, fee: int)
      ensures Valid() && fresh(buffer)
      ensures Value() == View([], Open, "", 0, 0, fee, 0, "", now + if ttl <= 0 then DEFAULT_TTL else ttl)
    {
      buffer := new Line[0];
      count, stage, coupon := 0, Open, "";
      subtotal, discount, total := 0, 0, 0;
      orderId := "";
      this.fee := fee;
      expiresAt := now + if ttl <= 0 then DEFAULT_TTL else ttl;
    }

    method CheckOpen(now: int) returns (error: Option<Error>)
      requires Valid()
      modifies this`stage
      ensures Valid() && (Value(), error) == EnsureOpen(old(Value()), now)
    {
      if stage == Completed {
        return Some(NotOpen);
      }
      if stage == Expired || now > expiresAt {
        stage := Expired;
        return Some(TooLate);
      }
      error := None;
    }

    method Recalculate(fraction: real)
      requires Valid()
      modifies this`subtotal, this`discount, this`total
      ensures Valid() && Value() == Repriced(old(Value()), fraction)
    {
      var sum := 0;
      for i := 0 to count
        invariant sum == Subtotal(buffer[..i])
        invariant Value() == old(Value())
      {
        SubtotalAppend(buffer[..i], buffer[i]);
        assert buffer[..i + 1] == buffer[..i] + [buffer[i]];
        sum := sum + buffer[i].quantity * buffer[i].unitPrice;
      }
      subtotal := sum;
      discount := if fraction > 0.0 && coupon != "" then DiscountOf(sum, fraction) else 0;
      total := sum - discount + if count == 0 then 0 else fee;
    }

    method SetItems(up: char -> char, items: seq<Line>, now: int) returns (error: Option<Error>)
      requires Valid()
      modifies this
      ensures Valid() && (Value(), error) == After(up, old(Value()), Op.SetItems(items), now)
    {
      error := CheckOpen(now);
      if error.Some? {
        return;
      }
      hide NormalizeLine;
      var copied := new Line[|items|](i requires 0 <= i < |items| => items[i]);
      for i := 0 to |items|
        invariant forall k :: 0 <= k < i ==> copied[k] == NormalizeLine(up, items[k]) && Sellable(copied[k])
        invariant unchanged(this) && unchanged(buffer)
      {
        var item := NormalizeLine(up, items[i]);
        if !Sellable(item) {
          return Some(Invalid);
        }
        copied[i] := item;
      }
      assert copied[..] == Normalized(up, items);
      buffer, count := copied, |items|;
      assert buffer[..count] == copied[..];
      Recalculate(0.0);
    }

    // Writes past the end, in place when the buffer has room.
    method Append(item: Line)
      requires Valid()
      modifies this`buffer, this`count, buffer
      ensures Valid() && (buffer == old(buffer) || fresh(buffer))
      ensures Value() == old(Value()).(items := old(Value()).items + [item])
    {
      ghost var before := buffer[..count];
      if count == buffer.Length {
        var grown := new Line[2 * count + 1](_ => item);
        for i := 0 to count
          invariant forall k :: 0 <= k < i ==> grown[k] == before[k]
          invariant unchanged(this) && unchanged(buffer)
        {
          grown[i] := buffer[i];
        }
        buffer := grown;
      }
      buffer[count] := item;
      count := count + 1;
      assert buffer[..count] == before + [item];
    }

    method UpsertItem(up: char -> char, given: Line, now: int) returns (error: Option<Error>)
      requires Valid()
      modifies this, buffer
      ensures Valid() && (Value(), error) == After(up, old(Value()), Op.UpsertItem(given), now)
    {
      error := CheckOpen(now);
      if error.Some? {
        return;
      }
      hide NormalizeLine;
      var item := NormalizeLine(up, given);
      if !Sellable(item) {
        return Some(Invalid);
      }
      Put(item);
      Recalculate(0.0);
    }

    // Overwrites the first line for the same variant, or appends.
    method Put(item: Line)
      requires Valid()
      modifies this`buffer, this`count, buffer
      ensures Valid() && (buffer == old(buffer) || fresh(buffer))
      ensures Value() == old(Value()).(items := Upserted(old(Value()).items, item))
    {
      ghost var before := buffer[..count];
      for i := 0 to count
        invariant forall k :: 0 <= k < i ==> !SameItem(before[k], item)
        invariant unchanged(this) && unchanged(buffer)
      {
        if SameItem(buffer[i], item) {
          assert FirstSame(before, item) == i;
          buffer[i] := item;
          assert buffer[..count] == before[i := item];
          return;
        }
      }
      Append(item);
    }

    // Compacts the kept lines to the front of the same buffer.
    method Compact(key: Key)
      requires Valid()
      modifies this`count, buffer
      ensures Valid() && Value() == old(Value()).(items := Without(old(Value()).items, key))
    {
      hide Matches;
      ghost var before := buffer[..count];
      var kept := 0;
      for i := 0 to count
        invariant kept <= i && count == |before| && buffer == old(buffer)
        invariant buffer[..kept] == Without(before[..i], key)
        invariant forall k :: i <= k < count ==> buffer[k] == before[k]
      {
        ghost var front := buffer[..kept];
        assert before[..i + 1][..i] == before[..i];
        if !Matches(key, buffer[i]) {
          buffer[kept] := buffer[i];
          kept := kept + 1;
          assert buffer[..kept] == front + [before[i]];
        }
      }
      assert before[..count] == before;
      count := kept;
    }

    /** Removal by SKU and removal by SKU id differ in the field they compare. */
    method RemoveItem(up: char -> char, key: Key, now: int) returns (error: Option<Error>)
      requires Valid()
      modifies this, buffer
      ensures Valid() && (Value(), error) == After(up, old(Value()), Op.Remove(key), now)
    {
      error := CheckOpen(now);
      if error.Some? {
        return;
      }
      var normal := NormalKey(up, key);
      if Blank(normal) {
        return Some(Invalid);
      }
      Compact(normal);
      Recalculate(0.0);
    }

    method ApplyCoupon(up: char -> char, given: string, fraction: real, now: int) returns (error: Option<Error>)
      requires Valid()
      modifies this
      ensures Valid() && (Value(), error) == After(up, old(Value()), Op.ApplyCoupon(given, fraction), now)
    {
      error := CheckOpen(now);
      if error.Some? {
        return;
      }
      var code := UpperTrimmed(up, given);
      if code == "" || fraction <= 0.0 || fraction >= 1.0 {
        return Some(Invalid);
      }
      coupon := code;
      Recalculate(fraction);
    }

    method ClearCoupon(up: char -> char, now: int) returns (error: Option<Error>)
      requires Valid()
      modifies this
      ensures Valid() && (Value(), error) == After(up, old(Value()), Op.ClearCoupon, now)
    {
      error := CheckOpen(now);
      if error.Some? {
        return;
      }
      coupon := "";
      Recalculate(0.0);
    }

    method Complete(up: char -> char, order: string, now: int) returns (error: Option<Error>)
      requires Valid()
      modifies this
      ensures Valid() && (Value(), error) == After(up, old(Value()), Op.Complete(order), now)
    {
      error := CheckOpen(now);
      if error.Some? {
        return;
      }
      if count == 0 {
        return Some(EmptyCheckout);
      }
      var trimmed := Text.TrimSpace(order);
      if trimmed == "" {
        return Some(Invalid);
      }
      stage, orderId := Completed, trimmed;
    }
  }

  /** Opening refuses blank identifiers and a negative delivery charge. */
  method NewCheckoutSession(id: string, customer: string, now: int, ttl: int, fee: int)
    returns (r: Result<Session, Error>)
    ensures r.Err? <==> Text.TrimSpace(id) == "" || Text.TrimSpace(customer) == "" || fee < 0
    ensures r.Ok? ==> fresh(r.value) && r.value.Valid() && Priced(r.value.Value()) && r.value.Value().stage == Open
  {
    if Text.TrimSpace(id) == "" || Text.TrimSpace(customer) == "" {
      return Err(Invalid);
    }
    if fee < 0 {
      return Err(Invalid);
    }
    var s := new Session(now, ttl, fee);
    r := Ok(s);
  }

  // -------------------------------------------------------- what removal keeps

  /** Removal loses exactly the matching lines, however often they occur. */
  lemma {:induction false} WithoutCounts(lines: seq<Line>, key: Key, l: Line)
    ensures multiset(Without(lines, key))[l] == if Matches(key, l) then 0 else multiset(lines)[l]
  {
    hide Matches;
    if lines != [] {
      var init, last := lines[..|lines| - 1], lines[|lines| - 1];
      WithoutCounts(init, key, l);
      SplitLast(lines);
      var rest := Without(init, key);
      assert Without(lines, key) == if Matches(key, last) then rest else rest + [last];
      hide Without;
    }
  }

  /** The kept lines stand at increasing old positions. */
  lemma {:induction false} WithoutKeepsOrder(lines: seq<Line>, key: Key) returns (at: seq<nat>)
    ensures |at| == |Without(lines, key)|
    ensures forall k :: 0 <= k < |at| ==> at[k] < |lines| && Without(lines, key)[k] == lines[at[k]]
    ensures forall j, k :: 0 <= j < k < |at| ==> at[j] < at[k]
  {
    if lines == [] {
      at := [];
    } else {
      at := WithoutKeepsOrder(lines[..|lines| - 1], key);
      if !Matches(key, lines[|lines| - 1]) {
        at := at + [|lines| - 1];
      }
    }
  }

  /** Putting an item in place touches one line at most, and putting it twice is putting it once. */
  lemma UpsertTouchesOneLine(lines: seq<Line>, item: Line)
    ensures var r := Upserted(lines, item);
      && item in r && |r| == |lines| + (if exists i :: 0 <= i < |lines| && SameItem(lines[i], item) then 0 else 1)
      && (forall i :: 0 <= i < |lines| && !SameItem(lines[i], item) ==> r[i] == lines[i])
      && (forall i, j :: 0 <= i < j < |lines| && SameItem(lines[i], item) ==> r[j] == lines[j])
      && Upserted(r, item) == r
  {
    var k, r := FirstSame(lines, item), Upserted(lines, item);
    assert r[k] == item;
    var again := FirstSame(r, item);
    assert SameItem(item, item);
    assert again == k;
  }

  // ------------------------------------------------------------------ pricing

  /** What a session shows at any time. */
  ghost predicate Priced(v: View) {
    && (forall i :: 0 <= i < |v.items| ==> Sellable(v.items[i]))
    && v.fee >= 0
    && v.subtotal == Subtotal(v.items)
    && 0 <= v.discount <= v.subtotal
    && (v.discount > 0 ==> v.coupon != "")
    && v.total == v.subtotal - v.discount + if v.items == [] then 0 else v.fee
  }

  lemma {:induction false} SubtotalNonNegative(lines: seq<Line>)
    requires forall i :: 0 <= i < |lines| ==> Sellable(lines[i])
    ensures Subtotal(lines) >= 0
  {
    if lines != [] {
      SubtotalNonNegative(lines[..|lines| - 1]);
      var l := lines[|lines| - 1];
      assert l.quantity * l.unitPrice >= 0;
    }
  }

  lemma DiscountInRange(subtotal: int, fraction: real)
    requires subtotal >= 0 && 0.0 < fraction < 1.0
    ensures 0 <= DiscountOf(subtotal, fraction) <= subtotal
  {
    var exact := subtotal as real * fraction;
    assert 0.0 <= exact <= subtotal as real;
  }

  lemma RepricedIsPriced(v: View, fraction: real)
    requires (forall i :: 0 <= i < |v.items| ==> Sellable(v.items[i])) && v.fee >= 0 && 0.0 <= fraction < 1.0
    ensures Priced(Repriced(v, fraction))
  {
    hide Sellable, Subtotal, DiscountOf;
    SubtotalNonNegative(v.items);
    if fraction > 0.0 {
      DiscountInRange(Subtotal(v.items), fraction);
    }
  }

  lemma WithoutSellable(lines: seq<Line>, key: Key)
    requires forall i :: 0 <= i < |lines| ==> Sellable(lines[i])
    ensures forall i :: 0 <= i < |Without(lines, key)| ==> Sellable(Without(lines, key)[i])
  {
    var at := WithoutKeepsOrder(lines, key);
  }

  /** Every operation, accepted or rejected, leaves the session priced. */
  lemma EveryEditKeepsPricing(up: char -> char, v: View, op: Op, now: int)
    requires Priced(v)
    ensures Priced(After(up, v, op, now).0)
  {
    hide Sellable, Subtotal, NormalizeLine, Repriced, UpperTrimmed;
    match op
    case SetItems(items) =>
      if forall i :: 0 <= i < |items| ==> Sellable(NormalizeLine(up, items[i])) {
        RepricedIsPriced(v.(items := Normalized(up, items)), 0.0);
      }
    case UpsertItem(item) =>
      if Sellable(NormalizeLine(up, item)) {
        RepricedIsPriced(v.(items := Upserted(v.items, NormalizeLine(up, item))), 0.0);
      }
    case Remove(key) =>
      WithoutSellable(v.items, NormalKey(up, key));
      RepricedIsPriced(v.(items := Without(v.items, NormalKey(up, key))), 0.0);
    case ApplyCoupon(code, fraction) =>
      if 0.0 < fraction < 1.0 {
        RepricedIsPriced(v.(coupon := UpperTrimmed(up, code)), fraction);
      }
    case ClearCoupon =>
      RepricedIsPriced(v.(coupon := ""), 0.0);
    case Complete(orderId) =>
  }

  function Run(up: char -> char, v: View, ops: seq<(Op, int)>): View {
    if ops == [] then v
    else
      var last := ops[|ops| - 1];
      After(up, Run(up, v, ops[..|ops| - 1]), last.0, last.1).0
  }

  /** Over every run of operations, rejected ones included, the totals shown are right. */
  lemma {:induction false} RunKeepsPricing(up: char -> char, v: View, ops: seq<(Op, int)>)
    requires Priced(v)
    ensures Priced(Run(up, v, ops))
  {
    if ops != [] {
      RunKeepsPricing(up, v, ops[..|ops| - 1]);
      EveryEditKeepsPricing(up, Run(up, v, ops[..|ops| - 1]), ops[|ops| - 1].0, ops[|ops| - 1].1);
    }
  }

  /** A rejected operation changes nothing, except that it may note the expiry. */
  lemma RejectionChangesNothing(up: char -> char, v: View, op: Op, now: int)
    requires After(up, v, op, now).1.Some?
    ensures After(up, v, op, now).0 == if now > v.expiresAt && v.stage == Open then v.(stage := Expired) else v
  {
  }

  /** Which operations an open session accepts, from what they were given. */
  ghost predicate Acceptable(v: View, op: Op) {
    match op
    case SetItems(items) => forall i :: 0 <= i < |items| ==> Orderable(items[i])
    case UpsertItem(item) => Orderable(item)
    case Remove(BySku(sku)) => !Text.Blank(sku)
    case Remove(BySkuId(skuId)) => !Text.Blank(skuId)
    case ApplyCoupon(code, fraction) => !Text.Blank(code) && 0.0 < fraction < 1.0
    case ClearCoupon => true
    case Complete(orderId) => v.items != [] && !Text.Blank(orderId)
  }

  /** A session accepts them until it is completed or its time is up, and nothing else. */
  lemma WhatIsAccepted(up: char -> char, v: View, op: Op, now: int)
    ensures After(up, v, op, now).1 == None <==> v.stage == Open && now <= v.expiresAt && Acceptable(v, op)
  {
    match op
    case SetItems(items) =>
      forall i | 0 <= i < |items| ensures Sellable(NormalizeLine(up, items[i])) <==> Orderable(items[i]) {
        OrderableLines(up, items[i]);
      }
      hide Sellable, Orderable, NormalizeLine;
    case UpsertItem(item) => OrderableLines(up, item);
    case Remove(BySku(sku)) => Text.TrimmedAway(sku);
    case Remove(BySkuId(skuId)) => Text.TrimmedAway(skuId);
    case ApplyCoupon(code, _) => Text.TrimmedAway(code);
    case ClearCoupon =>
    case Complete(orderId) => Text.TrimmedAway(orderId);
  }

  /** A coupon takes its fraction of the goods, rounded down, and nothing else changes. */
  lemma CouponTakesItsFraction(up: char -> char, v: View, code: string, fraction: real, now: int)
    requires After(up, v, Op.ApplyCoupon(code, fraction), now).1 == None
    ensures var w := After(up, v, Op.ApplyCoupon(code, fraction), now).0;
      && Within(w.discount, Subtotal(v.items), fraction)
      && w == v.(coupon := UpperTrimmed(up, code), subtotal := Subtotal(v.items), discount := w.discount,
                 total := Subtotal(v.items) - w.discount + if v.items == [] then 0 else v.fee)
  {
    hide Subtotal, UpperTrimmed;
  }

  /** Setting the items keeps each line's quantity and price, and its identifiers without blanks and letter case. */
  lemma ItemsAreKept(up: char -> char, v: View, items: seq<Line>, now: int)
    requires After(up, v, Op.SetItems(items), now).1 == None
    ensures var w := After(up, v, Op.SetItems(items), now).0;
      && |w.items| == |items| && w.coupon == v.coupon && w.discount == 0 && w.subtotal == Subtotal(items)
      && forall i :: 0 <= i < |items| ==>
           w.items[i] == Line(Text.TrimSpace(items[i].skuId), UpperTrimmed(up, items[i].sku),
                              items[i].quantity, items[i].unitPrice)
  {
    NormalizingKeepsSubtotal(up, items);
    hide Subtotal, Text.TrimSpace;
  }

  /** Completing notes the order and closes the session; clearing the coupon leaves none, and no discount. */
  lemma CompletingAndClearing(up: char -> char, v: View, orderId: string, now: int)
    ensures After(up, v, Op.Complete(orderId), now).1 == None ==>
      After(up, v, Op.Complete(orderId), now).0 == v.(stage := Completed, orderId := Text.TrimSpace(orderId))
    ensures After(up, v, Op.ClearCoupon, now).1 == None ==>
      var w := After(up, v, Op.ClearCoupon, now).0;
      && w.coupon == "" && w.discount == 0 && w.items == v.items && w.subtotal == Subtotal(v.items)
      && w.total == Subtotal(v.items) + if v.items == [] then 0 else v.fee
  {
    hide Subtotal, Text.TrimSpace;
  }

  /** Removal by SKU loses exactly the lines with that SKU, removal by id exactly those with that id. */
  lemma RemovalComparesItsField(up: char -> char, v: View, key: Key, now: int, l: Line)
    requires After(up, v, Op.Remove(key), now).1 == None
    ensures var kept := After(up, v, Op.Remove(key), now).0.items;
      match key
      case BySku(s) => multiset(kept)[l] == if l.sku == UpperTrimmed(up, s) then 0 else multiset(v.items)[l]
      case BySkuId(s) => multiset(kept)[l] == if l.skuId == Text.TrimSpace(s) then 0 else multiset(v.items)[l]
  {
    WithoutCounts(v.items, NormalKey(up, key), l);
    hide Without, Subtotal, Text.TrimSpace, UpperTrimmed;
  }

  /** Ids decide whether a line is the same variant where both have one, and SKUs where one has none. */
  lemma PutReplacesItsVariant(lines: seq<Line>, item: Line, k: nat)
    requires k < |lines|
    requires forall i :: 0 <= i < k ==>
      if item.skuId == "" || lines[i].skuId == "" then lines[i].sku != item.sku else lines[i].skuId != item.skuId
    ensures item.skuId != "" && lines[k].skuId == item.skuId ==> Upserted(lines, item) == lines[k := item]
    ensures (item.skuId == "" || lines[k].skuId == "") && lines[k].sku == item.sku ==>
      Upserted(lines, item) == lines[k := item]
  {
    assert FirstSame(lines, item) >= k;
  }

  /** Once completed or expired, a session never changes again. */
  lemma {:induction false} ClosedIsForever(up: char -> char, v: View, ops: seq<(Op, int)>)
    requires v.stage != Open
    ensures Run(up, v, ops) == v
  {
    if ops != [] {
      ClosedIsForever(up, v, ops[..|ops| - 1]);
    }
  }

  // --------------------------------------------------- the quote and the order

  /** Coupons are honoured: each code always stands for the fraction given here. */
  ghost predicate Honoured(up: char -> char, worth: string -> real, ops: seq<(Op, int)>) {
    forall i :: 0 <= i < |ops| && ops[i].0.ApplyCoupon? ==> ops[i].0.fraction == worth(UpperTrimmed(up, ops[i].0.code))
  }

  ghost predicate Quoted(worth: string -> real, v: View) {
    Priced(v) && (v.coupon != "" ==> 0.0 < worth(v.coupon) < 1.0)
    && (v.discount == 0 || v.discount == DiscountOf(v.subtotal, worth(v.coupon)))
  }

  lemma EditKeepsQuote(up: char -> char, worth: string -> real, v: View, op: Op, now: int)
    requires Quoted(worth, v)
    requires op.ApplyCoupon? ==> op.fraction == worth(UpperTrimmed(up, op.code))
    ensures Quoted(worth, After(up, v, op, now).0)
  {
    EveryEditKeepsPricing(up, v, op, now);
    hide Priced, UpperTrimmed, Subtotal, DiscountOf, Upserted, Without, Normalized;
  }

  /** The discount CompleteCheckout redeems: it asks for the coupon again instead of using the stored discount. */
  function CompletionDiscount(worth: string -> real, v: View): int {
    if v.coupon == "" then 0 else DiscountOf(v.subtotal, worth(v.coupon))
  }

  /** It is the coupon's fraction of the lines, rounded down. */
  lemma RedeemedIsTheFraction(worth: string -> real, v: View)
    requires Priced(v)
    ensures v.coupon != "" ==> Within(CompletionDiscount(worth, v), Subtotal(v.items), worth(v.coupon))
    ensures v.coupon == "" ==> CompletionDiscount(worth, v) == 0
  {
    hide Subtotal, Sellable;
  }

  /** Upper-casing does not turn text into blanks. */
  ghost predicate KeepsText(up: char -> char) {
    forall c :: !Text.IsSpace(c) ==> !Text.IsSpace(up(c))
  }

  lemma NormalLinesStaySellable(up: char -> char, l: Line)
    requires KeepsText(up) && Sellable(l) && Text.Trimmed(l.sku) && Text.Trimmed(l.skuId)
    ensures Sellable(NormalizeLine(up, l))
  {
    Text.TrimSpaceTrims(l.sku);
    Text.TrimSpaceTrims(l.skuId);
  }

  /** Stored lines carry trimmed identifiers. */
  ghost predicate Tidy(lines: seq<Line>) {
    forall i :: 0 <= i < |lines| ==> Text.Trimmed(lines[i].sku) && Text.Trimmed(lines[i].skuId)
  }

  lemma NormalLineIsTidy(up: char -> char, l: Line)
    requires KeepsText(up)
    ensures Tidy([NormalizeLine(up, l)])
  {
    Text.TrimSpaceTrims(l.sku);
    Text.TrimSpaceTrims(l.skuId);
  }

  lemma EditKeepsTidy(up: char -> char, v: View, op: Op, now: int)
    requires KeepsText(up) && Tidy(v.items)
    ensures Tidy(After(up, v, op, now).0.items)
  {
    hide NormalizeLine, Text.Trimmed, KeepsText, Sellable, UpperTrimmed, Matches, SameItem;
    match op
    case SetItems(items) =>
      forall i | 0 <= i < |items|
        ensures Text.Trimmed(NormalizeLine(up, items[i]).sku) && Text.Trimmed(NormalizeLine(up, items[i]).skuId)
      {
        NormalLineIsTidy(up, items[i]);
        assert Tidy([NormalizeLine(up, items[i])]) && [NormalizeLine(up, items[i])][0] == NormalizeLine(up, items[i]);
      }
    case UpsertItem(item) =>
      NormalLineIsTidy(up, item);
      assert Tidy([NormalizeLine(up, item)]) && [NormalizeLine(up, item)][0] == NormalizeLine(up, item);
    case Remove(key) =>
      var at := WithoutKeepsOrder(v.items, NormalKey(up, key));
    case _ =>
  }

  lemma NeverDearerThanShown(up: char -> char, worth: string -> real, v: View)
    requires KeepsText(up) && Quoted(worth, v) && Tidy(v.items) && v.items != []
    ensures BillFor(up, v.items, CompletionDiscount(worth, v), v.fee) ==
            Some(Bill(v.subtotal, CompletionDiscount(worth, v), v.fee,
                      v.subtotal - CompletionDiscount(worth, v) + v.fee))
    ensures CompletionDiscount(worth, v) >= v.discount >= 0
  {
    hide Sellable, NormalizeLine, Subtotal, DiscountOf, Text.Trimmed;
    SubtotalNonNegative(v.items);
    if v.coupon != "" {
      DiscountInRange(v.subtotal, worth(v.coupon));
    }
    NormalizingKeepsSubtotal(up, v.items);
    forall i | 0 <= i < |v.items| ensures Sellable(Normalized(up, v.items)[i]) {
      NormalLinesStaySellable(up, v.items[i]);
    }
  }

  lemma {:induction false} RunKeepsQuote(up: char -> char, worth: string -> real, v: View, ops: seq<(Op, int)>)
    requires Quoted(worth, v) && Tidy(v.items) && Honoured(up, worth, ops) && KeepsText(up)
    ensures Quoted(worth, Run(up, v, ops)) && Tidy(Run(up, v, ops).items)
  {
    hide Quoted, After, Tidy, KeepsText;
    if ops != [] {
      var init, last := ops[..|ops| - 1], ops[|ops| - 1];
      assert Honoured(up, worth, init);
      assert last == ops[|ops| - 1];
      RunKeepsQuote(up, worth, v, init);
      EditKeepsQuote(up, worth, Run(up, v, init), last.0, last.1);
      EditKeepsTidy(up, Run(up, v, init), last.0, last.1);
    }
  }

  /** What the last accepted operation did to the discount: a coupon sets it, any other edit of the basket drops it. */
  function LiveAfter(live: bool, op: Op): bool {
    match op
    case ApplyCoupon(_, _) => true
    case Complete(_) => live
    case _ => false
  }

  /** Whether the discount the session shows is that of its coupon; rejected operations leave it as it was. */
  function Live(up: char -> char, v: View, ops: seq<(Op, int)>): bool {
    if ops == [] then false
    else
      var init, last := ops[..|ops| - 1], ops[|ops| - 1];
      if After(up, Run(up, v, init), last.0, last.1).1 == None then LiveAfter(Live(up, v, init), last.0)
      else Live(up, v, init)
  }

  /** The discount a session shows after any run of edits. */
  ghost predicate Shows(worth: string -> real, v: View, live: bool) {
    v.discount == if live then DiscountOf(v.subtotal, worth(v.coupon)) else 0
  }

  lemma EditShows(up: char -> char, worth: string -> real, v: View, live: bool, op: Op, now: int)
    requires Shows(worth, v, live)
    requires op.ApplyCoupon? ==> op.fraction == worth(UpperTrimmed(up, op.code))
    ensures Shows(worth, After(up, v, op, now).0, if After(up, v, op, now).1 == None then LiveAfter(live, op) else live)
  {
    hide UpperTrimmed, Subtotal, DiscountOf, Upserted, Without, Normalized;
  }

  /** The discount shown is the coupon's while it is live, and nothing otherwise. */
  lemma {:induction false} DiscountFollowsTheEdits(up: char -> char, worth: string -> real,
        v: View, ops: seq<(Op, int)>)
    requires Honoured(up, worth, ops) && v.discount == 0
    ensures Shows(worth, Run(up, v, ops), Live(up, v, ops))
  {
    hide After, Shows;
    if ops == [] {
      assert Shows(worth, v, false) by {
        NothingShown(worth, v);
      }
    } else {
      var init, last := ops[..|ops| - 1], ops[|ops| - 1];
      assert last == ops[|ops| - 1] && Honoured(up, worth, init);
      DiscountFollowsTheEdits(up, worth, v, init);
      EditShows(up, worth, Run(up, v, init), Live(up, v, init), last.0, last.1);
    }
  }

  lemma NothingShown(worth: string -> real, v: View)
    requires v.discount == 0
    ensures Shows(worth, v, false)
  {
  }

  /**
   * However a fresh session is edited, with catalogue prices and coupons unchanged, completion creates an
   * order that never costs more than the session showed. It costs exactly that when the discount is live,
   * when there is no coupon, or when the coupon is worth nothing on these goods, and less in every other case.
   */
  lemma NeverDearerThanQuoted(up: char -> char, worth: string -> real, fee: nat, expiresAt: int, ops: seq<(Op, int)>)
    requires KeepsText(up) && Honoured(up, worth, ops)
    ensures var v0 := View([], Open, "", 0, 0, fee, 0, "", expiresAt);
      var v := Run(up, v0, ops);
      v.items != [] ==>
        var bill := BillFor(up, v.items, CompletionDiscount(worth, v), v.fee);
        bill.Some? && bill.value.total <= v.total
        && (bill.value.total == v.total <==>
              Live(up, v0, ops) || v.coupon == "" || DiscountOf(v.subtotal, worth(v.coupon)) == 0)
  {
    var v0 := View([], Open, "", 0, 0, fee, 0, "", expiresAt);
    assert Quoted(worth, v0) && Tidy(v0.items);
    RunKeepsQuote(up, worth, v0, ops);
    DiscountFollowsTheEdits(up, worth, v0, ops);
    var v, live := Run(up, v0, ops), Live(up, v0, ops);
    assert Shows(worth, v, live) && Priced(v);
    hide Run, Live, Quoted, Tidy, DiscountOf, Subtotal, BillFor, KeepsText;
    if v.items != [] {
      NeverDearerThanShown(up, worth, v);
    }
  }

  /**
   * They can differ: after a coupon of one half, putting the same line again drops the discount from the
   * session and not from the order. The session shows 1000, and the order costs 500.
   */
  lemma DroppedDiscountExample()
    ensures var up: char -> char, worth: string -> real := c => c, _ => 0.5;
      var line := Line("A", "", 1, 1000);
      var ops := [(SetItems([line]), 0), (ApplyCoupon("X", 0.5), 0), (UpsertItem(line), 0)];
      var v := Run(up, View([], Open, "", 0, 0, 0, 0, "", 10), ops);
      && Honoured(up, worth, ops) && v.total == 1000
      && BillFor(up, v.items, CompletionDiscount(worth, v), v.fee) == Some(Bill(1000, 500, 0, 500))
  {
    var up: char -> char, worth: string -> real := c => c, _ => 0.5;
    var line := Line("A", "", 1, 1000);
    var v0 := View([], Open, "", 0, 0, 0, 0, "", 10);
    var fill: (Op, int), coupon: (Op, int), put: (Op, int) :=
      (SetItems([line]), 0), (ApplyCoupon("X", 0.5), 0), (UpsertItem(line), 0);
    var v1 := View([line], Open, "", 1000, 0, 0, 1000, "", 10);
    var v2 := View([line], Open, "X", 1000, 500, 0, 500, "", 10);
    var v3 := View([line], Open, "X", 1000, 0, 0, 1000, "", 10);
    Text.TrimSpaceTrims("A");
    Text.TrimSpaceTrims("");
    Text.TrimSpaceTrims("X");
    assert Text.MapRunes(up, "X") == "X" && Text.MapRunes(up, "") == "";
    assert NormalizeLine(up, line) == line && Normalized(up, [line]) == [line];
    assert Subtotal([line]) == 1000 by {
      assert [line][..0] == [];
    }
    assert (1000 as real * 0.5).Floor == 500;
    hide Text.TrimSpace, Text.MapRunes, NormalizeLine, Normalized, Subtotal;
    assert After(up, v0, fill.0, 0).0 == v1;
    assert After(up, v1, coupon.0, 0).0 == v2;
    assert After(up, v2, put.0, 0).0 == v3;
    hide After;
    var ops := [fill, coupon, put];
    assert ops[..2] == [fill, coupon] && ops[..2][..1] == [fill] && ops[..2][..1][..0] == [];
    assert Run(up, v0, ops[..2][..1]) == v1;
    assert Run(up, v0, ops[..2]) == v2;
    assert Run(up, v0, ops) == v3;
  }
}
