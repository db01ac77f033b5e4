/**
 * Stock and reservations of the product service: lines are resolved to canonical variants and
 * merged, reserved all or nothing, and closed once by a commit or a release.
 */
module Inventory {
  import opened Common
  import Text

  datatype Ref = Ref(skuId: string, sku: string)

  datatype ItemRef = ItemRef(ref: Ref, quantity: int)

  datatype Variant = Variant(skuId: string, sku: string)

  datatype Line = Line(skuId: string, sku: string, quantity: int)

  datatype Stock = Stock(quantity: int, reserved: int)

  datatype Status = Active | Committed | Released

  datatype Reservation = Reservation(order: string, lines: seq<Line>, status: Status)

  datatype Error = InvalidSku | InvalidQuantity | InsufficientStock | NotFound
    | AlreadyCommitted | AlreadyReleased | InvalidId

  // -------------------------------------------------------------- resolution

  /** The variant tables, and the rune table of strings.ToUpper. */
  datatype Catalog = Catalog(bySkuId: map<string, Variant>, bySku: map<string, Variant>, up: char -> char)

  function Resolve(cat: Catalog, ref: Ref): Option<Variant> {
    if ref.skuId != "" then
      if ref.skuId in cat.bySkuId then Some(cat.bySkuId[ref.skuId]) else None
    else
      var normalized := Text.MapRunes(cat.up, Text.TrimSpace(ref.sku));
      if normalized != "" && normalized in cat.bySku then Some(cat.bySku[normalized]) else None
  }

  /** An id on record names its variant, whatever SKU comes with it; an unknown id names nothing. */
  lemma AnIdNamesItsVariant(cat: Catalog, ref: Ref)
    requires ref.skuId != ""
    ensures forall v :: Resolve(cat, ref) == Some(v) <==> ref.skuId in cat.bySkuId && cat.bySkuId[ref.skuId] == v
  {
  }

  /** Without an id a SKU names its variant in any letter case and between any blanks, and blanks alone name nothing. */
  lemma AnySpellingNamesItsVariant(cat: Catalog, before: string, code: string, behind: string)
    requires Text.Blank(before) && Text.Blank(behind) && Text.Trimmed(code)
    ensures var key := Text.MapRunes(cat.up, code);
      forall v :: Resolve(cat, Ref("", before + code + behind)) == Some(v) <==>
                    code != "" && key in cat.bySku && cat.bySku[key] == v
  {
    Text.TrimSpaceFinds(before, code, behind);
    hide Text.TrimSpace;
  }

  predicate Good(cat: Catalog, item: ItemRef) {
    item.quantity > 0 && Resolve(cat, item.ref).Some?
  }

  predicate Means(cat: Catalog, item: ItemRef, id: string) {
    Resolve(cat, item.ref).Some? && Resolve(cat, item.ref).value.skuId == id
  }

  /** How many units of a variant the input asks for, whichever identifier each line used. */
  function Asked(cat: Catalog, items: seq<ItemRef>, id: string): int {
    if items == [] then 0
    else Asked(cat, items[..|items| - 1], id)
         + if Means(cat, items[|items| - 1], id) then items[|items| - 1].quantity else 0
  }

  /** The index of the first line that means a variant, or the number of lines. */
  function FirstSeen(cat: Catalog, items: seq<ItemRef>, id: string): (n: nat)
    ensures n <= |items|
  {
    if items == [] then 0
    else
      var init := items[..|items| - 1];
      var f := FirstSeen(cat, init, id);
      if f < |init| then f else if Means(cat, items[|init|], id) then |init| else |items|
  }

  /** How many units of a variant these lines hold. */
  function Held(lines: seq<Line>, id: string): int {
    if lines == [] then 0
    else Held(lines[..|lines| - 1], id) + if lines[|lines| - 1].skuId == id then lines[|lines| - 1].quantity else 0
  }

  ghost predicate Distinct(lines: seq<Line>) {
    forall i, j :: 0 <= i < j < |lines| ==> lines[i].skuId != lines[j].skuId
  }

  ghost predicate Positive(lines: seq<Line>) {
    forall i :: 0 <= i < |lines| ==> lines[i].quantity > 0
  }

  /** Merged lines stand for the input: the same variants in first-seen order, with the input's totals. */
  ghost predicate Merges(cat: Catalog, items: seq<ItemRef>, lines: seq<Line>) {
    Distinct(lines) && Positive(lines)
    && (forall id :: Held(lines, id) == Asked(cat, items, id))
    && (forall i :: 0 <= i < |lines| ==> FirstSeen(cat, items, lines[i].skuId) < |items|)
    && (forall i, j :: 0 <= i < j < |lines| ==>
          FirstSeen(cat, items, lines[i].skuId) < FirstSeen(cat, items, lines[j].skuId))
  }

  /** Each merged line carries the SKU on record for the first request line that meant its variant. */
  ghost predicate Labeled(cat: Catalog, items: seq<ItemRef>, lines: seq<Line>) {
    forall i :: 0 <= i < |lines| ==>
      var first := FirstSeen(cat, items, lines[i].skuId);
      first < |items| && Resolve(cat, items[first].ref) == Some(Variant(lines[i].skuId, lines[i].sku))
  }

  lemma {:induction false} FirstMeans(cat: Catalog, items: seq<ItemRef>, id: string)
    ensures var first := FirstSeen(cat, items, id);
      (first < |items| ==> Means(cat, items[first], id)) && forall j :: 0 <= j < first ==> !Means(cat, items[j], id)
  {
    hide Means;
    if items != [] {
      FirstMeans(cat, items[..|items| - 1], id);
    }
  }

  /** Lines that all mean one variant, by its id or by any spelling of its SKU, merge into one line of their total. */
  lemma OneVariantOneLine(cat: Catalog, items: seq<ItemRef>, lines: seq<Line>, id: string)
    requires items != [] && Merges(cat, items, lines)
    requires forall i :: 0 <= i < |items| ==> items[i].quantity > 0 && Means(cat, items[i], id)
    ensures |lines| == 1 && lines[0].skuId == id && lines[0].quantity == Total(items)
  {
    hide Means, Resolve;
    AskedTotal(cat, items, id);
    HeldSomewhere(lines, id);
    var k :| 0 <= k < |lines| && lines[k].skuId == id;
    HeldAt(lines, k);
    forall i | 0 <= i < |lines| ensures lines[i].skuId == id {
      FirstMeans(cat, items, lines[i].skuId);
      OneMeaning(cat, items[FirstSeen(cat, items, lines[i].skuId)], id, lines[i].skuId);
    }
  }

  lemma OneMeaning(cat: Catalog, item: ItemRef, id: string, other: string)
    requires Means(cat, item, id) && Means(cat, item, other)
    ensures id == other
  {
  }

  function Total(items: seq<ItemRef>): int {
    if items == [] then 0 else Total(items[..|items| - 1]) + items[|items| - 1].quantity
  }

  lemma {:induction false} AskedTotal(cat: Catalog, items: seq<ItemRef>, id: string)
    requires forall i :: 0 <= i < |items| ==> items[i].quantity > 0 && Means(cat, items[i], id)
    ensures Asked(cat, items, id) == Total(items) && (items != [] ==> Total(items) > 0)
  {
    hide Means;
    if items != [] {
      AskedTotal(cat, items[..|items| - 1], id);
    }
  }

  /** In particular a line by id and a line by any spelling of the SKU make one line with the sum. */
  lemma IdAndSkuMerge(cat: Catalog, v: Variant, byId: ItemRef, bySku: ItemRef, lines: seq<Line>,
                      before: string, code: string, behind: string)
    requires v.skuId != "" && v.skuId in cat.bySkuId && cat.bySkuId[v.skuId] == v
    requires code != "" && Text.MapRunes(cat.up, code) in cat.bySku && cat.bySku[Text.MapRunes(cat.up, code)] == v
    requires Text.Blank(before) && Text.Blank(behind) && Text.Trimmed(code)
    requires byId.ref.skuId == v.skuId && bySku.ref == Ref("", before + code + behind)
    requires byId.quantity > 0 && bySku.quantity > 0
    ensures Good(cat, byId) && Good(cat, bySku)
    ensures Merges(cat, [byId, bySku], lines) && Labeled(cat, [byId, bySku], lines) ==>
      lines == [Line(v.skuId, v.sku, byId.quantity + bySku.quantity)]
    ensures Merges(cat, [bySku, byId], lines) && Labeled(cat, [bySku, byId], lines) ==>
      lines == [Line(v.skuId, v.sku, byId.quantity + bySku.quantity)]
  {
    AnIdNamesItsVariant(cat, byId.ref);
    AnySpellingNamesItsVariant(cat, before, code, behind);
    assert Resolve(cat, byId.ref) == Some(v) && Resolve(cat, bySku.ref) == Some(v);
    hide Resolve, Asked, Merges, FirstSeen;
    forall items: seq<ItemRef> | items in {[byId, bySku], [bySku, byId]}
                                 && Merges(cat, items, lines) && Labeled(cat, items, lines)
      ensures lines == [Line(v.skuId, v.sku, byId.quantity + bySku.quantity)]
    {
      OneVariantOneLine(cat, items, lines, v.skuId);
      assert items[..1][..0] == [];
      assert Total(items[..1]) == items[0].quantity;
      assert lines == [lines[0]];
    }
  }

  lemma {:induction false} HeldAt(lines: seq<Line>, k: nat)
    requires Distinct(lines) && k < |lines|
    ensures Held(lines, lines[k].skuId) == lines[k].quantity
  {
    var n := |lines| - 1;
    if k == n {
      HeldNowhere(lines[..n], lines[n].skuId);
    } else {
      HeldAt(lines[..n], k);
    }
  }

  lemma {:induction false} HeldNowhere(lines: seq<Line>, id: string)
    requires forall i :: 0 <= i < |lines| ==> lines[i].skuId != id
    ensures Held(lines, id) == 0
  {
    if lines != [] {
      HeldNowhere(lines[..|lines| - 1], id);
    }
  }

  lemma {:induction false} HeldSomewhere(lines: seq<Line>, id: string)
    requires Positive(lines)
    ensures Held(lines, id) >= 0
    ensures (exists i :: 0 <= i < |lines| && lines[i].skuId == id) <==> Held(lines, id) > 0
  {
    if lines != [] {
      HeldSomewhere(lines[..|lines| - 1], id);
      if Held(lines[..|lines| - 1], id) > 0 {
        var i :| 0 <= i < |lines| - 1 && lines[..|lines| - 1][i].skuId == id;
        assert lines[i].skuId == id;
      }
    }
  }

  lemma {:induction false} HeldUpdate(lines: seq<Line>, k: nat, q: int, id: string)
    requires k < |lines|
    ensures Held(lines[k := lines[k].(quantity := lines[k].quantity + q)], id)
            == Held(lines, id) + if lines[k].skuId == id then q else 0
  {
    var n := |lines| - 1;
    var changed := lines[k := lines[k].(quantity := lines[k].quantity + q)];
    if k == n {
      assert changed[..n] == lines[..n];
    } else {
      HeldUpdate(lines[..n], k, q, id);
      assert changed[..n] == lines[..n][k := lines[..n][k].(quantity := lines[k].quantity + q)];
    }
  }

  lemma OneMore(cat: Catalog, items: seq<ItemRef>, item: ItemRef, id: string)
    ensures Asked(cat, items + [item], id) == Asked(cat, items, id) + if Means(cat, item, id) then item.quantity else 0
    ensures FirstSeen(cat, items + [item], id)
            == if FirstSeen(cat, items, id) < |items| then FirstSeen(cat, items, id)
               else if Means(cat, item, id) then |items| else |items| + 1
  {
    assert (items + [item])[..|items|] == items;
  }

  /** A further line for a variant already listed adds to its line. */
  lemma MergeAdds(cat: Catalog, items: seq<ItemRef>, lines: seq<Line>, item: ItemRef, k: nat)
    requires Merges(cat, items, lines) && Good(cat, item)
    requires k < |lines| && Means(cat, item, lines[k].skuId)
    ensures Merges(cat, items + [item], lines[k := lines[k].(quantity := lines[k].quantity + item.quantity)])
  {
    hide Resolve;
    var all := items + [item];
    var lines' := lines[k := lines[k].(quantity := lines[k].quantity + item.quantity)];
    forall id ensures Held(lines', id) == Asked(cat, all, id) {
      HeldUpdate(lines, k, item.quantity, id);
      OneMore(cat, items, item, id);
    }
    forall i | 0 <= i < |lines'|
      ensures lines'[i].skuId == lines[i].skuId
      ensures FirstSeen(cat, all, lines'[i].skuId) == FirstSeen(cat, items, lines[i].skuId)
    {
      OneMore(cat, items, item, lines[i].skuId);
    }
  }

  /** A line for a variant not yet listed opens a line of its own, at the end. */
  lemma MergeAppends(cat: Catalog, items: seq<ItemRef>, lines: seq<Line>, item: ItemRef, line: Line)
    requires Merges(cat, items, lines) && Good(cat, item) && forall i :: 0 <= i < |items| ==> items[i].quantity > 0
    requires Means(cat, item, line.skuId) && line.quantity == item.quantity
    requires forall k :: 0 <= k < |lines| ==> lines[k].skuId != line.skuId
    ensures Merges(cat, items + [item], lines + [line])
  {
    hide Resolve;
    var all, lines' := items + [item], lines + [line];
    assert lines'[..|lines|] == lines;
    forall id ensures Held(lines', id) == Asked(cat, all, id) {
      OneMore(cat, items, item, id);
    }
    HeldNowhere(lines, line.skuId);
    NotAskedYet(cat, items, line.skuId);
    OneMore(cat, items, item, line.skuId);
    forall i | 0 <= i < |lines|
      ensures FirstSeen(cat, all, lines'[i].skuId) == FirstSeen(cat, items, lines[i].skuId)
    {
      OneMore(cat, items, item, lines[i].skuId);
    }
  }

  /** A variant nobody asked a unit of has not been seen. */
  lemma {:induction false} NotAskedYet(cat: Catalog, items: seq<ItemRef>, id: string)
    ensures (forall i :: 0 <= i < |items| ==> items[i].quantity > 0) && Asked(cat, items, id) == 0 ==>
              FirstSeen(cat, items, id) == |items|
    ensures (forall i :: 0 <= i < |items| ==> items[i].quantity > 0) ==> Asked(cat, items, id) >= 0
  {
    if items != [] {
      NotAskedYet(cat, items[..|items| - 1], id);
    }
  }

  lemma NothingLabeled(cat: Catalog)
    ensures Labeled(cat, [], [])
  {
  }

  lemma NothingMerged(cat: Catalog)
    ensures Merges(cat, [], [])
  {
  }

  /** What the first unusable line is refused for. */
  function Refusal(cat: Catalog, item: ItemRef): Error {
    if item.quantity <= 0 then InvalidQuantity else InvalidSku
  }

  ghost predicate RefusedFor(cat: Catalog, items: seq<ItemRef>, e: Error) {
    if items == [] then e == InvalidQuantity
    else exists k :: 0 <= k < |items| && !Good(cat, items[k]) && e == Refusal(cat, items[k])
                     && forall j :: 0 <= j < k ==> Good(cat, items[j])
  }

  lemma StillLabeled(cat: Catalog, items: seq<ItemRef>, item: ItemRef, lines: seq<Line>, more: seq<Line>)
    requires Labeled(cat, items, lines)
    requires |more| >= |lines|
    requires forall k :: 0 <= k < |lines| ==> more[k].skuId == lines[k].skuId && more[k].sku == lines[k].sku
    requires |more| == |lines| || (|more| == |lines| + 1 && FirstSeen(cat, items, more[|lines|].skuId) == |items|
                                   && Resolve(cat, item.ref) == Some(Variant(more[|lines|].skuId, more[|lines|].sku)))
    ensures Labeled(cat, items + [item], more)
  {
    hide Resolve, FirstSeen;
    forall k | 0 <= k < |more|
      ensures FirstSeen(cat, items + [item], more[k].skuId)
              == if k < |lines| then FirstSeen(cat, items, lines[k].skuId) else |items|
    {
      OneMore(cat, items, item, more[k].skuId);
    }
  }

  lemma FirstOfItsKind(cat: Catalog, items: seq<ItemRef>, lines: seq<Line>, id: string)
    requires Merges(cat, items, lines) && forall i :: 0 <= i < |items| ==> items[i].quantity > 0
    requires forall k :: 0 <= k < |lines| ==> lines[k].skuId != id
    ensures FirstSeen(cat, items, id) == |items|
  {
    HeldNowhere(lines, id);
    NotAskedYet(cat, items, id);
  }

  method ResolveReservationItems(cat: Catalog, items: seq<ItemRef>) returns (r: Result<seq<Line>, Error>)
    ensures r.Ok? <==> items != [] && forall i :: 0 <= i < |items| ==> Good(cat, items[i])
    ensures r.Ok? ==> Merges(cat, items, r.value) && Labeled(cat, items, r.value)
    ensures r.Err? ==> RefusedFor(cat, items, r.error)
  {
    hide Resolve, Merges, Labeled, FirstSeen;
    if items == [] {
      return Err(InvalidQuantity);
    }
    var quantities: map<string, (string, int)> := map[];
    var order: seq<string> := [];
    ghost var lines: seq<Line> := [];
    NothingMerged(cat);
    NothingLabeled(cat);
    for i := 0 to |items|
      invariant forall j :: 0 <= j < i ==> Good(cat, items[j])
      invariant Merges(cat, items[..i], lines) && Labeled(cat, items[..i], lines) && |lines| == |order|
      invariant forall id :: id in quantities <==> id in order
      invariant forall j, k :: 0 <= j < k < |order| ==> order[j] != order[k]
      invariant forall k :: 0 <= k < |order| ==>
                  order[k] in quantities && lines[k] == Line(order[k], quantities[order[k]].0, quantities[order[k]].1)
    {
      var item := items[i];
      if item.quantity <= 0 {
        return Err(InvalidQuantity);
      }
      var v := Resolve(cat, item.ref);
      if v == None {
        return Err(InvalidSku);
      }
      var id := v.value.skuId;
      assert items[..i + 1] == items[..i] + [item];
      if id in quantities {
        ghost var k :| 0 <= k < |order| && order[k] == id;
        MergeAdds(cat, items[..i], lines, item, k);
        ghost var more := lines[k := lines[k].(quantity := lines[k].quantity + item.quantity)];
        StillLabeled(cat, items[..i], item, lines, more);
        lines := more;
        quantities := quantities[id := (quantities[id].0, quantities[id].1 + item.quantity)];
      } else {
        ghost var line := Line(id, v.value.sku, item.quantity);
        assert forall k :: 0 <= k < |lines| ==> lines[k].skuId == order[k] != id;
        MergeAppends(cat, items[..i], lines, item, line);
        FirstOfItsKind(cat, items[..i], lines, id);
        StillLabeled(cat, items[..i], item, lines, lines + [line]);
        lines := lines + [line];
        quantities := quantities[id := (v.value.sku, item.quantity)];
        order := order + [id];
      }
    }
    assert items[..|items|] == items;
    var normalized: seq<Line> := [];
    for k := 0 to |order|
      invariant normalized == lines[..k]
    {
      normalized := normalized + [Line(order[k], quantities[order[k]].0, quantities[order[k]].1)];
    }
    assert normalized == lines;
    return Ok(normalized);
  }

  // ------------------------------------------------------------ the store

  /** What an active reservation holds of a variant; a closed one holds nothing. */
  function HeldBy(r: Reservation, id: string): int {
    if r.status == Active then Held(r.lines, id) else 0
  }

  function HeldByAll(rs: seq<Reservation>, id: string): int {
    if rs == [] then 0 else HeldByAll(rs[..|rs| - 1], id) + HeldBy(rs[|rs| - 1], id)
  }

  lemma {:induction false} HeldByAllUpdate(rs: seq<Reservation>, k: nat, r: Reservation, id: string)
    requires k < |rs|
    ensures HeldByAll(rs[k := r], id) == HeldByAll(rs, id) - HeldBy(rs[k], id) + HeldBy(r, id)
  {
    var n := |rs| - 1;
    if k == n {
      assert rs[k := r][..n] == rs[..n];
    } else {
      HeldByAllUpdate(rs[..n], k, r, id);
      assert rs[k := r][..n] == rs[..n][k := r];
    }
  }

  lemma HeldByAllAppend(rs: seq<Reservation>, r: Reservation, id: string)
    ensures HeldByAll(rs + [r], id) == HeldByAll(rs, id) + HeldBy(r, id)
  {
    assert (rs + [r])[..|rs|] == rs;
  }

  lemma {:induction false} HeldByOneOfAll(rs: seq<Reservation>, k: nat, id: string)
    requires k < |rs| && forall i :: 0 <= i < |rs| ==> Positive(rs[i].lines)
    ensures 0 <= HeldBy(rs[k], id) <= HeldByAll(rs, id)
  {
    HeldSomewhere(rs[|rs| - 1].lines, id);
    HeldSomewhere(rs[k].lines, id);
    if |rs| > 1 {
      HeldByOneOfAll(rs[..|rs| - 1], if k < |rs| - 1 then k else 0, id);
    }
  }

  /** Stock after a reservation of these lines, or after it is closed. */
  function Reserve(items: map<string, Stock>, lines: seq<Line>): map<string, Stock> {
    map id | id in items :: items[id].(reserved := items[id].reserved + Held(lines, id))
  }

  function Close(items: map<string, Stock>, lines: seq<Line>, commit: bool): map<string, Stock> {
    map id | id in items ::
      Stock(items[id].quantity - (if commit then Held(lines, id) else 0), items[id].reserved - Held(lines, id))
  }

  predicate InStock(items: map<string, Stock>, id: string, q: int) {
    id in items && items[id].quantity - items[id].reserved >= q
  }

  predicate Covered(items: map<string, Stock>, line: Line) {
    InStock(items, line.skuId, line.quantity)
  }

  /** Every line finds its units on hand. */
  ghost predicate AllCovered(items: map<string, Stock>, lines: seq<Line>) {
    forall i :: 0 <= i < |lines| ==> Covered(items, lines[i])
  }

  /** Every variant finds its requested total on hand. */
  ghost predicate AllInStock(cat: Catalog, request: seq<ItemRef>, items: map<string, Stock>) {
    forall id :: Asked(cat, request, id) > 0 ==> InStock(items, id, Asked(cat, request, id))
  }

  lemma MergedTotal(cat: Catalog, request: seq<ItemRef>, lines: seq<Line>, id: string)
    requires Merges(cat, request, lines)
    ensures Held(lines, id) == Asked(cat, request, id)
  {
  }

  /** Checking the merged lines one by one is checking each variant's total. */
  lemma MergedInStock(cat: Catalog, request: seq<ItemRef>, lines: seq<Line>, items: map<string, Stock>)
    requires Merges(cat, request, lines)
    ensures Positive(lines) && Distinct(lines)
    ensures AllCovered(items, lines) <==> AllInStock(cat, request, items)
  {
    hide Held, Asked, FirstSeen, InStock;
    if AllCovered(items, lines) {
      forall id | Asked(cat, request, id) > 0 ensures InStock(items, id, Asked(cat, request, id)) {
        HeldSomewhere(lines, id);
        var i :| 0 <= i < |lines| && lines[i].skuId == id;
        HeldAt(lines, i);
        assert Covered(items, lines[i]);
      }
    }
    if AllInStock(cat, request, items) {
      forall i | 0 <= i < |lines| ensures Covered(items, lines[i]) {
        HeldAt(lines, i);
        assert Asked(cat, request, lines[i].skuId) == lines[i].quantity;
      }
    }
  }

  /** Each variant's reserved count is what the active reservations hold, and never more than is in stock. */
  ghost predicate Balanced(items: map<string, Stock>, rs: seq<Reservation>) {
    && (forall i :: 0 <= i < |rs| ==> Positive(rs[i].lines) && Distinct(rs[i].lines))
    && (forall id :: id in items ==> 0 <= items[id].reserved <= items[id].quantity)
    && (forall id :: HeldByAll(rs, id) == if id in items then items[id].reserved else 0)
  }

  /** Releasing a reservation undoes it; committing it takes exactly its units out of stock. */
  lemma CloseUndoesReserve(items: map<string, Stock>, lines: seq<Line>)
    ensures Close(Reserve(items, lines), lines, false) == items
    ensures forall id :: id in items ==>
              Close(Reserve(items, lines), lines, true)[id]
              == items[id].(quantity := items[id].quantity - Held(lines, id))
  {
  }

  lemma ReserveBalances(items: map<string, Stock>, rs: seq<Reservation>, order: string, lines: seq<Line>)
    requires Balanced(items, rs) && Positive(lines) && Distinct(lines)
    requires AllCovered(items, lines)
    ensures Balanced(Reserve(items, lines), rs + [Reservation(order, lines, Active)])
  {
    var items', rs' := Reserve(items, lines), rs + [Reservation(order, lines, Active)];
    forall id ensures HeldByAll(rs', id) == if id in items' then items'[id].reserved else 0 {
      HeldByAllAppend(rs, Reservation(order, lines, Active), id);
      HeldSomewhere(lines, id);
    }
    forall id | id in items' ensures 0 <= items'[id].reserved <= items'[id].quantity {
      HeldSomewhere(lines, id);
      if Held(lines, id) > 0 {
        var i :| 0 <= i < |lines| && lines[i].skuId == id;
        HeldAt(lines, i);
      }
    }
  }

  lemma CloseBalances(items: map<string, Stock>, rs: seq<Reservation>, k: nat, commit: bool)
    requires Balanced(items, rs) && k < |rs| && rs[k].status == Active
    ensures Balanced(Close(items, rs[k].lines, commit),
                 rs[k := rs[k].(status := if commit then Committed else Released)])
  {
    var closed := rs[k].(status := if commit then Committed else Released);
    var items', rs' := Close(items, rs[k].lines, commit), rs[k := closed];
    forall id
      ensures HeldByAll(rs', id) == if id in items' then items'[id].reserved else 0
      ensures id in items' ==> 0 <= items'[id].reserved <= items'[id].quantity
    {
      HeldByAllUpdate(rs, k, closed, id);
      HeldByOneOfAll(rs, k, id);
    }
  }

  // --------------------------------------------------------- runs of store calls

  datatype Store = Store(items: map<string, Stock>, reservations: seq<Reservation>)

  /** The calls the service makes; each is atomic, and those of different requests interleave freely. */
  datatype StoreCall =
    | Ensure(id: string)
    | SetTo(id: string, quantity: int)
    | AdjustBy(id: string, delta: int)
    | Create(order: string, lines: seq<Line>)
    | Finalize(reservation: nat, commit: bool)

  /** What a call leaves; a refused one changes nothing. */
  ghost function AfterCall(s: Store, c: StoreCall): Store {
    match c
    case Ensure(id) => if id in s.items then s else s.(items := s.items[id := Stock(0, 0)])
    case SetTo(id, q) =>
      if id in s.items && q >= s.items[id].reserved then s.(items := s.items[id := s.items[id].(quantity := q)]) else s
    case AdjustBy(id, d) =>
      if id in s.items && s.items[id].quantity + d >= s.items[id].reserved
      then s.(items := s.items[id := s.items[id].(quantity := s.items[id].quantity + d)]) else s
    case Create(order, lines) =>
      if AllCovered(s.items, lines)
      then Store(Reserve(s.items, lines), s.reservations + [Reservation(order, lines, Active)]) else s
    case Finalize(k, commit) =>
      if k < |s.reservations| && s.reservations[k].status == Active
      then Store(Close(s.items, s.reservations[k].lines, commit),
                 s.reservations[k := s.reservations[k].(status := if commit then Committed else Released)])
      else s
  }

  /** Reservation lines as the service merges them. */
  ghost predicate MergedLines(c: StoreCall) {
    c.Create? ==> Positive(c.lines) && Distinct(c.lines)
  }

  lemma CallBalances(s: Store, c: StoreCall)
    requires Balanced(s.items, s.reservations) && MergedLines(c)
    ensures Balanced(AfterCall(s, c).items, AfterCall(s, c).reservations)
  {
    match c
    case Create(order, lines) =>
      hide Balanced, Reserve;
      if AllCovered(s.items, lines) {
        ReserveBalances(s.items, s.reservations, order, lines);
      }
    case Finalize(k, commit) =>
      hide Balanced, Close;
      if k < |s.reservations| && s.reservations[k].status == Active {
        CloseBalances(s.items, s.reservations, k, commit);
      }
    case _ =>
      hide HeldByAll;
  }

  ghost function AfterCalls(s: Store, calls: seq<StoreCall>): Store {
    if calls == [] then s else AfterCall(AfterCalls(s, calls[..|calls| - 1]), calls[|calls| - 1])
  }

  /**
   * However the calls of upserts, adjustments, reservations and closes interleave, every variant keeps
   * 0 <= reserved <= quantity, with reserved the sum of what the active reservations hold.
   */
  lemma {:induction false} EveryRunBalances(s: Store, calls: seq<StoreCall>)
    requires Balanced(s.items, s.reservations) && forall i :: 0 <= i < |calls| ==> MergedLines(calls[i])
    ensures Balanced(AfterCalls(s, calls).items, AfterCalls(s, calls).reservations)
  {
    hide Balanced, AfterCall, MergedLines;
    if calls != [] {
      EveryRunBalances(s, calls[..|calls| - 1]);
      CallBalances(AfterCalls(s, calls[..|calls| - 1]), calls[|calls| - 1]);
    }
  }

  /** A closed reservation is never reopened, and no reservation's lines ever change. */
  lemma {:induction false} ReservationsCloseOnce(s: Store, calls: seq<StoreCall>, k: nat)
    requires k < |s.reservations|
    ensures var t := AfterCalls(s, calls);
      k < |t.reservations| && t.reservations[k].lines == s.reservations[k].lines
      && (s.reservations[k].status != Active ==> t.reservations[k] == s.reservations[k])
  {
    hide Reserve, Close;
    if calls != [] {
      ReservationsCloseOnce(s, calls[..|calls| - 1], k);
    }
  }

  /** Reserving keeps every count in range exactly when each variant's total fits what is in stock. */
  lemma TotalsDecide(items: map<string, Stock>, lines: seq<Line>)
    requires forall id :: id in items ==> 0 <= items[id].reserved <= items[id].quantity
    requires Positive(lines)
    ensures (forall id :: id in items ==> 0 <= Reserve(items, lines)[id].reserved <= Reserve(items, lines)[id].quantity)
      <==> forall id :: id in items ==> InStock(items, id, Held(lines, id))
  {
    forall id | id in items
      ensures 0 <= Held(lines, id) && Reserve(items, lines)[id].quantity == items[id].quantity
      ensures Reserve(items, lines)[id].reserved == items[id].reserved + Held(lines, id)
    {
      HeldSomewhere(lines, id);
    }
    if forall id :: id in items ==> InStock(items, id, Held(lines, id)) {
      forall id | id in items ensures 0 <= Reserve(items, lines)[id].reserved <= Reserve(items, lines)[id].quantity {
        assert InStock(items, id, Held(lines, id));
      }
    } else {
      var id :| id in items && !InStock(items, id, Held(lines, id));
      assert Reserve(items, lines)[id].reserved > Reserve(items, lines)[id].quantity;
    }
  }

  /** The store checks line by line only, so lines that repeat a variant could reserve more than there is. */
  lemma RepeatedLinesOversell()
    ensures var items, line := map["A" := Stock(1, 0)], Line("A", "A", 1);
      AllCovered(items, [line, line]) && Reserve(items, [line, line])["A"] == Stock(1, 2)
  {
    var line := Line("A", "A", 1);
    assert [line, line][..1] == [line] && [line][..0] == [];
    assert Held([line], "A") == 1;
  }

  class InventoryStore {
    var items: map<string, Stock>
    var reservations: seq<Reservation>

    constructor ()
      ensures Valid() && items == map[] && reservations == []
    {
      items, reservations := map[], [];
    }

    ghost predicate Valid()
      reads this
    {
      Balanced(items, reservations)
    }

    ghost function Snapshot(): Store
      reads this
    {
      Store(items, reservations)
    }

    method EnsureItem(id: string)
      requires Valid()
      modifies this
      ensures Valid() && reservations == old(reservations)
      ensures items == if id in old(items) then old(items) else old(items)[id := Stock(0, 0)]
      ensures Snapshot() == AfterCall(old(Snapshot()), Ensure(id))
    {
      if id !in items {
        items := items[id := Stock(0, 0)];
      }
    }

    method SetQuantity(id: string, quantity: int) returns (err: Option<Error>)
      requires Valid()
      modifies this
      ensures Valid() && reservations == old(reservations)
      ensures err == (if id !in old(items) then Some(NotFound)
                      else if quantity < old(items)[id].reserved then Some(InsufficientStock) else None)
      ensures items == if err == None then old(items)[id := old(items)[id].(quantity := quantity)] else old(items)
      ensures Snapshot() == AfterCall(old(Snapshot()), SetTo(id, quantity))
    {
      if id !in items {
        return Some(NotFound);
      }
      if quantity < items[id].reserved {
        return Some(InsufficientStock);
      }
      items := items[id := items[id].(quantity := quantity)];
      return None;
    }

    method AdjustQuantity(id: string, delta: int) returns (err: Option<Error>)
      requires Valid()
      modifies this
      ensures Valid() && reservations == old(reservations)
      ensures err == (if id !in old(items) then Some(NotFound)
                      else if old(items)[id].quantity + delta < old(items)[id].reserved
                        then Some(InsufficientStock) else None)
      ensures items == if err == None
                       then old(items)[id := old(items)[id].(quantity := old(items)[id].quantity + delta)]
                       else old(items)
      ensures Snapshot() == AfterCall(old(Snapshot()), AdjustBy(id, delta))
    {
      if id !in items {
        return Some(NotFound);
      }
      var next := items[id].quantity + delta;
      if next < 0 || next < items[id].reserved {
        return Some(InsufficientStock);
      }
      items := items[id := items[id].(quantity := next)];
      return None;
    }

    /** Sets a variant's stock, opening its row first when there is none. */
    method UpsertItem(cat: Catalog, ref: Ref, quantity: int) returns (err: Option<Error>)
      requires Valid()
      modifies this
      ensures Valid() && reservations == old(reservations)
      ensures var v := Resolve(cat, ref);
              err == (if v == None then Some(InvalidSku)
                      else if quantity < 0 then Some(InvalidQuantity)
                      else if v.value.skuId in old(items) && quantity < old(items)[v.value.skuId].reserved
                      then Some(InsufficientStock) else None)
              && items == if err.Some? then old(items)
                          else
                            var id := v.value.skuId;
                            var reserved := if id in old(items) then old(items)[id].reserved else 0;
                            old(items)[id := Stock(quantity, reserved)]
    {
      hide Resolve;
      var v := Resolve(cat, ref);
      if v == None {
        return Some(InvalidSku);
      }
      if quantity < 0 {
        return Some(InvalidQuantity);
      }
      err := SetQuantity(v.value.skuId, quantity);
      if err == Some(NotFound) {
        EnsureItem(v.value.skuId);
        err := SetQuantity(v.value.skuId, quantity);
      }
    }

    /** Adds to, or takes from, a variant's stock; nothing can be taken where there is no row. */
    method AdjustStock(cat: Catalog, ref: Ref, delta: int) returns (err: Option<Error>)
      requires Valid()
      modifies this
      ensures Valid() && reservations == old(reservations)
      ensures var v := Resolve(cat, ref);
              err == (if v == None then Some(InvalidSku)
                      else
                        var was := if v.value.skuId in old(items) then old(items)[v.value.skuId] else Stock(0, 0);
                        if was.quantity + delta < was.reserved then Some(InsufficientStock) else None)
              && items == if err.Some? then old(items)
                          else
                            var was := if v.value.skuId in old(items) then old(items)[v.value.skuId] else Stock(0, 0);
                            old(items)[v.value.skuId := was.(quantity := was.quantity + delta)]
    {
      hide Resolve;
      var v := Resolve(cat, ref);
      if v == None {
        return Some(InvalidSku);
      }
      err := AdjustQuantity(v.value.skuId, delta);
      if err == Some(NotFound) {
        if delta < 0 {
          return Some(InsufficientStock);
        }
        EnsureItem(v.value.skuId);
        err := AdjustQuantity(v.value.skuId, delta);
      }
    }

    /** All or nothing: each line is checked against what is available before any is reserved. */
    method CreateReservation(order: string, lines: seq<Line>) returns (r: Result<nat, Error>)
      requires Valid()
      modifies this
      ensures Positive(lines) && Distinct(lines) ==> Valid()
      ensures r.Ok? <==> AllCovered(old(items), lines)
      ensures Snapshot() == AfterCall(old(Snapshot()), Create(order, lines))
      ensures r.Ok? ==> r.value == |old(reservations)| && items == Reserve(old(items), lines)
                        && reservations == old(reservations) + [Reservation(order, lines, Active)]
      ensures r.Err? ==> items == old(items) && reservations == old(reservations)
      ensures r.Err? ==> r.error in {NotFound, InsufficientStock}
    {
      hide Balanced, Held, HeldByAll, Positive, Distinct;
      for i := 0 to |lines|
        invariant items == old(items) && reservations == old(reservations)
        invariant forall j :: 0 <= j < i ==> Covered(items, lines[j])
      {
        if lines[i].skuId !in items {
          return Err(NotFound);
        }
        if items[lines[i].skuId].quantity - items[lines[i].skuId].reserved < lines[i].quantity {
          return Err(InsufficientStock);
        }
      }
      if Positive(lines) && Distinct(lines) {
        ReserveBalances(items, reservations, order, lines);
      }
      var updated := items;
      NothingReserved(items);
      for i := 0 to |lines|
        invariant items == old(items) && reservations == old(reservations) && updated == Reserve(items, lines[..i])
      {
        assert Covered(items, lines[i]);
        ReserveStep(items, lines, i);
        var id := lines[i].skuId;
        updated := updated[id := updated[id].(reserved := updated[id].reserved + lines[i].quantity)];
      }
      assert lines[..|lines|] == lines;
      items := updated;
      reservations := reservations + [Reservation(order, lines, Active)];
      return Ok(|reservations| - 1);
    }

    /** The whole request: either every variant's total is set aside, or nothing changes. */
    method ReserveOrder(cat: Catalog, order: string, request: seq<ItemRef>) returns (r: Result<nat, Error>)
      requires Valid()
      modifies this
      ensures Valid()
      ensures r.Ok? <==> Text.TrimSpace(order) != "" && request != []
                         && (forall i :: 0 <= i < |request| ==> Good(cat, request[i]))
                         && AllInStock(cat, request, old(items))
      ensures r.Ok? ==>
                && items.Keys == old(items).Keys && r.value == |old(reservations)|
                && (forall id :: id in items ==>
                      items[id] == old(items)[id].(reserved := old(items)[id].reserved + Asked(cat, request, id)))
                && exists lines :: Merges(cat, request, lines) && Labeled(cat, request, lines)
                     && reservations == old(reservations) + [Reservation(Text.TrimSpace(order), lines, Active)]
      ensures r.Err? ==> items == old(items) && reservations == old(reservations)
      ensures r.Err? ==>
                if Text.TrimSpace(order) == "" then r.error == InvalidId
                else RefusedFor(cat, request, r.error) || r.error == NotFound || r.error == InsufficientStock
    {
      hide Balanced, Resolve, Asked, Labeled, RefusedFor;
      var trimmed := Text.TrimSpace(order);
      if trimmed == "" {
        return Err(InvalidId);
      }
      var resolved := ResolveReservationItems(cat, request);
      if resolved.Err? {
        return Err(resolved.error);
      }
      MergedInStock(cat, request, resolved.value, items);
      r := CreateReservation(trimmed, resolved.value);
      hide Merges, Held;
      if r.Ok? {
        forall id ensures Held(resolved.value, id) == Asked(cat, request, id) {
          MergedTotal(cat, request, resolved.value, id);
        }
      }
    }

    /** Closes a reservation once; a second close only reports how it was closed. */
    method FinalizeReservation(id: nat, commit: bool) returns (err: Option<Error>)
      requires Valid()
      modifies this
      ensures Valid()
      ensures err == (if id >= |old(reservations)| then Some(NotFound)
                      else match old(reservations)[id].status
                           case Active => None
                           case Committed => Some(AlreadyCommitted)
                           case Released => Some(AlreadyReleased))
      ensures err.Some? ==> items == old(items) && reservations == old(reservations)
      ensures err == None ==>
                items == Close(old(items), old(reservations)[id].lines, commit)
                && reservations ==
                     old(reservations)[id := old(reservations)[id].(status := if commit then Committed else Released)]
      ensures Snapshot() == AfterCall(old(Snapshot()), Finalize(id, commit))
    {
      hide Balanced, Close;
      if id >= |reservations| {
        return Some(NotFound);
      }
      var reservation := reservations[id];
      match reservation.status {
        case Committed => return Some(AlreadyCommitted);
        case Released => return Some(AlreadyReleased);
        case Active =>
      }
      CloseBalances(items, reservations, id, commit);
      var lines := reservation.lines;
      NothingClosed(items, commit);
      for i := 0 to |lines|
        invariant items == Close(old(items), lines[..i], commit) && reservations == old(reservations)
      {
        // The store guards each line against running short; under Valid() the guards cannot fire.
        ClosingLine(old(items), reservations, id, i, commit);
        var sku, q := lines[i].skuId, lines[i].quantity;
        assert sku in items && q <= items[sku].reserved && (commit ==> q <= items[sku].quantity);
        items := items[sku := items[sku].(reserved := items[sku].reserved - q)];
        if commit {
          items := items[sku := items[sku].(quantity := items[sku].quantity - q)];
        }
      }
      assert lines[..|lines|] == lines;
      reservations := reservations[id := reservation.(status := if commit then Committed else Released)];
      return None;
    }
  }

  lemma NothingReserved(items: map<string, Stock>)
    ensures Reserve(items, []) == items
  {
  }

  lemma ReserveStep(items: map<string, Stock>, lines: seq<Line>, i: nat)
    requires i < |lines| && lines[i].skuId in items
    ensures var sku, done := lines[i].skuId, Reserve(items, lines[..i]);
            Reserve(items, lines[..i + 1]) ==
              done[sku := done[sku].(reserved := done[sku].reserved + lines[i].quantity)]
  {
    assert lines[..i + 1][..i] == lines[..i];
  }

  lemma NothingClosed(items: map<string, Stock>, commit: bool)
    ensures Close(items, [], commit) == items
  {
  }

  /** Closing never runs short half way: a line still to be closed is fully covered by what is reserved. */
  lemma ClosingLine(items: map<string, Stock>, rs: seq<Reservation>, k: nat, i: nat, commit: bool)
    requires Balanced(items, rs) && k < |rs| && rs[k].status == Active && i < |rs[k].lines|
    ensures var line, done := rs[k].lines[i], Close(items, rs[k].lines[..i], commit);
            line.skuId in done && line.quantity <= done[line.skuId].reserved <= done[line.skuId].quantity
            && Close(items, rs[k].lines[..i + 1], commit)
               == done[line.skuId := Stock(done[line.skuId].quantity - (if commit then line.quantity else 0),
                                           done[line.skuId].reserved - line.quantity)]
  {
    hide Balanced, Held, HeldByAll;
    LineHeld(items, rs, k, i);
    CloseStep(items, rs[k].lines, i, commit);
  }

  lemma CloseStep(items: map<string, Stock>, lines: seq<Line>, i: nat, commit: bool)
    requires i < |lines| && lines[i].skuId in items
    ensures var sku, done := lines[i].skuId, Close(items, lines[..i], commit);
            Close(items, lines[..i + 1], commit)
            == done[sku := Stock(done[sku].quantity - (if commit then lines[i].quantity else 0),
                                 done[sku].reserved - lines[i].quantity)]
  {
    assert lines[..i + 1][..i] == lines[..i];
  }

  lemma LineHeld(items: map<string, Stock>, rs: seq<Reservation>, k: nat, i: nat)
    requires Balanced(items, rs) && k < |rs| && rs[k].status == Active && i < |rs[k].lines|
    ensures var line := rs[k].lines[i];
            line.skuId in items && Held(rs[k].lines[..i], line.skuId) == 0
            && line.quantity <= items[line.skuId].reserved <= items[line.skuId].quantity
  {
    var lines := rs[k].lines;
    HeldAt(lines, i);
    HeldByOneOfAll(rs, k, lines[i].skuId);
    HeldNowhere(lines[..i], lines[i].skuId);
  }
}
