/**
 * The record hashCreateOrderInput hashes to recognise a repeated create-order request. Hashing and
 * encoding are injective as far as this model goes: it compares the records.
 */
module Fingerprint {
  import opened Ordering
  import opened Text

  datatype Address = Address(lines: seq<string>)

  datatype Line = Line(skuId: string, sku: string, quantity: int)

  datatype Input = Input(
    customerId: string, couponCode: string, discountCents: int, recipientName: string,
    recipientPhone: string, address: Address, sourceAddressId: string, items: seq<Line>)

  /** The scalar fields as the code normalizes them: the address is taken as it is. */
  function Scalars(input: Input): Input {
    Input(TrimSpace(input.customerId), TrimSpace(input.couponCode), input.discountCents,
          TrimSpace(input.recipientName), TrimSpace(input.recipientPhone), input.address,
          TrimSpace(input.sourceAddressId), [])
  }

  function TrimLine(l: Line): Line {
    Line(TrimSpace(l.skuId), TrimSpace(l.sku), l.quantity)
  }

  function TrimLines(ls: seq<Line>): (r: seq<Line>)
    ensures |r| == |ls| && forall i :: 0 <= i < |ls| ==> r[i] == TrimLine(ls[i])
  {
    seq(|ls|, i requires 0 <= i < |ls| => TrimLine(ls[i]))
  }

  /** The negation of the code's comparison the other way round: all three fields take part. */
  predicate LineLeq(x: Line, y: Line) {
    if x.skuId != y.skuId then StringLeq(x.skuId, y.skuId)
    else if x.sku != y.sku then StringLeq(x.sku, y.sku)
    else x.quantity <= y.quantity
  }

  function Fingerprint(input: Input): Input {
    Scalars(input).(items := Sort(LineLeq, TrimLines(input.items)))
  }

  method BuildFingerprint(input: Input) returns (fp: Input)
    ensures fp == Fingerprint(input)
  {
    var items := new Line[|input.items|](_ => Line("", "", 0));
    for i := 0 to |input.items|
      invariant forall k :: 0 <= k < i ==> items[k] == TrimLine(input.items[k])
    {
      items[i] := Line(TrimSpace(input.items[i].skuId), TrimSpace(input.items[i].sku), input.items[i].quantity);
    }
    assert items[..] == TrimLines(input.items);
    SortInPlace(LineLeq, items);
    fp := Input(TrimSpace(input.customerId), TrimSpace(input.couponCode), input.discountCents,
                TrimSpace(input.recipientName), TrimSpace(input.recipientPhone), input.address,
                TrimSpace(input.sourceAddressId), items[..]);
  }

  lemma LinesCompare(x: Line, y: Line)
    ensures LineLeq(x, y) || LineLeq(y, x)
    ensures LineLeq(x, y) && LineLeq(y, x) ==> x == y
  {
    StringTotal(x.skuId, y.skuId);
    StringTotal(x.sku, y.sku);
  }

  lemma LinesChain(x: Line, y: Line, z: Line)
    requires LineLeq(x, y) && LineLeq(y, z)
    ensures LineLeq(x, z)
  {
    hide StringLeq;
    if x.skuId != y.skuId && y.skuId != z.skuId {
      StringTransitive(x.skuId, y.skuId, z.skuId);
      StringTotal(x.skuId, y.skuId);
    } else if x.skuId == y.skuId == z.skuId && x.sku != y.sku && y.sku != z.sku {
      StringTransitive(x.sku, y.sku, z.sku);
      StringTotal(x.sku, y.sku);
    }
  }

  /** The comparison is a total order on lines, so no two different lines tie. */
  lemma LinesAreOrdered()
    ensures Preorder(LineLeq)
    ensures forall s: seq<Line> :: TiesEqual(LineLeq, s)
  {
    forall x, y ensures LineLeq(x, y) || LineLeq(y, x) {
      LinesCompare(x, y);
    }
    forall x, y, z | LineLeq(x, y) && LineLeq(y, z) ensures LineLeq(x, z) {
      LinesChain(x, y, z);
    }
    forall x, y | LineLeq(x, y) && LineLeq(y, x) ensures x == y {
      LinesCompare(x, y);
    }
  }

  /** Whatever sort the library uses, the record comes out the same. */
  lemma AnySortGivesTheRecord(input: Input, sorted: seq<Line>)
    requires Sorted(LineLeq, sorted) && multiset(sorted) == multiset(TrimLines(input.items))
    ensures sorted == Fingerprint(input).items
  {
    LinesAreOrdered();
    SortSorts(LineLeq, TrimLines(input.items));
    SortedIsUnique(LineLeq, sorted, Sort(LineLeq, TrimLines(input.items)));
  }

  /** Two requests share a record exactly when their trimmed scalars agree and so do their trimmed lines as bags. */
  lemma SameRequestSameRecord(a: Input, b: Input)
    ensures Fingerprint(a) == Fingerprint(b)
      <==> Scalars(a) == Scalars(b) && multiset(TrimLines(a.items)) == multiset(TrimLines(b.items))
  {
    SortKeeps(LineLeq, TrimLines(a.items));
    SortKeeps(LineLeq, TrimLines(b.items));
    LinesAreOrdered();
    SortSorts(LineLeq, TrimLines(a.items));
    if multiset(TrimLines(a.items)) == multiset(TrimLines(b.items)) {
      AnySortGivesTheRecord(b, Fingerprint(a).items);
    }
    var fa, fb := Fingerprint(a), Fingerprint(b);
    assert fa.(items := []) == Scalars(a) && fb.(items := []) == Scalars(b);
  }

  /** Which scalar fields take part: each but the lines, trimmed, and the address as it was given. */
  lemma ScalarsCompared(a: Input, b: Input)
    ensures Scalars(a) == Scalars(b)
      <==> a.discountCents == b.discountCents && a.address == b.address
           && TrimSpace(a.customerId) == TrimSpace(b.customerId) && TrimSpace(a.couponCode) == TrimSpace(b.couponCode)
           && TrimSpace(a.recipientName) == TrimSpace(b.recipientName)
           && TrimSpace(a.recipientPhone) == TrimSpace(b.recipientPhone)
           && TrimSpace(a.sourceAddressId) == TrimSpace(b.sourceAddressId)
  {
  }

  /** One line asked for differently is another request, unless only blanks around its identifiers differ. */
  lemma OneLineChanged(a: Input, i: nat, l: Line)
    requires i < |a.items|
    ensures var was := a.items[i];
      Fingerprint(a) == Fingerprint(a.(items := a.items[i := l]))
      <==> l.quantity == was.quantity && TrimSpace(l.skuId) == TrimSpace(was.skuId)
           && TrimSpace(l.sku) == TrimSpace(was.sku)
  {
    hide TrimSpace, Fingerprint;
    var b, was := a.(items := a.items[i := l]), a.items[i];
    SameRequestSameRecord(a, b);
    var ls, ks := TrimLines(a.items), TrimLines(b.items);
    assert ks == ls[i := TrimLine(l)];
    assert multiset(ks) == multiset(ls) - multiset{TrimLine(was)} + multiset{TrimLine(l)};
    if TrimLine(l) != TrimLine(was) {
      assert multiset(ks)[TrimLine(l)] == multiset(ls)[TrimLine(l)] + 1;
    }
  }
}
