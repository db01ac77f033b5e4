/** RankRecommendations: filter, score, order by three keys, cut. Scores are an opaque real per product. */
module Ranking {
  import opened Ordering

  datatype Product = Product(id: string, status: string, category: string, views: int, price: real)

  datatype Scored = Scored(p: Product, score: real)

  predicate Eligible(seed: Product, c: Product) {
    c.id != "" && c.id != seed.id
    && (c.status == "" || c.status == "active")
    && (seed.category == "" || c.category == seed.category)
  }

  /** What may stand before what: higher score, then more views, then smaller id. */
  predicate Before(x: Scored, y: Scored) {
    if x.score != y.score then x.score > y.score
    else if x.p.views != y.p.views then x.p.views > y.p.views
    else StringLeq(x.p.id, y.p.id)
  }

  /** The eligible candidates with their scores, in the order given. */
  function Shortlist(score: Product -> real, seed: Product, cs: seq<Product>): seq<Scored> {
    if cs == [] then []
    else
      var c := cs[|cs| - 1];
      Shortlist(score, seed, cs[..|cs| - 1]) + if Eligible(seed, c) then [Scored(c, score(c))] else []
  }

  function Products(ss: seq<Scored>): (ps: seq<Product>)
    ensures |ps| == |ss| && forall i :: 0 <= i < |ss| ==> ps[i] == ss[i].p
  {
    seq(|ss|, i requires 0 <= i < |ss| => ss[i].p)
  }

  function Cut(ss: seq<Scored>, limit: int): seq<Scored> {
    if limit <= 0 then [] else if |ss| > limit then ss[..limit] else ss
  }

  /** The whole ranking before the cut. */
  function Ranked(score: Product -> real, seed: Product, cs: seq<Product>): seq<Scored> {
    Sort(Before, Shortlist(score, seed, cs))
  }

  method RankRecommendations(score: Product -> real, seed: Product, candidates: seq<Product>, limit: int)
    returns (out: seq<Product>)
    ensures out == Products(Cut(Ranked(score, seed, candidates), limit))
  {
    if limit <= 0 {
      return [];
    }
    var ranked: seq<Scored> := [];
    for i := 0 to |candidates|
      invariant ranked == Shortlist(score, seed, candidates[..i])
    {
      var c := candidates[i];
      assert candidates[..i + 1][..i] == candidates[..i];
      if c.id == "" || c.id == seed.id {
        continue;
      }
      if c.status != "" && c.status != "active" {
        continue;
      }
      if seed.category != "" && c.category != seed.category {
        continue;
      }
      ranked := ranked + [Scored(c, score(c))];
    }
    assert candidates[..|candidates|] == candidates;
    var a := new Scored[|ranked|](i requires 0 <= i < |ranked| => ranked[i]);
    assert a[..] == ranked;
    SortInPlace(Before, a);
    ranked := a[..];
    if |ranked| > limit {
      ranked := ranked[..limit];
    }
    out := Products(ranked);
  }

  // ---------------------------------------------------------------- the order

  lemma BeforeCompares(x: Scored, y: Scored)
    ensures Before(x, y) || Before(y, x)
    ensures Before(x, y) && Before(y, x) ==> x.score == y.score && x.p.views == y.p.views && x.p.id == y.p.id
  {
    StringTotal(x.p.id, y.p.id);
  }

  lemma BeforeChains(x: Scored, y: Scored, z: Scored)
    requires Before(x, y) && Before(y, z)
    ensures Before(x, z)
  {
    hide StringLeq;
    if StringLeq(x.p.id, y.p.id) && StringLeq(y.p.id, z.p.id) {
      StringTransitive(x.p.id, y.p.id, z.p.id);
    }
  }

  lemma BeforeIsPreorder()
    ensures Preorder(Before)
  {
    forall x, y ensures Before(x, y) || Before(y, x) {
      BeforeCompares(x, y);
    }
    forall x, y, z | Before(x, y) && Before(y, z) ensures Before(x, z) {
      BeforeChains(x, y, z);
    }
  }

  // ------------------------------------------------------------- the shortlist

  // How often the shortlist holds an entry.
  function Copies(score: Product -> real, seed: Product, cs: seq<Product>, e: Scored): nat {
    if Eligible(seed, e.p) && e.score == score(e.p) then multiset(cs)[e.p] else 0
  }

  /** Every eligible candidate is shortlisted as often as it was given, with its own score, and nothing else. */
  lemma {:induction false} ShortlistHolds(score: Product -> real, seed: Product, cs: seq<Product>, e: Scored)
    ensures multiset(Shortlist(score, seed, cs))[e] == Copies(score, seed, cs, e)
  {
    if cs != [] {
      ShortlistHolds(score, seed, cs[..|cs| - 1], e);
      SplitLast(cs);
    }
  }

  lemma ShortlistMember(score: Product -> real, seed: Product, cs: seq<Product>, e: Scored)
    ensures e in Shortlist(score, seed, cs) <==> Eligible(seed, e.p) && e.score == score(e.p) && e.p in cs
  {
    ShortlistHolds(score, seed, cs, e);
    assert e in Shortlist(score, seed, cs) <==> e in multiset(Shortlist(score, seed, cs));
    assert e.p in cs <==> e.p in multiset(cs);
  }

  // -------------------------------------------------------------- the theorems

  /**
   * The answer is a sorted run of eligible candidates, as long as the limit allows, and nobody left out
   * stands strictly before anybody returned.
   */
  lemma TheBestAreReturned(score: Product -> real, seed: Product, cs: seq<Product>, limit: int, out: seq<Scored>)
    requires out == Cut(Ranked(score, seed, cs), limit)
    ensures Sorted(Before, out)
    ensures |out| == if limit <= 0 then 0
                     else if |Shortlist(score, seed, cs)| < limit then |Shortlist(score, seed, cs)| else limit
    ensures multiset(out) <= multiset(Shortlist(score, seed, cs))
    ensures forall k, e :: 0 <= k < |out| && e in multiset(Shortlist(score, seed, cs)) - multiset(out) ==>
      Before(out[k], e)
  {
    hide Before, Preorder, Shortlist, Sort;
    BeforeIsPreorder();
    var all := Shortlist(score, seed, cs);
    SortSorts(Before, all);
    var ranked := Ranked(score, seed, cs);
    hide Ranked;
    var rest := ranked[|out|..];
    assert ranked == out + rest && multiset(all) == multiset(out) + multiset(rest);
    forall k, e | 0 <= k < |out| && e in multiset(all) - multiset(out) ensures Before(out[k], e) {
      assert e in multiset(rest) && e in rest;
      FirstBeforeRest(ranked, |out|, k, e);
    }
  }

  lemma FirstBeforeRest(ranked: seq<Scored>, n: nat, k: nat, e: Scored)
    requires Sorted(Before, ranked) && k < n <= |ranked| && e in ranked[n..]
    ensures Before(ranked[k], e)
  {
    var j :| n <= j < |ranked| && ranked[j] == e;
  }

  /** What a product recommended beside another one may be. */
  ghost predicate Recommendable(seed: Product, cs: seq<Product>, p: Product) {
    p in cs && p.id != "" && p.id != seed.id && p.status in {"", "active"} && seed.category in {"", p.category}
  }

  /** p may be recommended ahead of q: by score, between equal scores by views, and then by id. */
  ghost predicate AheadOf(score: Product -> real, p: Product, q: Product) {
    score(p) >= score(q)
    && (score(p) == score(q) ==> p.views >= q.views && (p.views == q.views ==> StringLeq(p.id, q.id)))
  }

  /**
   * Only other products of the same category that are for sale are recommended, best first, and everyone who
   * might be is, unless the limit is full of products ahead of them.
   */
  lemma BestFirst(score: Product -> real, seed: Product, cs: seq<Product>, limit: int, out: seq<Product>)
    requires out == Products(Cut(Ranked(score, seed, cs), limit))
    ensures forall k :: 0 <= k < |out| ==> Recommendable(seed, cs, out[k])
    ensures forall j, k :: 0 <= j < k < |out| ==> AheadOf(score, out[j], out[k])
    ensures |out| <= if limit <= 0 then 0 else limit
    ensures forall p :: Recommendable(seed, cs, p) && p !in out ==>
              |out| == (if limit <= 0 then 0 else limit) && forall k :: 0 <= k < |out| ==> AheadOf(score, out[k], p)
  {
    hide Shortlist, Sort, Eligible, StringLeq, Before, Recommendable, AheadOf, Ranked;
    var cut, all := Cut(Ranked(score, seed, cs), limit), Shortlist(score, seed, cs);
    TheBestAreReturned(score, seed, cs, limit, cut);
    forall k | 0 <= k < |out|
      ensures Recommendable(seed, cs, out[k]) && cut[k] == Scored(out[k], score(out[k]))
    {
      assert cut[k] in multiset(cut) && cut[k] in multiset(all);
      Shortlisted(score, seed, cs, cut[k]);
    }
    forall j, k | 0 <= j < k < |out| ensures AheadOf(score, out[j], out[k]) {
      assert Before(cut[j], cut[k]);
      BeforeIsAhead(score, out[j], out[k]);
    }
    forall p | Recommendable(seed, cs, p) && p !in out
      ensures |out| == (if limit <= 0 then 0 else limit) && forall k :: 0 <= k < |out| ==> AheadOf(score, out[k], p)
    {
      var e := Scored(p, score(p));
      Shortlisted(score, seed, cs, e);
      assert e !in cut by {
        ProductsHold(cut, e);
      }
      assert e in multiset(all) - multiset(cut);
      if |all| == |cut| {
        SameSize(multiset(cut), multiset(all), e);
      }
      forall k | 0 <= k < |out| ensures AheadOf(score, out[k], p) {
        assert Before(cut[k], e);
        BeforeIsAhead(score, out[k], p);
      }
    }
  }

  lemma ProductsHold(ss: seq<Scored>, e: Scored)
    ensures e in ss ==> e.p in Products(ss)
  {
    if e in ss {
      var k :| 0 <= k < |ss| && ss[k] == e;
      assert Products(ss)[k] == e.p;
    }
  }

  lemma SameSize(a: multiset<Scored>, b: multiset<Scored>, e: Scored)
    requires a <= b && e in b - a
    ensures |a| < |b|
  {
    assert b == a + (b - a);
  }

  lemma Shortlisted(score: Product -> real, seed: Product, cs: seq<Product>, e: Scored)
    ensures e in multiset(Shortlist(score, seed, cs)) <==> Recommendable(seed, cs, e.p) && e.score == score(e.p)
  {
    ShortlistMember(score, seed, cs, e);
  }

  lemma BeforeIsAhead(score: Product -> real, p: Product, q: Product)
    ensures Before(Scored(p, score(p)), Scored(q, score(q))) <==> AheadOf(score, p, q)
  {
  }

  /** One id, one product. */
  ghost predicate IdsIdentify(cs: seq<Product>) {
    forall p, q :: p in cs && q in cs && p.id == q.id ==> p == q
  }

  /** When ids identify products, the order in which the catalogue lists them makes no difference. */
  lemma ListingOrderIsIrrelevant(score: Product -> real, seed: Product, cs: seq<Product>, ds: seq<Product>)
    requires multiset(cs) == multiset(ds) && IdsIdentify(cs)
    ensures Ranked(score, seed, cs) == Ranked(score, seed, ds)
  {
    hide Before, Preorder, Shortlist, Sort, Sorted;
    var a, b := Shortlist(score, seed, cs), Shortlist(score, seed, ds);
    forall e ensures multiset(a)[e] == multiset(b)[e] {
      ShortlistHolds(score, seed, cs, e);
      ShortlistHolds(score, seed, ds, e);
    }
    assert multiset(a) == multiset(b);
    BeforeIsPreorder();
    SortSorts(Before, a);
    SortSorts(Before, b);
    var s := Sort(Before, a);
    forall x, y | x in s && y in s && Before(x, y) && Before(y, x) ensures x == y {
      assert x in multiset(a) && y in multiset(a);
      BeforeCompares(x, y);
      ShortlistMember(score, seed, cs, x);
      ShortlistMember(score, seed, cs, y);
    }
    SortedIsUnique(Before, s, Sort(Before, b));
  }
}
