/**
 * The catalogue view's pipeline: an optional in-place sort by price, then one filter per
 * active criterion, each keeping the products that satisfy it.
 */
module Products {
  import opened Wrappers
  import opened JsText
  import opened Subsequence
  import opened Reducers

  /** The sort key: price for "lowToHigh", negated price for any other sort order. */
  function Key(p: Product, lowToHigh: bool): real {
    if lowToHigh then p.price else -p.price
  }

  predicate SortedBy(s: seq<Product>, lowToHigh: bool) {
    forall i, j :: 0 <= i < j < |s| ==> Key(s[i], lowToHigh) <= Key(s[j], lowToHigh)
  }

  /** Ascending prices for "lowToHigh", descending otherwise, stated on prices. */
  lemma SortedPrices(s: seq<Product>, lowToHigh: bool)
    requires SortedBy(s, lowToHigh)
    ensures lowToHigh ==> forall i, j :: 0 <= i < j < |s| ==> s[i].price <= s[j].price
    ensures !lowToHigh ==> forall i, j :: 0 <= i < j < |s| ==> s[i].price >= s[j].price
  {
    forall i, j | 0 <= i < j < |s| ensures lowToHigh ==> s[i].price <= s[j].price {
      assert Key(s[i], lowToHigh) <= Key(s[j], lowToHigh);
    }
    forall i, j | 0 <= i < j < |s| ensures !lowToHigh ==> s[i].price >= s[j].price {
      assert Key(s[i], lowToHigh) <= Key(s[j], lowToHigh);
    }
  }

  /** Exchanges a product with its left neighbour. */
  method SwapWithPrevious(a: array<Product>, j: int)
    requires 0 < j < a.Length
    modifies a
    ensures a[j - 1] == old(a[j]) && a[j] == old(a[j - 1])
    ensures forall m :: 0 <= m < a.Length && m != j - 1 && m != j ==> a[m] == old(a[m])
    ensures multiset(a[..]) == multiset(old(a[..]))
  {
    a[j - 1], a[j] := a[j], a[j - 1];
  }

  /** Sorts the catalogue by price in place, as an insertion sort. */
  method SortByPrice(a: array<Product>, lowToHigh: bool)
    modifies a
    ensures SortedBy(a[..], lowToHigh)
    ensures multiset(a[..]) == multiset(old(a[..]))
  {
    if a.Length == 0 {
      return;
    }
    var i := 1;
    while i < a.Length
      invariant 1 <= i <= a.Length
      invariant forall k, l :: 0 <= k < l < i ==> Key(a[k], lowToHigh) <= Key(a[l], lowToHigh)
      invariant multiset(a[..]) == multiset(old(a[..]))
    {
      var j := i;
      while j > 0 && Key(a[j - 1], lowToHigh) > Key(a[j], lowToHigh)
        invariant 0 <= j <= i
        invariant forall k, l :: 0 <= k < l <= i && l != j ==> Key(a[k], lowToHigh) <= Key(a[l], lowToHigh)
        invariant 0 < j < i ==> Key(a[j - 1], lowToHigh) <= Key(a[j + 1], lowToHigh)
        invariant multiset(a[..]) == multiset(old(a[..]))
      {
        SwapWithPrevious(a, j);
        j := j - 1;
      }
      i := i + 1;
    }
  }

  /** One filter of the pipeline, as applied to a product. */
  datatype Criterion =
    | PartnerHas(query: string)
    | InStock
    | FastDelivery
    | MinRating(rating: int)
    | NameHas(query: string)
    | SkuOrIdHas(query: string)

  /**
   * Whether a product passes a filter. The partner filter lower-cases both sides; the name
   * and the sku or id filters lower-case the product's field but not the query.
   */
  predicate Matches(p: Product, c: Criterion) {
    match c
    case PartnerHas(q) => Includes(ToLower(p.partner), ToLower(q))
    case InStock => p.inStock != 0
    case FastDelivery => p.fastDelivery
    case MinRating(r) => p.ratings >= r
    case NameHas(q) => Includes(ToLower(p.name), q)
    case SkuOrIdHas(q) => Includes(ToLower(p.sku), q) || Includes(ToLower(p.itemId), q)
  }

  /** The products of `s` that pass the filter `c`, in order. */
  function Select(s: seq<Product>, c: Criterion): seq<Product> {
    Filter(s, p => Matches(p, c))
  }

  /** The filters applied one after another. */
  function SelectAll(s: seq<Product>, cs: seq<Criterion>): seq<Product>
    decreases |cs|
  {
    if |cs| == 0 then s else Select(SelectAll(s, cs[..|cs| - 1]), cs[|cs| - 1])
  }

  /** A product passes every filter of a list. */
  predicate AllMatch(p: Product, cs: seq<Criterion>) {
    forall i :: 0 <= i < |cs| ==> Matches(p, cs[i])
  }

  lemma AllMatchSnoc(p: Product, cs: seq<Criterion>, c: Criterion)
    ensures AllMatch(p, cs + [c]) <==> AllMatch(p, cs) && Matches(p, c)
  {
    if AllMatch(p, cs) && Matches(p, c) {
      forall i | 0 <= i < |cs| + 1 ensures Matches(p, (cs + [c])[i]) {
        if i < |cs| { assert (cs + [c])[i] == cs[i]; }
      }
    }
    if AllMatch(p, cs + [c]) {
      forall i | 0 <= i < |cs| ensures Matches(p, cs[i]) {
        assert (cs + [c])[i] == cs[i];
      }
      assert (cs + [c])[|cs|] == c;
    }
  }

  /** Adds a filter to the list when its condition holds. */
  function AddIf(cs: seq<Criterion>, on: bool, c: Criterion): seq<Criterion> {
    if on then cs + [c] else cs
  }

  predicate Set(v: Option<string>) {
    v.Some? && v.value != ""
  }

  /** The filters the product state switches on, in the order the pipeline applies them. */
  function Criteria(f: ProductState): seq<Criterion> {
    var c1 := AddIf([], Set(f.byPartner), PartnerHas(f.byPartner.GetOr("")));
    var c2 := AddIf(c1, !f.byStock, InStock);
    var c3 := AddIf(c2, f.byFastDelivery, FastDelivery);
    var c4 := AddIf(c3, f.byRating != 0, MinRating(f.byRating));
    var c5 := AddIf(c4, Set(f.searchQuery), NameHas(f.searchQuery.GetOr("")));
    AddIf(c5, Set(f.searchSkuQuery), SkuOrIdHas(f.searchSkuQuery.GetOr("")))
  }

  /**
   * `transformProducts`: sorts the catalogue in place when a sort order is set, then
   * narrows the list filter by filter.
   */
  method TransformProducts(a: array<Product>, f: ProductState) returns (r: seq<Product>)
    modifies a
    ensures r == SelectAll(a[..], Criteria(f))
    ensures Set(f.sort) ==> SortedBy(a[..], f.sort.value == "lowToHigh")
    ensures multiset(a[..]) == multiset(old(a[..]))
    ensures !Set(f.sort) ==> a[..] == old(a[..])
  {
    if Set(f.sort) {
      SortByPrice(a, f.sort.value == "lowToHigh");
    }
    ghost var sorted := a[..];
    r := a[..];
    ghost var applied: seq<Criterion> := [];
    r, applied := Narrow(r, sorted, applied, Set(f.byPartner), PartnerHas(f.byPartner.GetOr("")));
    ghost var c1 := applied;
    r, applied := Narrow(r, sorted, applied, !f.byStock, InStock);
    ghost var c2 := applied;
    r, applied := Narrow(r, sorted, applied, f.byFastDelivery, FastDelivery);
    ghost var c3 := applied;
    r, applied := Narrow(r, sorted, applied, f.byRating != 0, MinRating(f.byRating));
    ghost var c4 := applied;
    r, applied := Narrow(r, sorted, applied, Set(f.searchQuery), NameHas(f.searchQuery.GetOr("")));
    ghost var c5 := applied;
    r, applied := Narrow(r, sorted, applied, Set(f.searchSkuQuery), SkuOrIdHas(f.searchSkuQuery.GetOr("")));
    CriteriaSteps(f, c1, c2, c3, c4, c5, applied);
    assert sorted == a[..];
  }

  /** The criteria list, built up in the order the pipeline applies its filters. */
  lemma CriteriaSteps(f: ProductState, c1: seq<Criterion>, c2: seq<Criterion>, c3: seq<Criterion>,
                      c4: seq<Criterion>, c5: seq<Criterion>, c6: seq<Criterion>)
    requires c1 == AddIf([], Set(f.byPartner), PartnerHas(f.byPartner.GetOr("")))
    requires c2 == AddIf(c1, !f.byStock, InStock)
    requires c3 == AddIf(c2, f.byFastDelivery, FastDelivery)
    requires c4 == AddIf(c3, f.byRating != 0, MinRating(f.byRating))
    requires c5 == AddIf(c4, Set(f.searchQuery), NameHas(f.searchQuery.GetOr("")))
    requires c6 == AddIf(c5, Set(f.searchSkuQuery), SkuOrIdHas(f.searchSkuQuery.GetOr("")))
    ensures c6 == Criteria(f)
  {
  }

  /** One conditional filter step of the pipeline: narrows the list by `c` when `on` holds. */
  method Narrow(r: seq<Product>, ghost s: seq<Product>, ghost applied: seq<Criterion>, on: bool, c: Criterion)
    returns (narrowed: seq<Product>, ghost extended: seq<Criterion>)
    requires r == SelectAll(s, applied)
    ensures extended == AddIf(applied, on, c)
    ensures narrowed == SelectAll(s, extended)
  {
    narrowed := r;
    if on {
      narrowed := Select(r, c);
    }
    extended := Step(s, applied, on, c);
  }

  /** One step of the pipeline: filtering by `c` when `on` is filtering by the list extended with `c`. */
  ghost function Step(s: seq<Product>, cs: seq<Criterion>, on: bool, c: Criterion): (r: seq<Criterion>)
    ensures r == AddIf(cs, on, c)
    ensures SelectAll(s, r) == if on then Select(SelectAll(s, cs), c) else SelectAll(s, cs)
  {
    var r := AddIf(cs, on, c);
    if on then assert r[..|r| - 1] == cs; r else r
  }

  /** A filter keeps exactly the products that pass it, in their order. */
  lemma SelectKeeps(s: seq<Product>, c: Criterion)
    ensures forall p :: p in Select(s, c) <==> p in s && Matches(p, c)
    ensures IsSubsequence(Select(s, c), s)
  {
    FilterKeeps(s, p => Matches(p, c));
  }

  /** The pipeline keeps exactly the products that pass every filter, in their order. */
  lemma {:induction false} SelectAllKeeps(s: seq<Product>, cs: seq<Criterion>)
    ensures forall p :: p in SelectAll(s, cs) <==> p in s && AllMatch(p, cs)
    ensures IsSubsequence(SelectAll(s, cs), s)
    decreases |cs|
  {
    if |cs| == 0 {
      SubsequenceReflexive(s);
    } else {
      var init := cs[..|cs| - 1];
      SelectAllKeeps(s, init);
      SelectKeeps(SelectAll(s, init), cs[|cs| - 1]);
      SubsequenceTransitive(SelectAll(s, cs), SelectAll(s, init), s);
      assert cs == init + [cs[|cs| - 1]];
      forall p ensures AllMatch(p, cs) <==> AllMatch(p, init) && Matches(p, cs[|cs| - 1]) {
        AllMatchSnoc(p, init, cs[|cs| - 1]);
      }
    }
  }

  /** Whether a product is shown under a product state, stated filter by filter. */
  predicate Shown(p: Product, f: ProductState) {
    && (Set(f.byPartner) ==> Includes(ToLower(p.partner), ToLower(f.byPartner.value)))
    && (!f.byStock ==> p.inStock != 0)
    && (f.byFastDelivery ==> p.fastDelivery)
    && (f.byRating != 0 ==> p.ratings >= f.byRating)
    && (Set(f.searchQuery) ==> Includes(ToLower(p.name), f.searchQuery.value))
    && (Set(f.searchSkuQuery) ==>
          Includes(ToLower(p.sku), f.searchSkuQuery.value) || Includes(ToLower(p.itemId), f.searchSkuQuery.value))
  }

  lemma CriteriaMeaning(p: Product, f: ProductState)
    ensures AllMatch(p, Criteria(f)) <==> Shown(p, f)
  {
    var c1 := AddIf([], Set(f.byPartner), PartnerHas(f.byPartner.GetOr("")));
    var c2 := AddIf(c1, !f.byStock, InStock);
    var c3 := AddIf(c2, f.byFastDelivery, FastDelivery);
    var c4 := AddIf(c3, f.byRating != 0, MinRating(f.byRating));
    var c5 := AddIf(c4, Set(f.searchQuery), NameHas(f.searchQuery.GetOr("")));
    AllMatchSnoc(p, [], PartnerHas(f.byPartner.GetOr("")));
    AllMatchSnoc(p, c1, InStock);
    AllMatchSnoc(p, c2, FastDelivery);
    AllMatchSnoc(p, c3, MinRating(f.byRating));
    AllMatchSnoc(p, c4, NameHas(f.searchQuery.GetOr("")));
    AllMatchSnoc(p, c5, SkuOrIdHas(f.searchSkuQuery.GetOr("")));
  }

  /**
   * The displayed list is a subsequence of the (possibly sorted) catalogue, and a product
   * appears in it exactly when it passes every active filter.
   */
  lemma TransformedProducts(s: seq<Product>, f: ProductState)
    ensures IsSubsequence(SelectAll(s, Criteria(f)), s)
    ensures forall p :: p in SelectAll(s, Criteria(f)) <==> p in s && Shown(p, f)
  {
    SelectAllKeeps(s, Criteria(f));
    forall p ensures p in SelectAll(s, Criteria(f)) <==> p in s && Shown(p, f) {
      CriteriaMeaning(p, f);
    }
  }

  /** No partner, stock filter off, no fast delivery, rating 0 and empty queries: no filter applies. */
  predicate Neutral(f: ProductState) {
    !Set(f.byPartner) && f.byStock && !f.byFastDelivery && f.byRating == 0
    && !Set(f.searchQuery) && !Set(f.searchSkuQuery)
  }

  /** Under neutral filters the list shown is the catalogue as it stands. */
  lemma NeutralFiltersShowAll(s: seq<Product>, f: ProductState)
    requires Neutral(f)
    ensures SelectAll(s, Criteria(f)) == s
  {
    assert Criteria(f) == [];
  }

  /**
   * The name search does not lower-case the query: a product named "Shoe" is hidden by the
   * query "Shoe" and shown for "shoe".
   */
  lemma NameQueryIsCaseSensitive(p: Product)
    requires p.name == "Shoe"
    ensures !Matches(p, NameHas("Shoe"))
    ensures Matches(p, NameHas("shoe"))
  {
    var low := ToLower(p.name);
    assert low == "shoe";
    assert OccursAt(low, "shoe", 0);
  }

  /**
   * The general rule behind it: the product's name is lower-cased and the query is not, so a
   * name query holding an upper-case letter hides every product.
   */
  lemma UpperCaseNameQueryHidesAll(p: Product, q: string, j: nat)
    requires j < |q| && 'A' <= q[j] <= 'Z'
    ensures !Matches(p, NameHas(q))
  {
    var low := ToLower(p.name);
    forall i | 0 <= i <= |low| - |q|
      ensures !OccursAt(low, q, i)
    {
      assert low[i..i + |q|][j] == LowerChar(p.name[i + j]) != q[j];
    }
  }
}
