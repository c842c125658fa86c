/** Properties of the `getAllProperties` query, each stated about the result
    of `BuildPropertyQuery` for every options bag and limit. */
module PropertySearchProperties {
  import Js
  import opened Sql
  import opened PropertySearch
  import opened SearchText

  /** With no criterion that applies, the text is the base query followed
      directly by the tail: no WHERE, no AND, and the limit is the only
      parameter, bound as `$1`. A lone price bound is such a case. */
  lemma NoCriteria(o: SearchOptions, limit: Js.Value)
    requires !Js.Truthy(o.city) && !Js.Truthy(o.owner_id) && !PriceActive(o)
    requires !Js.Truthy(o.minimum_rating)
    ensures BuildPropertyQuery(o, limit)
         == Query([Text(BaseText), Text(GroupOrderText), Placeholder(Limit, 1), Text(EndText)],
                  [Value(limit)])
  {
    FiltersAreCriteria(o);
    NoBlockApplies(Start, Criteria(o));
  }

  /** The text sent when no criterion applies. */
  lemma NoCriteriaText(o: SearchOptions, limit: Js.Value)
    requires !Js.Truthy(o.city) && !Js.Truthy(o.owner_id) && !PriceActive(o)
    requires !Js.Truthy(o.minimum_rating)
    ensures Render(BuildPropertyQuery(o, limit).sql)
         == BaseText + GroupOrderText + "LIMIT $1" + EndText
  {
    NoCriteria(o, limit);
    var b := Placeholder(Limit, 1);
    RenderFour(Text(BaseText), Text(GroupOrderText), b, Text(EndText));
    assert RenderToken(b) == "LIMIT $1" by {
      PlaceholderText(Limit, 1, "1");
    }
  }

  /** `WHERE` before the first predicate and `AND` before each later one. */
  lemma {:induction false} ChainShape(k: nat)
    ensures |Chain(k)| == k
    ensures forall i :: 0 <= i < k ==> Chain(k)[i] == (if i == 0 then Where else And)
    ensures Count(Chain(k), Where) == (if k == 0 then 0 else 1)
    ensures Count(Chain(k), And) == (if k == 0 then 0 else k - 1)
  {
    if k > 0 {
      ChainShape(k - 1);
      var t := if k == 1 then Where else And;
      CountAppend(Chain(k - 1), [t], Where);
      CountAppend(Chain(k - 1), [t], And);
      assert [t][1..] == [];
    }
  }

  /** The first predicate is introduced by `WHERE` and every later one by
      `AND`; `WHERE` occurs once when some criterion applies and not at all
      otherwise, and there is one connective per applied criterion. */
  lemma WhereAtMostOnce(o: SearchOptions, limit: Js.Value)
    ensures var r := BuildPropertyQuery(o, limit);
      && |Connectives(r.sql)| == ActiveCount(o)
      && (forall i :: 0 <= i < |Connectives(r.sql)| ==>
            Connectives(r.sql)[i] == (if i == 0 then Where else And))
      && Count(r.sql, Where) == (if ActiveCount(o) == 0 then 0 else 1)
      && Count(r.sql, And) == (if ActiveCount(o) == 0 then 0 else ActiveCount(o) - 1)
  {
    var r := BuildPropertyQuery(o, limit);
    ChainShape(ActiveCount(o));
    ConnectiveCount(r.sql, Where);
    ConnectiveCount(r.sql, And);
  }

  /** Every placeholder `$n` in the text refers to parameter `n`: it is the
      n-th placeholder of the text, and its slot and the value at position
      `n` are those of the n-th comparison (the limit being the last). */
  lemma PlaceholderBindsItsValue(o: SearchOptions, limit: Js.Value, j: nat)
    requires j < |BuildPropertyQuery(o, limit).sql|
    requires BuildPropertyQuery(o, limit).sql[j].Placeholder?
    ensures var r := BuildPropertyQuery(o, limit);
      var n := r.sql[j].n;
      var all := Filters(o) + [Binding(Limit, Value(limit))];
      && 1 <= n <= |r.params| == |all|
      && n == |Placeholders(r.sql[..j])| + 1
      && r.sql[j].slot == all[n - 1].slot
      && r.params[n - 1] == all[n - 1].value
  {
    var r := BuildPropertyQuery(o, limit);
    var last := Binding(Limit, Value(limit));
    OfAppend(Filters(o), [last]);
    assert SlotsOf([last]) == [Limit] && ValuesOf([last]) == [Value(limit)];
    PlaceholderBinds(r, Filters(o) + [last], j);
  }

  /** In a numbered query that binds `all` in order, the placeholder at
      token position `j` refers to the binding at its own index. */
  lemma PlaceholderBinds(r: Query, all: seq<Binding>, j: nat)
    requires Numbered(r)
    requires r.params == ValuesOf(all) && Slots(r.sql) == SlotsOf(all)
    requires j < |r.sql| && r.sql[j].Placeholder?
    ensures var n := r.sql[j].n;
      && 1 <= n <= |r.params| == |all|
      && n == |Placeholders(r.sql[..j])| + 1
      && r.sql[j].slot == all[n - 1].slot
      && r.params[n - 1] == all[n - 1].value
  {
    PlaceholderRefersToPosition(r, j);
    OfLength(all);
    OfIndex(all, r.sql[j].n - 1);
  }

  /** The value each criterion binds, given directly in terms of the
      options. */
  lemma CriterionValues(o: SearchOptions)
    ensures ValuesOf(CityPredicate(o))
         == (if Js.Truthy(o.city) then [CityPattern(o.city)] else [])
    ensures ValuesOf(OwnerPredicate(o))
         == (if Js.Truthy(o.owner_id) then [NumberOf(o.owner_id)] else [])
    ensures ValuesOf(PricePredicate(o))
         == (if PriceActive(o)
             then [Value(o.minimum_price_per_night), Value(o.maximum_price_per_night)]
             else [])
    ensures ValuesOf(RatingPredicate(o))
         == (if Js.Truthy(o.minimum_rating) then [NumberOf(o.minimum_rating)] else [])
  {
    var p := PricePredicate(o);
    if PriceActive(o) {
      assert p[1..][1..] == [];
    }
  }

  /** The parameters are, in this order: the city pattern, the owner, the
      lower and upper price, the rating, the limit, each present only when its
      criterion applies. */
  lemma ParamsInSourceOrder(o: SearchOptions, limit: Js.Value)
    ensures BuildPropertyQuery(o, limit).params
         == (if Js.Truthy(o.city) then [CityPattern(o.city)] else [])
          + (if Js.Truthy(o.owner_id) then [NumberOf(o.owner_id)] else [])
          + (if PriceActive(o)
             then [Value(o.minimum_price_per_night), Value(o.maximum_price_per_night)]
             else [])
          + (if Js.Truthy(o.minimum_rating) then [NumberOf(o.minimum_rating)] else [])
          + [Value(limit)]
  {
    var c, w, p, g := CityPredicate(o), OwnerPredicate(o), PricePredicate(o), RatingPredicate(o);
    OfAppend(c, w);
    OfAppend(c + w, p);
    OfAppend(c + w + p, g);
    CriterionValues(o);
    assert ValuesOf(Filters(o)) == ValuesOf(c) + ValuesOf(w) + ValuesOf(p) + ValuesOf(g);
  }

  /** The number of parameters is
      [city] + [owner] + 2 * [min and max] + [rating] + 1. */
  lemma ParamCount(o: SearchOptions, limit: Js.Value)
    ensures |BuildPropertyQuery(o, limit).params|
         == Ind(Js.Truthy(o.city)) + Ind(Js.Truthy(o.owner_id)) + 2 * Ind(PriceActive(o))
          + Ind(Js.Truthy(o.minimum_rating)) + 1
  {
    ParamsInSourceOrder(o, limit);
  }

  /** The limit is always the last parameter, and the LIMIT clause at the
      end of the text binds it with the placeholder `$k`, `k` being the number
      of parameters. */
  lemma LimitLast(o: SearchOptions, limit: Js.Value)
    ensures var r := BuildPropertyQuery(o, limit);
      && r.params[|r.params| - 1] == Value(limit)
      && Placeholders(r.sql)[|Placeholders(r.sql)| - 1] == |r.params|
      && r.sql[|r.sql| - 2] == Placeholder(Limit, |r.params|)
  {
  }

  /** The slot each criterion fills, given directly in terms of the
      options. */
  lemma CriterionSlots(o: SearchOptions)
    ensures SlotsOf(CityPredicate(o)) == (if Js.Truthy(o.city) then [CityLike] else [])
    ensures SlotsOf(OwnerPredicate(o)) == (if Js.Truthy(o.owner_id) then [OwnerIs] else [])
    ensures SlotsOf(PricePredicate(o)) == (if PriceActive(o) then [CostAbove, CostBelow] else [])
    ensures SlotsOf(RatingPredicate(o)) == (if Js.Truthy(o.minimum_rating) then [RatingAbove] else [])
  {
    var p := PricePredicate(o);
    if PriceActive(o) {
      assert p[1..][1..] == [];
    }
  }

  lemma SlotsInSourceOrder(o: SearchOptions, limit: Js.Value)
    ensures Slots(BuildPropertyQuery(o, limit).sql)
         == (if Js.Truthy(o.city) then [CityLike] else [])
          + (if Js.Truthy(o.owner_id) then [OwnerIs] else [])
          + (if PriceActive(o) then [CostAbove, CostBelow] else [])
          + (if Js.Truthy(o.minimum_rating) then [RatingAbove] else [])
          + [Limit]
  {
    var c, w, p, g := CityPredicate(o), OwnerPredicate(o), PricePredicate(o), RatingPredicate(o);
    OfAppend(c, w);
    OfAppend(c + w, p);
    OfAppend(c + w + p, g);
    CriterionSlots(o);
    assert SlotsOf(Filters(o)) == SlotsOf(c) + SlotsOf(w) + SlotsOf(p) + SlotsOf(g);
  }

  /** The slots bound before the price comparisons. */
  function SlotsBeforePrice(o: SearchOptions): seq<Slot> {
    (if Js.Truthy(o.city) then [CityLike] else []) + (if Js.Truthy(o.owner_id) then [OwnerIs] else [])
  }

  /** The slots of the text, criterion by criterion. */
  lemma SlotsByCriterion(o: SearchOptions, limit: Js.Value)
    ensures Slots(BuildPropertyQuery(o, limit).sql)
         == SlotsOf(CityPredicate(o)) + SlotsOf(OwnerPredicate(o)) + SlotsOf(PricePredicate(o))
          + SlotsOf(RatingPredicate(o)) + [Limit]
  {
    var c, w, p, g := CityPredicate(o), OwnerPredicate(o), PricePredicate(o), RatingPredicate(o);
    OfAppend(c, w);
    OfAppend(c + w, p);
    OfAppend(c + w + p, g);
  }

  lemma PriceSlotsIn(o: SearchOptions, ss: seq<Slot>)
    requires ss == SlotsOf(CityPredicate(o)) + SlotsOf(OwnerPredicate(o))
                 + SlotsOf(PricePredicate(o)) + SlotsOf(RatingPredicate(o)) + [Limit]
    ensures CostAbove in ss <==> PriceActive(o)
    ensures CostBelow in ss <==> PriceActive(o)
  {
    CriterionSlots(o);
  }

  lemma PriceSlots(o: SearchOptions, limit: Js.Value)
    ensures var r := BuildPropertyQuery(o, limit);
      && (CostAbove in Slots(r.sql) <==> PriceActive(o))
      && (CostBelow in Slots(r.sql) <==> PriceActive(o))
  {
    SlotsByCriterion(o, limit);
    PriceSlotsIn(o, Slots(BuildPropertyQuery(o, limit).sql));
  }

  /** When both bounds are truthy the two price comparisons follow the city
      and owner comparisons in the list of filters. */
  lemma PriceBindingsAt(o: SearchOptions)
    requires PriceActive(o)
    ensures var k := |SlotsBeforePrice(o)|;
      && k + 2 <= |Filters(o)|
      && Filters(o)[k] == Binding(CostAbove, Value(o.minimum_price_per_night))
      && Filters(o)[k + 1] == Binding(CostBelow, Value(o.maximum_price_per_night))
  {
    var c, w, p := CityPredicate(o), OwnerPredicate(o), PricePredicate(o);
    assert |c + w| == |SlotsBeforePrice(o)|;
    assert Filters(o) == (c + w) + p + RatingPredicate(o);
  }

  /** In a query that binds the comparisons `bs` and then a limit, the i-th
      comparison is bound by the i-th placeholder, `$(i + 1)`, to its own
      value. */
  lemma BoundAt(r: Query, bs: seq<Binding>, limit: Js.Value, i: nat)
    requires Numbered(r)
    requires r.params == ValuesOf(bs) + [Value(limit)]
    requires Slots(r.sql) == SlotsOf(bs) + [Limit]
    requires i < |bs|
    ensures |r.params| == |bs| + 1
    ensures i < |Slots(r.sql)| && i < |Placeholders(r.sql)|
    ensures r.params[i] == bs[i].value
    ensures Slots(r.sql)[i] == bs[i].slot
    ensures Placeholders(r.sql)[i] == i + 1
  {
    OfIndex(bs, i);
  }

  /** The price comparisons appear exactly when both bounds are truthy; then
      the lower bound is bound at position k + 1 and the upper bound at k + 2,
      k being the number of values bound before them (city and owner). The
      builder does not check that the lower bound is below the upper one. */
  lemma PriceRange(o: SearchOptions, limit: Js.Value)
    ensures var r := BuildPropertyQuery(o, limit);
      && (CostAbove in Slots(r.sql) <==> PriceActive(o))
      && (CostBelow in Slots(r.sql) <==> PriceActive(o))
      && (PriceActive(o) ==>
            var k := Ind(Js.Truthy(o.city)) + Ind(Js.Truthy(o.owner_id));
            && k + 2 < |r.params|
            && r.params[k] == Value(o.minimum_price_per_night)
            && r.params[k + 1] == Value(o.maximum_price_per_night)
            && Slots(r.sql)[k] == CostAbove && Slots(r.sql)[k + 1] == CostBelow
            && Placeholders(r.sql)[k] == k + 1 && Placeholders(r.sql)[k + 1] == k + 2)
  {
    PriceSlots(o, limit);
    if PriceActive(o) {
      var r := BuildPropertyQuery(o, limit);
      var k := |SlotsBeforePrice(o)|;
      assert k == Ind(Js.Truthy(o.city)) + Ind(Js.Truthy(o.owner_id));
      PriceBindingsAt(o);
      BoundAt(r, Filters(o), limit, k);
      BoundAt(r, Filters(o), limit, k + 1);
    }
  }

  /** A truthy city is bound first, as the pattern `%city%`; a falsy one adds
      no city comparison. */
  lemma CityFirst(o: SearchOptions, limit: Js.Value)
    ensures var r := BuildPropertyQuery(o, limit);
      && (Js.Truthy(o.city) ==>
            && r.params[0] == Value(Js.Str("%" + Js.ToText(o.city) + "%"))
            && Slots(r.sql)[0] == CityLike
            && Placeholders(r.sql)[0] == 1)
      && (Js.Truthy(o.city) && o.city.Str? ==>
            r.params[0] == Value(Js.Str("%" + o.city.s + "%")))
      && (!Js.Truthy(o.city) ==> CityLike !in Slots(r.sql))
  {
    var r := BuildPropertyQuery(o, limit);
    SlotsInSourceOrder(o, limit);
    if Js.Truthy(o.city) {
      ParamsInSourceOrder(o, limit);
      assert Slots(r.sql)[0] == CityLike;
      assert r.params[0] == CityPattern(o.city);
      assert |Placeholders(r.sql)| == |r.params| > 0;
    }
  }

  /** A criterion of one comparison appends its connective and one
      placeholder. */
  lemma SingleCriterion(q: Query, b: Binding)
    ensures Criterion(q, [b])
         == Query(q.sql + [Connective(q), Placeholder(b.slot, |q.params| + 1)], q.params + [b.value])
  {
    CriterionShape(q, [b]);
    assert [b][1..] == [];
    assert Run([b], |q.params| + 1) == [Placeholder(b.slot, |q.params| + 1)];
    assert ValuesOf([b]) == [b.value];
  }

  lemma BlocksUnfold(q: Query, a: seq<Binding>, b: seq<Binding>, c: seq<Binding>, d: seq<Binding>)
    ensures CriterionBlocks(q, [a, b, c, d])
         == Criterion(Criterion(Criterion(Criterion(q, a), b), c), d)
  {
    var q1 := Criterion(q, a);
    var q2 := Criterion(q1, b);
    var q3 := Criterion(q2, c);
    var q4 := Criterion(q3, d);
    assert [a, b, c, d][1..] == [b, c, d];
    assert [b, c, d][1..] == [c, d];
    assert [c, d][1..] == [d];
    assert [d][1..] == [];
    assert CriterionBlocks(q4, []) == q4;
    assert CriterionBlocks(q3, [d]) == q4;
    assert CriterionBlocks(q2, [c, d]) == q4;
    assert CriterionBlocks(q1, [b, c, d]) == q4;
  }

  /** The blocks for a search by city and minimum rating only. */
  lemma CityAndRatingCriteria(o: SearchOptions)
    requires Js.Truthy(o.city) && !Js.Truthy(o.owner_id) && !PriceActive(o)
    requires Js.Truthy(o.minimum_rating)
    ensures CriterionBlocks(Start, Criteria(o))
         == Query([Text(BaseText), Where, Placeholder(CityLike, 1), And, Placeholder(RatingAbove, 2)],
                  [CityPattern(o.city), NumberOf(o.minimum_rating)])
  {
    var city := Binding(CityLike, CityPattern(o.city));
    var rating := Binding(RatingAbove, NumberOf(o.minimum_rating));
    assert Criteria(o) == [[city], [], [], [rating]];
    BlocksUnfold(Start, [city], [], [], [rating]);
    SingleCriterion(Start, city);
    var q1 := Query([Text(BaseText), Where, Placeholder(CityLike, 1)], [CityPattern(o.city)]);
    assert Criterion(Start, [city]) == q1;
    SingleCriterion(q1, rating);
  }

  /** A search by city and minimum rating only, such as city "rome" with
      rating 4: `WHERE` before the city comparison, `AND` before the rating
      comparison, and the pattern, the rating and the limit bound as `$1`,
      `$2` and `$3`. */
  lemma CityAndRatingQuery(o: SearchOptions, limit: Js.Value)
    requires Js.Truthy(o.city) && !Js.Truthy(o.owner_id) && !PriceActive(o)
    requires Js.Truthy(o.minimum_rating)
    ensures var r := BuildPropertyQuery(o, limit);
      && r.params == [CityPattern(o.city), NumberOf(o.minimum_rating), Value(limit)]
      && r.sql == [Text(BaseText), Where, Placeholder(CityLike, 1), And,
                   Placeholder(RatingAbove, 2), Text(GroupOrderText), Placeholder(Limit, 3),
                   Text(EndText)]
  {
    var q := CriterionBlocks(Start, Criteria(o));
    CityAndRatingCriteria(o);
    FinishShape(q, limit);
    assert BuildPropertyQuery(o, limit) == Finish(q, limit);
  }

  // ---------------------------------------------------------------------
  // The text depends only on which criteria apply
  // ---------------------------------------------------------------------

  /** The slots a search binds, from which criteria apply. */
  function CriteriaSlots(city: bool, owner: bool, price: bool, rating: bool): seq<Slot> {
    (if city then [CityLike] else []) + (if owner then [OwnerIs] else [])
      + (if price then [CostAbove, CostBelow] else []) + (if rating then [RatingAbove] else [])
  }

  /** The slots of the filters, criterion by criterion. */
  lemma FilterSlots(o: SearchOptions)
    ensures SlotsOf(Filters(o))
         == CriteriaSlots(Js.Truthy(o.city), Js.Truthy(o.owner_id), PriceActive(o),
                          Js.Truthy(o.minimum_rating))
  {
    var c, w, p, g := CityPredicate(o), OwnerPredicate(o), PricePredicate(o), RatingPredicate(o);
    OfAppend(c, w);
    OfAppend(c + w, p);
    OfAppend(c + w + p, g);
    CriterionSlots(o);
  }

  /** Two options bags apply the same criteria. */
  predicate SameCriteria(o1: SearchOptions, o2: SearchOptions) {
    && Js.Truthy(o1.city) == Js.Truthy(o2.city)
    && Js.Truthy(o1.owner_id) == Js.Truthy(o2.owner_id)
    && PriceActive(o1) == PriceActive(o2)
    && Js.Truthy(o1.minimum_rating) == Js.Truthy(o2.minimum_rating)
  }

  /** Each criterion shows in the slots by a comparison of its own. */
  lemma CriteriaSlotsMembers(city: bool, owner: bool, price: bool, rating: bool)
    ensures var s := CriteriaSlots(city, owner, price, rating);
      && (CityLike in s <==> city) && (OwnerIs in s <==> owner)
      && (CostAbove in s <==> price) && (RatingAbove in s <==> rating)
  {
  }

  lemma CriteriaSlotsInjective(c1: bool, w1: bool, p1: bool, g1: bool,
                               c2: bool, w2: bool, p2: bool, g2: bool)
    requires CriteriaSlots(c1, w1, p1, g1) == CriteriaSlots(c2, w2, p2, g2)
    ensures c1 == c2 && w1 == w2 && p1 == p2 && g1 == g2
  {
    CriteriaSlotsMembers(c1, w1, p1, g1);
    CriteriaSlotsMembers(c2, w2, p2, g2);
  }

  /** The bound comparisons tell exactly which criteria apply. */
  lemma SameCriteriaSameSlots(o1: SearchOptions, o2: SearchOptions)
    ensures SameCriteria(o1, o2) <==> SlotsOf(Filters(o1)) == SlotsOf(Filters(o2))
  {
    FilterSlots(o1);
    FilterSlots(o2);
    if SlotsOf(Filters(o1)) == SlotsOf(Filters(o2)) {
      CriteriaSlotsInjective(
        Js.Truthy(o1.city), Js.Truthy(o1.owner_id), PriceActive(o1), Js.Truthy(o1.minimum_rating),
        Js.Truthy(o2.city), Js.Truthy(o2.owner_id), PriceActive(o2), Js.Truthy(o2.minimum_rating));
    }
  }

  /** The WHERE clause is fixed by its slots alone: the values it binds are
      not written into it. */
  lemma {:induction false} WhereClauseSlots(a: seq<Binding>, b: seq<Binding>, i: nat)
    requires SlotsOf(a) == SlotsOf(b)
    ensures WhereClause(a, i) == WhereClause(b, i)
    decreases |a|
  {
    OfLength(a);
    OfLength(b);
    if a != [] {
      assert a[0].slot == SlotsOf(a)[0] == SlotsOf(b)[0] == b[0].slot;
      assert SlotsOf(a[1..]) == SlotsOf(a)[1..] == SlotsOf(b)[1..] == SlotsOf(b[1..]);
      WhereClauseSlots(a[1..], b[1..], i + 1);
    }
  }

  /** Two searches send the same text exactly when they apply the same
      criteria: the option values and the limit reach the database only as
      parameters, and which criteria apply shows in the text. */
  lemma TextDependsOnCriteriaOnly(o1: SearchOptions, o2: SearchOptions, l1: Js.Value, l2: Js.Value)
    ensures BuildPropertyQuery(o1, l1).sql == BuildPropertyQuery(o2, l2).sql
        <==> SameCriteria(o1, o2)
  {
    var r1, r2 := BuildPropertyQuery(o1, l1), BuildPropertyQuery(o2, l2);
    var f1, f2 := Filters(o1), Filters(o2);
    SameCriteriaSameSlots(o1, o2);
    if SameCriteria(o1, o2) {
      WhereClauseSlots(f1, f2, 0);
      OfLength(f1);
      OfLength(f2);
      assert |r1.params| == |r2.params|;
    }
    if r1.sql == r2.sql {
      var s1, s2 := SlotsOf(f1), SlotsOf(f2);
      assert s1 + [Limit] == s2 + [Limit];
      assert s1 == (s1 + [Limit])[..|s1|];
      assert s2 == (s2 + [Limit])[..|s2|];
    }
  }
}

module PropertySearchShape {
  import Js
  import opened Sql
  import opened PropertySearch
  import opened SearchText

  /** Every placeholder that opens a predicate comes right after a
      connective. */
  predicate OpenersFollowConnectives(sql: seq<Token>) {
    forall j :: 0 <= j < |sql| && sql[j].Placeholder? && Opens(sql[j].slot) ==>
      0 < j && sql[j - 1].IsConnective()
  }

  lemma PushKeeps(q: Query, b: Binding)
    requires OpenersFollowConnectives(q.sql)
    requires Opens(b.slot) ==> |q.sql| > 0 && q.sql[|q.sql| - 1].IsConnective()
    ensures OpenersFollowConnectives(Push(q, b).sql)
  {
    var s := Push(q, b).sql;
    forall j | 0 <= j < |s| && s[j].Placeholder? && Opens(s[j].slot)
      ensures 0 < j && s[j - 1].IsConnective()
    {
      if j < |q.sql| {
        assert s[j] == q.sql[j] && s[j - 1] == q.sql[j - 1];
      }
    }
  }

  lemma {:induction false} PushAllKeeps(q: Query, bs: seq<Binding>)
    requires OpenersFollowConnectives(q.sql)
    requires forall i :: 0 <= i < |bs| ==> !Opens(bs[i].slot)
    ensures OpenersFollowConnectives(PushAll(q, bs).sql)
    decreases |bs|
  {
    if bs != [] {
      PushKeeps(q, bs[0]);
      PushAllKeeps(Push(q, bs[0]), bs[1..]);
    }
  }

  lemma CriterionKeeps(q: Query, bs: seq<Binding>)
    requires OpenersFollowConnectives(q.sql)
    requires OneOpener(bs)
    ensures OpenersFollowConnectives(Criterion(q, bs).sql)
  {
    if bs != [] {
      var c := Connect(q);
      assert OpenersFollowConnectives(c.sql) by {
        forall j | 0 <= j < |c.sql| && c.sql[j].Placeholder? && Opens(c.sql[j].slot)
          ensures 0 < j && c.sql[j - 1].IsConnective()
        {
          assert j < |q.sql|;
          assert c.sql[j] == q.sql[j] && c.sql[j - 1] == q.sql[j - 1];
        }
      }
      PushKeeps(c, bs[0]);
      assert PushAll(c, bs) == PushAll(Push(c, bs[0]), bs[1..]);
      PushAllKeeps(Push(c, bs[0]), bs[1..]);
    }
  }

  lemma {:induction false} BlocksKeep(q: Query, blocks: seq<seq<Binding>>)
    requires OpenersFollowConnectives(q.sql)
    requires forall i :: 0 <= i < |blocks| ==> OneOpener(blocks[i])
    ensures OpenersFollowConnectives(CriterionBlocks(q, blocks).sql)
    decreases |blocks|
  {
    if blocks != [] {
      CriterionKeeps(q, blocks[0]);
      BlocksKeep(Criterion(q, blocks[0]), blocks[1..]);
    }
  }

  /** Every connective of the text is directly followed by a placeholder:
      no WHERE or AND is left without the predicate it introduces. */
  lemma ConnectivesPrecedePlaceholders(o: SearchOptions, limit: Js.Value)
    ensures ConnectivesLead(BuildPropertyQuery(o, limit).sql)
  {
    var q := CriterionBlocks(Start, Criteria(o));
    CriteriaBuilt(o);
    FinishStep(q, limit);
  }

  /** Each criterion's predicate is introduced by a connective of the WHERE
      chain; this holds for the rating comparison too, which the source
      places in that chain. Together with `ConnectivesLead` and the count of
      connectives, connectives and predicates pair up one to one. */
  lemma PredicatesFollowConnectives(o: SearchOptions, limit: Js.Value)
    ensures OpenersFollowConnectives(BuildPropertyQuery(o, limit).sql)
  {
    var bs := Criteria(o);
    assert OneOpener(PricePredicate(o));
    assert forall i :: 0 <= i < |bs| ==> OneOpener(bs[i]);
    assert OpenersFollowConnectives(Start.sql);
    BlocksKeep(Start, bs);
    var q := CriterionBlocks(Start, bs);
    PushKeeps(q, Binding(Limit, Value(limit)));
    var p := Push(q, Binding(Limit, Value(limit)));
    var s := Finish(q, limit).sql;
    forall j | 0 <= j < |s| && s[j].Placeholder? && Opens(s[j].slot)
      ensures 0 < j && s[j - 1].IsConnective()
    {
      assert j < |p.sql|;
      assert s[j] == p.sql[j] && s[j - 1] == p.sql[j - 1];
    }
  }

  /** Every token of a WHERE clause is a connective or a placeholder. */
  lemma {:induction false} WhereClauseTokens(bs: seq<Binding>, i: nat)
    ensures forall k :: 0 <= k < |WhereClause(bs, i)| ==>
      WhereClause(bs, i)[k].IsConnective() || WhereClause(bs, i)[k].Placeholder?
    decreases |bs|
  {
    if bs != [] {
      WhereClauseTokens(bs[1..], i + 1);
    }
  }

  /** Between the base SELECT and the fixed tail the text holds only
      connectives and placeholders: no option value is spliced into it. */
  lemma OnlyConnectivesAndPlaceholders(o: SearchOptions, limit: Js.Value)
    ensures var r := BuildPropertyQuery(o, limit);
      forall i :: 0 < i < |r.sql| - 3 ==> r.sql[i].IsConnective() || r.sql[i].Placeholder?
  {
    var r := BuildPropertyQuery(o, limit);
    var w := WhereClause(Filters(o), 0);
    WhereClauseTokens(Filters(o), 0);
    forall i | 0 < i < |r.sql| - 3
      ensures r.sql[i].IsConnective() || r.sql[i].Placeholder?
    {
      assert r.sql[i] == w[i - 1];
    }
  }
}
