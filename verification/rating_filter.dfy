/** The minimum-rating criterion compares an aggregate: the average review
    rating of a property, computed per group of joined rows. SQL evaluates
    such a comparison only after grouping, in a HAVING clause. A WHERE clause
    filters single rows before any group exists and cannot refer to an
    aggregate. `getAllProperties` nevertheless appends the rating comparison
    to its WHERE chain. This module shows where the source puts it, and
    defines the builder with the comparison moved into a HAVING clause after
    GROUP BY. The corrected builder binds the same values in the same order
    and keeps the other criteria in WHERE. */
module RatingFilter {
  import Js
  import opened Sql
  import opened PropertySearch
  import opened SearchText
  import PropertySearchProperties

  /** Written between `GroupByText` and `OrderText`, before the aggregate
      comparison. */
  const HavingText: string := "\n    HAVING"

  /** The criteria that filter single rows: all but the rating. */
  function RowCriteria(o: SearchOptions): seq<seq<Binding>> {
    [CityPredicate(o), OwnerPredicate(o), PricePredicate(o)]
  }

  function RowFilters(o: SearchOptions): seq<Binding> {
    CityPredicate(o) + OwnerPredicate(o) + PricePredicate(o)
  }

  /** The number of row criteria that add a WHERE predicate. */
  function RowCount(o: SearchOptions): nat {
    Ind(Js.Truthy(o.city)) + Ind(Js.Truthy(o.owner_id)) + Ind(PriceActive(o))
  }

  lemma RowFiltersAreCriteria(o: SearchOptions)
    ensures Flatten(RowCriteria(o)) == RowFilters(o)
    ensures NonEmpty(RowCriteria(o)) == RowCount(o)
  {
    var c, w, p := CityPredicate(o), OwnerPredicate(o), PricePredicate(o);
    var bs := RowCriteria(o);
    var b1, b2 := bs[1..], bs[1..][1..];
    assert b1 == [w, p] && b2 == [p] && b2[1..] == [];
    assert Flatten(b2) == p + [] == p;
    assert Flatten(b1) == w + p;
    assert Flatten(bs) == c + (w + p);
    assert NonEmpty(b2) == Ind(p != []);
    assert NonEmpty(b1) == Ind(w != []) + Ind(p != []);
    assert NonEmpty(bs) == Ind(c != []) + Ind(w != []) + Ind(p != []);
  }

  /** Running one more block after some blocks is running that block last. */
  lemma {:induction false} BlocksSnoc(q: Query, blocks: seq<seq<Binding>>, b: seq<Binding>)
    ensures CriterionBlocks(q, blocks + [b]) == Criterion(CriterionBlocks(q, blocks), b)
    decreases |blocks|
  {
    if blocks == [] {
      assert blocks + [b] == [b];
      assert [b][1..] == [];
    } else {
      assert (blocks + [b])[0] == blocks[0];
      assert (blocks + [b])[1..] == blocks[1..] + [b];
      BlocksSnoc(Criterion(q, blocks[0]), blocks[1..], b);
    }
  }

  /** The source runs the rating block last, after the row criteria. */
  lemma RatingBlockLast(o: SearchOptions)
    ensures CriterionBlocks(Start, Criteria(o))
         == Criterion(CriterionBlocks(Start, RowCriteria(o)), RatingPredicate(o))
  {
    assert Criteria(o) == RowCriteria(o) + [RatingPredicate(o)];
    BlocksSnoc(Start, RowCriteria(o), RatingPredicate(o));
  }

  /** The row criteria leave a query that binds their comparisons and has
      one connective per applied row criterion. */
  lemma RowCriteriaBuilt(o: SearchOptions)
    ensures Built(CriterionBlocks(Start, RowCriteria(o)), RowFilters(o), RowCount(o))
  {
    StartBuilt();
    CriterionBlocksFacts(Start, [], 0, RowCriteria(o));
    RowFiltersAreCriteria(o);
    assert [] + RowFilters(o) == RowFilters(o);
  }

  /** As the source is written, a minimum rating puts the aggregate
      comparison in the WHERE chain: it directly follows a WHERE or AND and
      precedes the GROUP BY text. */
  lemma RatingFilteredBeforeGrouping(o: SearchOptions, limit: Js.Value)
    requires Js.Truthy(o.minimum_rating)
    ensures var r := BuildPropertyQuery(o, limit);
      && |r.sql| >= 5 && |r.params| >= 2
      && r.sql[|r.sql| - 5].IsConnective()
      && r.sql[|r.sql| - 4] == Placeholder(RatingAbove, |r.params| - 1)
      && r.sql[|r.sql| - 3] == Text(GroupOrderText)
  {
    var q := CriterionBlocks(Start, RowCriteria(o));
    var b := Binding(RatingAbove, NumberOf(o.minimum_rating));
    RatingBlockLast(o);
    assert RatingPredicate(o) == [b];
    var q4 := Criterion(q, [b]);
    PropertySearchProperties.SingleCriterion(q, b);
    assert q4.sql == q.sql + [Connective(q), Placeholder(RatingAbove, |q.params| + 1)];
    assert q4.params == q.params + [b.value];
    FinishShape(q4, limit);
    var r := Finish(q4, limit);
    assert BuildPropertyQuery(o, limit) == r;
    assert r.sql == q.sql + [Connective(q), Placeholder(RatingAbove, |q.params| + 1),
                             Text(GroupOrderText), Placeholder(Limit, |q.params| + 2), Text(EndText)];
    assert |r.params| == |q.params| + 2;
  }

  // ---------------------------------------------------------------------
  // The corrected builder
  // ---------------------------------------------------------------------

  /** After the row criteria. With a minimum rating: GROUP BY, the rating
      comparison in a HAVING clause, ORDER BY, and the LIMIT clause with the
      limit pushed last. Without one, the source's own tail. */
  function FinishHaving(q: Query, o: SearchOptions, limit: Js.Value): Query {
    if Js.Truthy(o.minimum_rating) then
      var g := Query(q.sql + [Text(GroupByText), Text(HavingText)], q.params);
      var h := Push(g, Binding(RatingAbove, NumberOf(o.minimum_rating)));
      var p := Push(Query(h.sql + [Text(OrderText)], h.params), Binding(Limit, Value(limit)));
      Query(p.sql + [Text(EndText)], p.params)
    else
      Finish(q, limit)
  }

  /** The tokens `FinishHaving` appends when `n` values are bound before it. */
  function HavingTail(o: SearchOptions, n: nat): seq<Token> {
    if Js.Truthy(o.minimum_rating) then
      [Text(GroupByText), Text(HavingText), Placeholder(RatingAbove, n + 1)]
        + [Text(OrderText), Placeholder(Limit, n + 2), Text(EndText)]
    else
      [Text(GroupOrderText), Placeholder(Limit, n + 1), Text(EndText)]
  }

  lemma FinishHavingShape(q: Query, o: SearchOptions, limit: Js.Value)
    ensures FinishHaving(q, o, limit)
         == Query(q.sql + HavingTail(o, |q.params|), q.params + ValuesOf(RatingPredicate(o)) + [Value(limit)])
  {
    if Js.Truthy(o.minimum_rating) {
      assert ValuesOf(RatingPredicate(o)) == [NumberOf(o.minimum_rating)];
    } else {
      FinishShape(q, limit);
      assert ValuesOf(RatingPredicate(o)) == [];
    }
  }

  /** The views of a tail with the HAVING comparison, for any text tokens. */
  lemma RatingTailViews(g: Token, h: Token, d: Token, e: Token, n: nat)
    requires g.Text? && h.Text? && d.Text? && e.Text?
    ensures var t := [g, h, Placeholder(RatingAbove, n + 1)] + [d, Placeholder(Limit, n + 2), e];
      && Placeholders(t) == [n + 1, n + 2]
      && Slots(t) == [RatingAbove, Limit]
      && Connectives(t) == []
  {
    var a, b := [g, h, Placeholder(RatingAbove, n + 1)], [d, Placeholder(Limit, n + 2), e];
    ViewsAppend(a, b);
    ThreeTokenViews(d, Placeholder(Limit, n + 2), e);
    HeadViews(g, h, Placeholder(RatingAbove, n + 1));
  }

  /** Two text tokens and a placeholder: only the placeholder shows. */
  lemma HeadViews(g: Token, h: Token, p: Token)
    requires g.Text? && h.Text? && p.Placeholder?
    ensures Placeholders([g, h, p]) == [p.n] && Slots([g, h, p]) == [p.slot]
    ensures Connectives([g, h, p]) == []
  {
    ThreeTokenViews(g, h, p);
    TokenViews(g);
    TokenViews(h);
    TokenViews(p);
  }

  /** The tail binds the rating (when given) and then the limit, with no
      connective: the rating comparison is not part of the WHERE chain. */
  lemma TailViews(o: SearchOptions, n: nat)
    ensures Placeholders(HavingTail(o, n)) == Range(n + 1, |RatingPredicate(o)| + 1)
    ensures Slots(HavingTail(o, n)) == SlotsOf(RatingPredicate(o)) + [Limit]
    ensures Connectives(HavingTail(o, n)) == []
  {
    var rating := RatingPredicate(o);
    if Js.Truthy(o.minimum_rating) {
      RatingTailViews(Text(GroupByText), Text(HavingText), Text(OrderText), Text(EndText), n);
      assert Range(n + 1, 2) == [n + 1] + Range(n + 2, 1);
      assert Range(n + 2, 1) == [n + 2] + Range(n + 3, 0);
      assert rating[1..] == [];
      assert SlotsOf(rating) == [RatingAbove] + SlotsOf(rating[1..]);
    } else {
      ThreeTokenViews(Text(GroupOrderText), Placeholder(Limit, n + 1), Text(EndText));
      assert Range(n + 1, 1) == [n + 1] + Range(n + 2, 0);
    }
  }

  /** What the corrected builder promises of the query `r` it builds for
      `o` and `limit`: the same numbering, parameters and comparisons as the
      source; a WHERE chain of the row criteria only; and the text in full,
      with the rating comparison after GROUP BY and HAVING when a minimum
      rating applies, and the source's own tail otherwise. */
  predicate HavingSearched(o: SearchOptions, limit: Js.Value, r: Query) {
    && Numbered(r)
    && r.params == ValuesOf(Filters(o)) + [Value(limit)]
    && Slots(r.sql) == SlotsOf(Filters(o)) + [Limit]
    && Connectives(r.sql) == Chain(RowCount(o))
    && (Js.Truthy(o.minimum_rating) ==>
          r.sql == [Text(BaseText)] + WhereClause(RowFilters(o), 0)
                 + [Text(GroupByText), Text(HavingText), Placeholder(RatingAbove, |r.params| - 1),
                    Text(OrderText), Placeholder(Limit, |r.params|), Text(EndText)])
    && (!Js.Truthy(o.minimum_rating) ==>
          r.sql == [Text(BaseText)] + WhereClause(RowFilters(o), 0)
                 + [Text(GroupOrderText), Placeholder(Limit, |r.params|), Text(EndText)])
  }

  /** `getAllProperties` with the rating comparison in HAVING. It binds the
      same values, and the comparisons lie in the same order. The WHERE chain
      holds only the row criteria. */
  function BuildPropertyQueryHaving(o: SearchOptions, limit: Js.Value): (r: Query)
    ensures HavingSearched(o, limit, r)
  {
    var r := FinishHaving(CriterionBlocks(Start, RowCriteria(o)), o, limit);
    HavingFinished(o, limit, r);
    r
  }

  /** The row criteria write the WHERE clause of the row filters. */
  lemma RowCriteriaWritten(o: SearchOptions)
    ensures Written(CriterionBlocks(Start, RowCriteria(o)), RowFilters(o))
  {
    assert Written(Start, []) by {
      assert WhereClause([], 0) == [];
      assert [Text(BaseText)] + [] == [Text(BaseText)];
    }
    assert OneOpener(PricePredicate(o));
    BlocksWritten(Start, [], RowCriteria(o));
    RowFiltersAreCriteria(o);
    assert [] + RowFilters(o) == RowFilters(o);
  }

  lemma HavingFinished(o: SearchOptions, limit: Js.Value, r: Query)
    requires r == FinishHaving(CriterionBlocks(Start, RowCriteria(o)), o, limit)
    ensures HavingSearched(o, limit, r)
  {
    var q := CriterionBlocks(Start, RowCriteria(o));
    var n := |q.params|;
    RowCriteriaBuilt(o);
    HavingViews(q, RowFilters(o), RowCount(o), o, limit);
    FiltersSplit(o);
    RowCriteriaWritten(o);
    FinishHavingShape(q, o, limit);
    var rating := RatingPredicate(o);
    OfLength(rating);
    assert |r.params| == n + |rating| + 1;
    if Js.Truthy(o.minimum_rating) {
      assert |rating| == 1;
      assert HavingTail(o, n)
          == [Text(GroupByText), Text(HavingText), Placeholder(RatingAbove, n + 1),
              Text(OrderText), Placeholder(Limit, n + 2), Text(EndText)];
    } else {
      assert |rating| == 0;
    }
  }

  /** The filters are the row filters followed by the rating comparison. */
  lemma FiltersSplit(o: SearchOptions)
    ensures ValuesOf(Filters(o)) == ValuesOf(RowFilters(o)) + ValuesOf(RatingPredicate(o))
    ensures SlotsOf(Filters(o)) == SlotsOf(RowFilters(o)) + SlotsOf(RatingPredicate(o))
  {
    assert Filters(o) == RowFilters(o) + RatingPredicate(o);
    OfAppend(RowFilters(o), RatingPredicate(o));
  }

  /** No row filter compares the rating. */
  lemma RowFiltersUnrated(o: SearchOptions)
    ensures RatingAbove !in SlotsOf(RowFilters(o))
  {
    var c, w, p := CityPredicate(o), OwnerPredicate(o), PricePredicate(o);
    assert SlotsOf(RowFilters(o)) == SlotsOf(c) + SlotsOf(w) + SlotsOf(p) by {
      OfAppend(c, w);
      OfAppend(c + w, p);
    }
    PropertySearchProperties.CriterionSlots(o);
  }

  /** The views of the corrected query, for any row part `q` built from `bs`. */
  lemma HavingViews(q: Query, bs: seq<Binding>, k: nat, o: SearchOptions, limit: Js.Value)
    requires Built(q, bs, k)
    ensures var r := FinishHaving(q, o, limit);
      && Numbered(r)
      && r.params == ValuesOf(bs) + ValuesOf(RatingPredicate(o)) + [Value(limit)]
      && Slots(r.sql) == SlotsOf(bs) + SlotsOf(RatingPredicate(o)) + [Limit]
      && Connectives(r.sql) == Chain(k)
  {
    var rating := RatingPredicate(o);
    var vs := ValuesOf(rating) + [Value(limit)];
    var tail := HavingTail(o, |q.params|);
    FinishHavingShape(q, o, limit);
    assert q.params + ValuesOf(rating) + [Value(limit)] == q.params + vs;
    assert FinishHaving(q, o, limit) == Query(q.sql + tail, q.params + vs);
    assert |vs| == |rating| + 1 by {
      OfLength(rating);
    }
    assert Numbered(q) && Slots(q.sql) == SlotsOf(bs) && Connectives(q.sql) == Chain(k);
    assert q.params == ValuesOf(bs);
    TailViews(o, |q.params|);
    AppendTail(q, bs, k, tail, vs, SlotsOf(rating) + [Limit]);
  }

  /** Appending tokens without connectives whose placeholders continue the
      numbering keeps a built query numbered. */
  lemma AppendTail(q: Query, bs: seq<Binding>, k: nat, tail: seq<Token>, vs: seq<Param>, ss: seq<Slot>)
    requires Numbered(q) && Slots(q.sql) == SlotsOf(bs) && Connectives(q.sql) == Chain(k)
    requires Placeholders(tail) == Range(|q.params| + 1, |vs|)
    requires Slots(tail) == ss && Connectives(tail) == []
    ensures var r := Query(q.sql + tail, q.params + vs);
      && Numbered(r)
      && Slots(r.sql) == SlotsOf(bs) + ss
      && Connectives(r.sql) == Chain(k)
  {
    var r := Query(q.sql + tail, q.params + vs);
    var n := |q.params|;
    ViewsAppend(q.sql, tail);
    assert Placeholders(r.sql) == Positions(n) + Range(n + 1, |vs|);
    PositionsExtend(n, |vs|);
    assert |r.params| == n + |vs|;
    assert Connectives(r.sql) == Chain(k) + [] == Chain(k);
  }

  /** With a minimum rating, the corrected query puts GROUP BY after every
      row comparison and every connective, the rating comparison directly
      after HAVING, and then the source's ORDER BY and LIMIT clauses. */
  lemma RatingInHaving(o: SearchOptions, limit: Js.Value)
    requires Js.Truthy(o.minimum_rating)
    ensures var r := BuildPropertyQueryHaving(o, limit);
      var g := |r.sql| - 6;
      && |r.sql| >= 6 && |r.params| >= 2
      && r.sql[g] == Text(GroupByText)
      && RatingAbove !in Slots(r.sql[..g])
      && Connectives(r.sql[g..]) == []
      && r.sql[0] == Text(BaseText)
      && r.sql[g + 1] == Text(HavingText)
      && r.sql[g + 2] == Placeholder(RatingAbove, |r.params| - 1)
      && r.sql[g + 3] == Text(OrderText)
      && r.sql[g + 4] == Placeholder(Limit, |r.params|)
      && r.sql[g + 5] == Text(EndText)
  {
    var q := CriterionBlocks(Start, RowCriteria(o));
    RowCriteriaBuilt(o);
    RowFiltersUnrated(o);
    HavingSplit(q, RowFilters(o), RowCount(o), o, limit);
  }

  /** Where the corrected query puts GROUP BY and the HAVING comparison, for
      any row part `q` built from `bs`. */
  lemma HavingSplit(q: Query, bs: seq<Binding>, k: nat, o: SearchOptions, limit: Js.Value)
    requires Built(q, bs, k)
    requires Js.Truthy(o.minimum_rating)
    ensures var r := FinishHaving(q, o, limit);
      var g := |r.sql| - 6;
      && g == |q.sql| && |r.params| == |q.params| + 2
      && Slots(r.sql[..g]) == SlotsOf(bs)
      && Connectives(r.sql[g..]) == []
      && r.sql[g] == Text(GroupByText)
      && r.sql[g + 1] == Text(HavingText)
      && r.sql[g + 2] == Placeholder(RatingAbove, |q.params| + 1)
  {
    var n := |q.params|;
    var tail := HavingTail(o, n);
    var r := FinishHaving(q, o, limit);
    FinishHavingShape(q, o, limit);
    assert ValuesOf(RatingPredicate(o)) == [NumberOf(o.minimum_rating)];
    assert r.sql == q.sql + tail;
    TailViews(o, n);
    var g := |q.sql|;
    assert r.sql[..g] == q.sql && r.sql[g..] == tail;
  }

  /** The correction changes neither the values bound nor the comparisons
      they are bound to. */
  lemma SameBindings(o: SearchOptions, limit: Js.Value)
    ensures BuildPropertyQueryHaving(o, limit).params == BuildPropertyQuery(o, limit).params
    ensures Slots(BuildPropertyQueryHaving(o, limit).sql) == Slots(BuildPropertyQuery(o, limit).sql)
  {
  }

  /** Without a minimum rating the corrected builder builds exactly the
      source's query. */
  lemma SameQueryWithoutRating(o: SearchOptions, limit: Js.Value)
    requires !Js.Truthy(o.minimum_rating)
    ensures BuildPropertyQueryHaving(o, limit) == BuildPropertyQuery(o, limit)
  {
    RatingBlockLast(o);
    assert RatingPredicate(o) == [];
  }
}
