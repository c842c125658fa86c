/** The dynamic query of `getAllProperties`: from the search options and a
    row limit it builds the SQL text and the positional parameter list. The
    builder is written as the source runs, one criterion after the other,
    threading the text and the parameter list; `Filters` is the declarative
    description it is proved against (the ordered list of bound comparisons,
    each with the slot its placeholder fills). */
module PropertySearch {
  import Js
  import opened Sql
  import opened SearchText

  /** The options bag; an option that is not supplied is `Undefined`. */
  datatype SearchOptions = SearchOptions(
    city: Js.Value,
    owner_id: Js.Value,
    minimum_price_per_night: Js.Value,
    maximum_price_per_night: Js.Value,
    minimum_rating: Js.Value)

  /** One comparison bound to a value: the slot its placeholder fills, and
      the value pushed for it. */
  datatype Binding = Binding(slot: Slot, value: Param)

  function Ind(b: bool): nat {
    if b then 1 else 0
  }

  function SlotsOf(bs: seq<Binding>): seq<Slot> {
    if bs == [] then [] else [bs[0].slot] + SlotsOf(bs[1..])
  }

  function ValuesOf(bs: seq<Binding>): seq<Param> {
    if bs == [] then [] else [bs[0].value] + ValuesOf(bs[1..])
  }

  lemma OfAppend(a: seq<Binding>, b: seq<Binding>)
    ensures SlotsOf(a + b) == SlotsOf(a) + SlotsOf(b)
    ensures ValuesOf(a + b) == ValuesOf(a) + ValuesOf(b)
  {
    SlotsOfAppend(a, b);
    ValuesOfAppend(a, b);
  }

  lemma {:induction false} SlotsOfAppend(a: seq<Binding>, b: seq<Binding>)
    ensures SlotsOf(a + b) == SlotsOf(a) + SlotsOf(b)
  {
    if a == [] {
      assert a + b == b;
    } else {
      assert (a + b)[1..] == a[1..] + b;
      SlotsOfAppend(a[1..], b);
    }
  }

  lemma {:induction false} ValuesOfAppend(a: seq<Binding>, b: seq<Binding>)
    ensures ValuesOf(a + b) == ValuesOf(a) + ValuesOf(b)
  {
    if a == [] {
      assert a + b == b;
    } else {
      assert (a + b)[1..] == a[1..] + b;
      ValuesOfAppend(a[1..], b);
    }
  }

  lemma {:induction false} OfLength(bs: seq<Binding>)
    ensures |SlotsOf(bs)| == |bs| && |ValuesOf(bs)| == |bs|
  {
    if bs != [] {
      OfLength(bs[1..]);
    }
  }

  lemma {:induction false} OfIndex(bs: seq<Binding>, i: nat)
    requires i < |bs|
    ensures |SlotsOf(bs)| == |bs| && |ValuesOf(bs)| == |bs|
    ensures SlotsOf(bs)[i] == bs[i].slot && ValuesOf(bs)[i] == bs[i].value
  {
    OfLength(bs);
    if i > 0 {
      OfIndex(bs[1..], i - 1);
    }
  }

  // ---------------------------------------------------------------------
  // The four criteria, each as the comparisons it binds when present
  // ---------------------------------------------------------------------

  /** The pattern bound for a city: the city's text between two `%`. */
  function CityPattern(city: Js.Value): Param {
    Value(Js.Str("%" + Js.ToText(city) + "%"))
  }

  function CityPredicate(o: SearchOptions): seq<Binding> {
    if Js.Truthy(o.city) then [Binding(CityLike, CityPattern(o.city))] else []
  }

  function OwnerPredicate(o: SearchOptions): seq<Binding> {
    if Js.Truthy(o.owner_id) then [Binding(OwnerIs, NumberOf(o.owner_id))] else []
  }

  /** The price range is applied only when both bounds are truthy; one bound
      alone adds nothing. */
  predicate PriceActive(o: SearchOptions) {
    Js.Truthy(o.minimum_price_per_night) && Js.Truthy(o.maximum_price_per_night)
  }

  function PricePredicate(o: SearchOptions): seq<Binding> {
    if PriceActive(o) then
      [Binding(CostAbove, Value(o.minimum_price_per_night)),
       Binding(CostBelow, Value(o.maximum_price_per_night))]
    else []
  }

  function RatingPredicate(o: SearchOptions): seq<Binding> {
    if Js.Truthy(o.minimum_rating) then [Binding(RatingAbove, NumberOf(o.minimum_rating))] else []
  }

  /** All bound comparisons of the search, in the order the criteria are
      checked: city, owner, price range, rating. */
  function Filters(o: SearchOptions): seq<Binding> {
    CityPredicate(o) + OwnerPredicate(o) + PricePredicate(o) + RatingPredicate(o)
  }

  /** The number of criteria that add a predicate. */
  function ActiveCount(o: SearchOptions): nat {
    Ind(Js.Truthy(o.city)) + Ind(Js.Truthy(o.owner_id)) + Ind(PriceActive(o))
      + Ind(Js.Truthy(o.minimum_rating))
  }

  /** The connectives of a WHERE clause with `k` predicates: `WHERE` before
      the first, `AND` before each later one. */
  function Chain(k: nat): seq<Token> {
    if k == 0 then [] else Chain(k - 1) + [if k == 1 then Where else And]
  }

  /** The slots that open a predicate: the first comparison of each
      criterion. The upper price bound continues the price predicate. */
  predicate Opens(slot: Slot) {
    slot.CityLike? || slot.OwnerIs? || slot.CostAbove? || slot.RatingAbove?
  }

  /** A criterion block opens one predicate: only its first comparison has an
      opening slot. */
  predicate OneOpener(bs: seq<Binding>) {
    forall i :: 1 <= i < |bs| ==> !Opens(bs[i].slot)
  }

  /** The text between the base SELECT and GROUP BY that binds `bs`, its
      placeholders numbered on from `i + 1`. Each comparison that opens a
      predicate comes after a connective: WHERE for the very first
      comparison, AND for any later one. Apart from those connectives the
      text holds only the placeholders, so no option value is written into
      it. */
  function WhereClause(bs: seq<Binding>, i: nat): seq<Token>
    decreases |bs|
  {
    if bs == [] then []
    else
      (if Opens(bs[0].slot) then [if i == 0 then Where else And] else [])
        + [Placeholder(bs[0].slot, i + 1)] + WhereClause(bs[1..], i + 1)
  }

  // ---------------------------------------------------------------------
  // The builder, step by step as the source runs
  // ---------------------------------------------------------------------

  /** The text before any criterion is looked at, with nothing bound yet. */
  const Start: Query := Query([Text(BaseText)], [])

  /** The connective the source appends before a predicate: `AND` once a
      value has been bound, `WHERE` before that. */
  function Connective(q: Query): Token {
    if |q.params| > 0 then And else Where
  }

  function Connect(q: Query): Query {
    Query(q.sql + [Connective(q)], q.params)
  }

  /** Pushes the value, then appends the slot's text and `$n` with `n` the
      new length of the parameter list. */
  function Push(q: Query, b: Binding): Query {
    Query(q.sql + [Placeholder(b.slot, |q.params| + 1)], q.params + [b.value])
  }

  function PushAll(q: Query, bs: seq<Binding>): Query
    decreases |bs|
  {
    if bs == [] then q else PushAll(Push(q, bs[0]), bs[1..])
  }

  /** The placeholders for `bs`, numbered on from `first`. */
  function Run(bs: seq<Binding>, first: nat): seq<Token> {
    if bs == [] then [] else [Placeholder(bs[0].slot, first)] + Run(bs[1..], first + 1)
  }

  /** Pushing comparisons one at a time appends their placeholders numbered
      on from the current length, and their values. */
  lemma {:induction false} PushAllIsRun(q: Query, bs: seq<Binding>)
    ensures PushAll(q, bs).sql == q.sql + Run(bs, |q.params| + 1)
    ensures PushAll(q, bs).params == q.params + ValuesOf(bs)
    decreases |bs|
  {
    if bs == [] {
      assert q.sql + [] == q.sql && q.params + [] == q.params;
    } else {
      var n := |q.params|;
      var t := Placeholder(bs[0].slot, n + 1);
      var p := Push(q, bs[0]);
      assert PushAll(q, bs) == PushAll(p, bs[1..]);
      assert p.sql == q.sql + [t] && p.params == q.params + [bs[0].value] && |p.params| == n + 1;
      PushAllIsRun(p, bs[1..]);
      assert Run(bs, n + 1) == [t] + Run(bs[1..], n + 2);
      assert ValuesOf(bs) == [bs[0].value] + ValuesOf(bs[1..]);
      assert (q.sql + [t]) + Run(bs[1..], n + 2) == q.sql + ([t] + Run(bs[1..], n + 2));
      assert (q.params + [bs[0].value]) + ValuesOf(bs[1..]) == q.params + ([bs[0].value] + ValuesOf(bs[1..]));
    }
  }

  lemma {:induction false} RunPlaceholders(bs: seq<Binding>, first: nat)
    ensures |Run(bs, first)| == |bs|
    ensures forall i :: 0 <= i < |bs| ==> Run(bs, first)[i].Placeholder?
    decreases |bs|
  {
    if bs != [] {
      RunPlaceholders(bs[1..], first + 1);
    }
  }

  lemma {:induction false} RunViews(bs: seq<Binding>, first: nat)
    ensures Placeholders(Run(bs, first)) == Range(first, |bs|)
    ensures Slots(Run(bs, first)) == SlotsOf(bs)
    ensures Connectives(Run(bs, first)) == []
    decreases |bs|
  {
    if bs != [] {
      var t := Placeholder(bs[0].slot, first);
      RunViews(bs[1..], first + 1);
      ViewsAppend([t], Run(bs[1..], first + 1));
      assert [t][1..] == [];
    }
  }

  /** One criterion block of the source: when it binds anything, the
      connective and then its comparisons are appended; otherwise nothing
      changes. */
  function Criterion(q: Query, bs: seq<Binding>): Query {
    if bs == [] then q else PushAll(Connect(q), bs)
  }

  /** The shape every criterion block keeps: the text starts with the base,
      does not end in a dangling connective, and each connective in it leads
      a placeholder. */
  predicate Settled(q: Query) {
    && |q.sql| > 0
    && q.sql[0] == Text(BaseText)
    && !q.sql[|q.sql| - 1].IsConnective()
    && ConnectivesLeadButLast(q.sql)
  }

  /** What a partly built query looks like after some criterion blocks
      have bound the comparisons `bs` and added `k` predicates. */
  predicate Built(q: Query, bs: seq<Binding>, k: nat) {
    && Numbered(q) && Settled(q)
    && q.params == ValuesOf(bs)
    && Slots(q.sql) == SlotsOf(bs)
    && Connectives(q.sql) == Chain(k)
    && (|q.params| == 0 <==> k == 0)
  }

  lemma CriterionShape(q: Query, b: seq<Binding>)
    requires b != []
    ensures Criterion(q, b)
         == Query(q.sql + [Connective(q)] + Run(b, |q.params| + 1), q.params + ValuesOf(b))
  {
    var c := Connect(q);
    assert Criterion(q, b) == PushAll(c, b);
    PushAllIsRun(c, b);
  }

  lemma CriterionSettled(q: Query, b: seq<Binding>)
    requires Settled(q) && b != []
    ensures Settled(Criterion(q, b))
  {
    CriterionShape(q, b);
    RunPlaceholders(b, |q.params| + 1);
    var run := Run(b, |q.params| + 1);
    var s := Criterion(q, b).sql;
    var m := |q.sql|;
    assert s == q.sql + [Connective(q)] + run;
    forall i | 0 <= i < |s| - 1
      ensures s[i].IsConnective() ==> s[i + 1].Placeholder?
    {
      if i < m - 1 {
        assert s[i] == q.sql[i] && s[i + 1] == q.sql[i + 1];
      } else if i == m - 1 {
        assert s[i] == q.sql[m - 1];
      } else if i == m {
        assert s[i + 1] == run[0];
      } else {
        assert s[i] == run[i - m - 1];
      }
    }
    assert s[|s| - 1] == run[|b| - 1];
  }

  /** The views of a text extended by a connective and a run of placeholders. */
  lemma ExtendViews(a: seq<Token>, t: Token, run: seq<Token>)
    requires t.IsConnective()
    ensures Placeholders(a + [t] + run) == Placeholders(a) + Placeholders(run)
    ensures Slots(a + [t] + run) == Slots(a) + Slots(run)
    ensures Connectives(a + [t] + run) == Connectives(a) + [t] + Connectives(run)
  {
    ExtendPlaceholders(a, t, run);
    ExtendSlots(a, t, run);
    ExtendConnectives(a, t, run);
  }

  lemma ExtendPlaceholders(a: seq<Token>, t: Token, run: seq<Token>)
    requires t.IsConnective()
    ensures Placeholders(a + [t] + run) == Placeholders(a) + Placeholders(run)
  {
    PlaceholdersAppend(a, [t]);
    PlaceholdersAppend(a + [t], run);
    assert [t][1..] == [];
    assert Placeholders([t]) == [];
    assert Placeholders(a) + [] == Placeholders(a);
  }

  lemma ExtendSlots(a: seq<Token>, t: Token, run: seq<Token>)
    requires t.IsConnective()
    ensures Slots(a + [t] + run) == Slots(a) + Slots(run)
  {
    SlotsAppend(a, [t]);
    SlotsAppend(a + [t], run);
    assert [t][1..] == [];
    assert Slots([t]) == [];
    assert Slots(a) + [] == Slots(a);
  }

  lemma ExtendConnectives(a: seq<Token>, t: Token, run: seq<Token>)
    requires t.IsConnective()
    ensures Connectives(a + [t] + run) == Connectives(a) + [t] + Connectives(run)
  {
    ConnectivesAppend(a, [t]);
    ConnectivesAppend(a + [t], run);
    assert [t][1..] == [];
    assert Connectives([t]) == [t];
  }

  lemma CriterionViews(q: Query, b: seq<Binding>)
    requires b != []
    ensures Placeholders(Criterion(q, b).sql) == Placeholders(q.sql) + Range(|q.params| + 1, |b|)
    ensures Slots(Criterion(q, b).sql) == Slots(q.sql) + SlotsOf(b)
    ensures Connectives(Criterion(q, b).sql) == Connectives(q.sql) + [Connective(q)]
  {
    var t := Connective(q);
    var run := Run(b, |q.params| + 1);
    CriterionShape(q, b);
    var s := Criterion(q, b).sql;
    assert s == q.sql + [t] + run;
    RunViews(b, |q.params| + 1);
    ExtendViews(q.sql, t, run);
    assert Connectives(q.sql) + [t] + [] == Connectives(q.sql) + [t];
  }

  lemma CriterionNumbered(q: Query, b: seq<Binding>)
    requires Numbered(q) && b != []
    ensures Numbered(Criterion(q, b))
  {
    var r := Criterion(q, b);
    CriterionShape(q, b);
    CriterionViews(q, b);
    OfLength(b);
    assert |r.params| == |q.params| + |b|;
    PositionsExtend(|q.params|, |b|);
  }

  lemma CriterionFacts(q: Query, bs: seq<Binding>, k: nat, b: seq<Binding>)
    requires Built(q, bs, k)
    ensures Built(Criterion(q, b), bs + b, k + Ind(b != []))
  {
    OfAppend(bs, b);
    if b == [] {
      assert bs + b == bs;
    } else {
      var r := Criterion(q, b);
      CriterionShape(q, b);
      assert r.params == ValuesOf(bs + b);
      CriterionSettled(q, b);
      CriterionNumbered(q, b);
      CriterionViews(q, b);
      assert Slots(r.sql) == SlotsOf(bs + b);
      assert Chain(k + 1) == Chain(k) + [Connective(q)];
      assert Connectives(r.sql) == Chain(k + 1);
    }
  }

  /** The criterion blocks in the order the source runs them. */
  function Criteria(o: SearchOptions): seq<seq<Binding>> {
    [CityPredicate(o), OwnerPredicate(o), PricePredicate(o), RatingPredicate(o)]
  }

  /** Runs the criterion blocks one after the other. */
  function CriterionBlocks(q: Query, blocks: seq<seq<Binding>>): Query
    decreases |blocks|
  {
    if blocks == [] then q else CriterionBlocks(Criterion(q, blocks[0]), blocks[1..])
  }

  function Flatten(blocks: seq<seq<Binding>>): seq<Binding> {
    if blocks == [] then [] else blocks[0] + Flatten(blocks[1..])
  }

  function NonEmpty(blocks: seq<seq<Binding>>): nat {
    if blocks == [] then 0 else Ind(blocks[0] != []) + NonEmpty(blocks[1..])
  }

  /** Running blocks binds their comparisons in order and adds one connective
      per block that binds something. */
  lemma {:induction false} CriterionBlocksFacts(q: Query, bs: seq<Binding>, k: nat, blocks: seq<seq<Binding>>)
    requires Built(q, bs, k)
    ensures Built(CriterionBlocks(q, blocks), bs + Flatten(blocks), k + NonEmpty(blocks))
    decreases |blocks|
  {
    if blocks == [] {
      assert bs + [] == bs;
    } else {
      var b, rest := blocks[0], blocks[1..];
      var q1 := Criterion(q, b);
      assert CriterionBlocks(q, blocks) == CriterionBlocks(q1, rest);
      assert Flatten(blocks) == b + Flatten(rest);
      assert NonEmpty(blocks) == Ind(b != []) + NonEmpty(rest);
      var k1 := k + Ind(b != []);
      CriterionFacts(q, bs, k, b);
      CriterionBlocksFacts(q1, bs + b, k1, rest);
      assert k1 + NonEmpty(rest) == k + NonEmpty(blocks);
      assert (bs + b) + Flatten(rest) == bs + Flatten(blocks);
    }
  }

  lemma {:induction false} NoBlockApplies(q: Query, blocks: seq<seq<Binding>>)
    requires NonEmpty(blocks) == 0
    ensures CriterionBlocks(q, blocks) == q
    decreases |blocks|
  {
    if blocks != [] {
      NoBlockApplies(q, blocks[1..]);
    }
  }

  lemma FiltersAreCriteria(o: SearchOptions)
    ensures Flatten(Criteria(o)) == Filters(o)
    ensures NonEmpty(Criteria(o)) == ActiveCount(o)
  {
    var c, w, p, g := CityPredicate(o), OwnerPredicate(o), PricePredicate(o), RatingPredicate(o);
    var bs := Criteria(o);
    var b1, b2, b3 := bs[1..], bs[1..][1..], bs[1..][1..][1..];
    assert b1 == [w, p, g] && b2 == [p, g] && b3 == [g] && b3[1..] == [];
    assert Flatten(b3) == g + [] == g;
    assert Flatten(b2) == p + g;
    assert Flatten(b1) == w + (p + g);
    assert Flatten(bs) == c + (w + (p + g));
    assert NonEmpty(b3) == Ind(g != []);
    assert NonEmpty(b2) == Ind(p != []) + Ind(g != []);
    assert NonEmpty(b1) == Ind(w != []) + Ind(p != []) + Ind(g != []);
    assert NonEmpty(bs) == Ind(c != []) + Ind(w != []) + Ind(p != []) + Ind(g != []);
  }

  lemma StartBuilt()
    ensures Built(Start, [], 0)
  {
    var sql := Start.sql;
    assert sql[1..] == [];
    assert Placeholders([]) == [] && Slots([]) == [] && Connectives([]) == [];
    assert Placeholders(sql) == [] && Slots(sql) == [] && Connectives(sql) == [];
    assert Positions(0) == [];
    assert ValuesOf([]) == [] && SlotsOf([]) == [];
  }

  /** What `getAllProperties` promises of the query `r` it builds for `o`
      and `limit`: the placeholders are `$1 … $k` in text order; the
      parameters are the values of the filters followed by the limit; each
      placeholder's comparison lines up with its parameter; the connectives
      are one WHERE/AND chain of one link per applied criterion; and the text
      is the base SELECT, the WHERE clause of the filters, and the GROUP BY /
      ORDER BY and LIMIT clauses. */
  predicate Searched(o: SearchOptions, limit: Js.Value, r: Query) {
    && Numbered(r)
    && r.params == ValuesOf(Filters(o)) + [Value(limit)]
    && Slots(r.sql) == SlotsOf(Filters(o)) + [Limit]
    && Connectives(r.sql) == Chain(ActiveCount(o))
    && |r.sql| >= 4 && r.sql[0] == Text(BaseText)
    && r.sql[|r.sql| - 3] == Text(GroupOrderText)
    && r.sql[|r.sql| - 2] == Placeholder(Limit, |r.params|)
    && r.sql[|r.sql| - 1] == Text(EndText)
    && r.sql == [Text(BaseText)] + WhereClause(Filters(o), 0)
              + [Text(GroupOrderText), Placeholder(Limit, |r.params|), Text(EndText)]
  }

  /** `getAllProperties`' query: the text and the parameter list handed to
      the store. */
  function BuildPropertyQuery(o: SearchOptions, limit: Js.Value): (r: Query)
    ensures Searched(o, limit, r)
  {
    var r := Finish(CriterionBlocks(Start, Criteria(o)), limit);
    Finished(o, limit, r);
    r
  }

  lemma Finished(o: SearchOptions, limit: Js.Value, r: Query)
    requires r == Finish(CriterionBlocks(Start, Criteria(o)), limit)
    ensures Searched(o, limit, r)
  {
    var q := CriterionBlocks(Start, Criteria(o));
    CriteriaBuilt(o);
    FinishStep(q, limit);
    CriteriaWritten(o);
    FinishShape(q, limit);
    assert |r.sql| == |q.sql| + 3 && r.sql[0] == q.sql[0];
  }

  /** After the four criterion blocks the query has bound the filters and
      added one connective per applied criterion. */
  lemma CriteriaBuilt(o: SearchOptions)
    ensures Built(CriterionBlocks(Start, Criteria(o)), Filters(o), ActiveCount(o))
  {
    StartBuilt();
    CriterionBlocksFacts(Start, [], 0, Criteria(o));
    assert [] + Filters(o) == Filters(o);
    FiltersAreCriteria(o);
  }

  // ---------------------------------------------------------------------
  // The builder writes the declarative WHERE clause
  // ---------------------------------------------------------------------

  lemma {:induction false} WhereClauseAppend(a: seq<Binding>, b: seq<Binding>, i: nat)
    ensures WhereClause(a + b, i) == WhereClause(a, i) + WhereClause(b, i + |a|)
    decreases |a|
  {
    if a == [] {
      assert a + b == b;
    } else {
      var t := a[1..];
      var h := (if Opens(a[0].slot) then [if i == 0 then Where else And] else [])
        + [Placeholder(a[0].slot, i + 1)];
      assert (a + b)[0] == a[0] && (a + b)[1..] == t + b;
      assert WhereClause(a + b, i) == h + WhereClause(t + b, i + 1);
      assert WhereClause(a, i) == h + WhereClause(t, i + 1);
      WhereClauseAppend(t, b, i + 1);
      AppendAssoc(h, WhereClause(t, i + 1), WhereClause(b, i + |a|));
    }
  }

  /** Comparisons that open no predicate are written as bare placeholders. */
  lemma {:induction false} WhereClauseRun(bs: seq<Binding>, i: nat)
    requires forall k :: 0 <= k < |bs| ==> !Opens(bs[k].slot)
    ensures WhereClause(bs, i) == Run(bs, i + 1)
    decreases |bs|
  {
    if bs != [] {
      WhereClauseRun(bs[1..], i + 1);
    }
  }

  /** A criterion block is written as one connective and its placeholders. */
  lemma WhereClauseBlock(b: seq<Binding>, i: nat)
    requires b != [] && Opens(b[0].slot) && OneOpener(b)
    ensures WhereClause(b, i) == [if i == 0 then Where else And] + Run(b, i + 1)
  {
    WhereClauseRun(b[1..], i + 1);
    assert Run(b, i + 1) == [Placeholder(b[0].slot, i + 1)] + Run(b[1..], i + 2);
  }

  /** A block the source can run: empty, or one predicate. */
  predicate Shaped(b: seq<Binding>) {
    b == [] || (Opens(b[0].slot) && OneOpener(b))
  }

  /** The text is the base SELECT and the WHERE clause of `bs`, whose values
      are the parameters. */
  predicate Written(q: Query, bs: seq<Binding>) {
    q.sql == [Text(BaseText)] + WhereClause(bs, 0) && q.params == ValuesOf(bs)
  }

  /** The text after any fixed head follows the WHERE clause block by block. */
  lemma CriterionText(q: Query, head: seq<Token>, bs: seq<Binding>, b: seq<Binding>)
    requires q.sql == head + WhereClause(bs, 0) && |q.params| == |bs|
    requires b != [] && Opens(b[0].slot) && OneOpener(b)
    ensures Criterion(q, b).sql == head + WhereClause(bs + b, 0)
  {
    var w, t, r := WhereClause(bs, 0), Connective(q), Run(b, |bs| + 1);
    CriterionShape(q, b);
    WhereClauseBlock(b, |bs|);
    assert WhereClause(b, |bs|) == [t] + r;
    WhereClauseAppend(bs, b, 0);
    AppendAssoc(head, w, [t] + r);
    AppendAssoc(head + w, [t], r);
  }

  lemma CriterionWritten(q: Query, bs: seq<Binding>, b: seq<Binding>)
    requires Written(q, bs) && Shaped(b)
    ensures Written(Criterion(q, b), bs + b)
  {
    if b == [] {
      assert bs + b == bs;
    } else {
      OfLength(bs);
      CriterionText(q, [Text(BaseText)], bs, b);
      CriterionShape(q, b);
      OfAppend(bs, b);
    }
  }

  lemma {:induction false} BlocksWritten(q: Query, bs: seq<Binding>, blocks: seq<seq<Binding>>)
    requires Written(q, bs)
    requires forall k :: 0 <= k < |blocks| ==> Shaped(blocks[k])
    ensures Written(CriterionBlocks(q, blocks), bs + Flatten(blocks))
    decreases |blocks|
  {
    if blocks == [] {
      assert bs + [] == bs;
    } else {
      var b, rest := blocks[0], blocks[1..];
      CriterionWritten(q, bs, b);
      BlocksWritten(Criterion(q, b), bs + b, rest);
      assert Flatten(blocks) == b + Flatten(rest);
      assert (bs + b) + Flatten(rest) == bs + Flatten(blocks);
    }
  }

  /** Each criterion of the source is one predicate or nothing. */
  lemma CriteriaShaped(o: SearchOptions)
    ensures forall k :: 0 <= k < |Criteria(o)| ==> Shaped(Criteria(o)[k])
  {
    assert OneOpener(PricePredicate(o));
  }

  lemma CriteriaWritten(o: SearchOptions)
    ensures Written(CriterionBlocks(Start, Criteria(o)), Filters(o))
  {
    assert Written(Start, []) by {
      assert WhereClause([], 0) == [];
      assert [Text(BaseText)] + [] == [Text(BaseText)];
    }
    CriteriaShaped(o);
    BlocksWritten(Start, [], Criteria(o));
    FiltersAreCriteria(o);
    assert [] + Filters(o) == Filters(o);
  }

  /** One pushed value: the parameter list grows by the value, the text by a
      placeholder carrying the new length. */
  lemma PushStep(q: Query, b: Binding)
    ensures Slots(Push(q, b).sql) == Slots(q.sql) + [b.slot]
    ensures Connectives(Push(q, b).sql) == Connectives(q.sql)
    ensures Numbered(q) ==> Numbered(Push(q, b))
    ensures ConnectivesLeadButLast(q.sql) ==> ConnectivesLeadButLast(Push(q, b).sql)
  {
    var t := Placeholder(b.slot, |q.params| + 1);
    ViewsAppend(q.sql, [t]);
    assert Placeholders([t]) == [|q.params| + 1];
    assert Slots([t]) == [b.slot];
    assert Connectives([t]) == [];
  }

  /** Appends the GROUP BY and ORDER BY clauses, pushes the limit as the
      last value and appends the LIMIT clause with its placeholder. */
  function Finish(q: Query, limit: Js.Value): Query {
    var g := Query(q.sql + [Text(GroupOrderText)], q.params);
    var p := Push(g, Binding(Limit, Value(limit)));
    Query(p.sql + [Text(EndText)], p.params)
  }

  /** The tail appended after the criteria. */
  lemma FinishShape(q: Query, limit: Js.Value)
    ensures Finish(q, limit)
         == Query(q.sql + [Text(GroupOrderText), Placeholder(Limit, |q.params| + 1), Text(EndText)],
                  q.params + [Value(limit)])
  {
  }

  lemma FinishStep(q: Query, limit: Js.Value)
    requires Settled(q)
    ensures Slots(Finish(q, limit).sql) == Slots(q.sql) + [Limit]
    ensures Connectives(Finish(q, limit).sql) == Connectives(q.sql)
    ensures Numbered(q) ==> Numbered(Finish(q, limit))
    ensures ConnectivesLead(Finish(q, limit).sql)
  {
    var g := Query(q.sql + [Text(GroupOrderText)], q.params);
    ViewsAppend(q.sql, [Text(GroupOrderText)]);
    assert Placeholders([Text(GroupOrderText)]) == [] && Slots([Text(GroupOrderText)]) == [];
    assert Connectives([Text(GroupOrderText)]) == [];
    var p := Push(g, Binding(Limit, Value(limit)));
    PushStep(g, Binding(Limit, Value(limit)));
    ViewsAppend(p.sql, [Text(EndText)]);
    assert Placeholders([Text(EndText)]) == [] && Slots([Text(EndText)]) == [];
    assert Connectives([Text(EndText)]) == [];
  }
}
