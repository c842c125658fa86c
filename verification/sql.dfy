/** Parameterised SQL text as the data-access layer builds it: a sequence of
    tokens rendered to one string, plus the positional parameter list that is
    handed to the store together with it. A placeholder `$n` is kept as a token
    holding `n` and the literal text written immediately before it in the same
    append, so the pairing of placeholders with values can be stated without
    parsing the rendered string. */
module Sql {
  import Js

  /** A bound value: either a JavaScript value passed as it is, or the result
      of `Number(arg)`, which is kept symbolic. */
  datatype Param = Value(v: Js.Value) | NumberOf(arg: Js.Value)

  /** What a placeholder binds, one per comparison or clause of the queries in
      `database.js`; `SlotText` is the text written right before its `$n`. */
  datatype Slot =
    | CityLike | OwnerIs | CostAbove | CostBelow | RatingAbove | Limit
    | EmailIs | IdIs | NewName | NewEmail | NewPassword | GuestIs

  function SlotText(s: Slot): string {
    match s
    case CityLike => " city LIKE "
    case OwnerIs => " owner_id="
    case CostAbove => "properties.cost_per_night>"
    case CostBelow => " AND properties.cost_per_night<"
    case RatingAbove => " avg(property_reviews.rating) > "
    case Limit => "LIMIT "
    case EmailIs => " email ="
    case IdIs => " id ="
    case NewName => "("
    case NewEmail => ", "
    case NewPassword => ", "
    case GuestIs => " guest_id="
  }

  /** `Where` and `And` are the connectives chosen at run time in front of a
      dynamically added predicate; every other piece of text is `Text` or the
      slot text of a `Placeholder`. */
  datatype Token = Text(s: string) | Where | And | Placeholder(slot: Slot, n: nat) {
    predicate IsConnective() {
      Where? || And?
    }
  }

  datatype Query = Query(sql: seq<Token>, params: seq<Param>)

  function RenderToken(t: Token): string {
    match t
    case Text(s) => s
    case Where => " WHERE "
    case And => " AND "
    case Placeholder(slot, n) => SlotText(slot) + "$" + Js.NatToString(n)
  }

  /** The query string the store receives. */
  function Render(sql: seq<Token>): string {
    if sql == [] then "" else RenderToken(sql[0]) + Render(sql[1..])
  }

  /** The indices of the placeholders, in the order they occur in the text. */
  function Placeholders(sql: seq<Token>): seq<nat> {
    if sql == [] then []
    else (if sql[0].Placeholder? then [sql[0].n] else []) + Placeholders(sql[1..])
  }

  /** The slot of each placeholder, in the same order as `Placeholders`. */
  function Slots(sql: seq<Token>): seq<Slot> {
    if sql == [] then []
    else (if sql[0].Placeholder? then [sql[0].slot] else []) + Slots(sql[1..])
  }

  lemma {:induction false} SlotsLength(sql: seq<Token>)
    ensures |Slots(sql)| == |Placeholders(sql)|
  {
    if sql != [] {
      SlotsLength(sql[1..]);
    }
  }

  /** The connective tokens, in the order they occur in the text. */
  function Connectives(sql: seq<Token>): seq<Token> {
    if sql == [] then []
    else (if sql[0].IsConnective() then [sql[0]] else []) + Connectives(sql[1..])
  }

  /** How many times token `t` occurs in `sql`. */
  function Count(sql: seq<Token>, t: Token): nat {
    if sql == [] then 0 else (if sql[0] == t then 1 else 0) + Count(sql[1..], t)
  }

  /** `[first, first + 1, ..., first + k - 1]`. */
  function Range(first: nat, k: nat): (r: seq<nat>)
    ensures |r| == k
    ensures forall i :: 0 <= i < k ==> r[i] == first + i
    decreases k
  {
    if k == 0 then [] else [first] + Range(first + 1, k - 1)
  }

  /** `[1, 2, ..., n]`: the placeholder indices of a text that binds `n` values. */
  function Positions(n: nat): seq<nat> {
    Range(1, n)
  }

  /** Two adjacent ranges make one. */
  lemma {:induction false} RangeAppend(first: nat, m: nat, k: nat)
    ensures Range(first, m) + Range(first + m, k) == Range(first, m + k)
    decreases m
  {
    if m == 0 {
      assert Range(first, 0) + Range(first, k) == Range(first, k);
    } else {
      var a, c := Range(first + 1, m - 1), Range(first + m, k);
      RangeAppend(first + 1, m - 1, k);
      assert a + c == Range(first + 1, m - 1 + k);
      assert Range(first, m) == [first] + a;
      assert Range(first, m + k) == [first] + Range(first + 1, m - 1 + k);
      AppendAssoc([first], a, c);
    }
  }

  /** The placeholders `$(n + 1) … $(n + k)` continue the numbering `$1 … $n`. */
  lemma PositionsExtend(n: nat, k: nat)
    ensures Positions(n) + Range(n + 1, k) == Positions(n + k)
  {
    RangeAppend(1, n, k);
  }

  /** The placeholders of the text are `$1, $2, ..., $k` in this order, where
      `k` is the number of bound values: the i-th placeholder of the text
      refers to the i-th parameter and every parameter is referred to once. */
  predicate Numbered(q: Query) {
    Placeholders(q.sql) == Positions(|q.params|)
  }

  /** Every connective is directly followed by a placeholder, that is, by the
      first comparison of the predicate it introduces. */
  predicate ConnectivesLead(sql: seq<Token>) {
    forall i :: 0 <= i < |sql| && sql[i].IsConnective() ==>
      i + 1 < |sql| && sql[i + 1].Placeholder?
  }

  /** As `ConnectivesLead`, except that the last token may be a connective
      whose predicate has not been appended yet. */
  predicate ConnectivesLeadButLast(sql: seq<Token>) {
    forall i :: 0 <= i < |sql| - 1 && sql[i].IsConnective() ==> sql[i + 1].Placeholder?
  }

  lemma RenderSingle(t: Token)
    ensures Render([t]) == RenderToken(t)
  {
    assert [t][1..] == [];
  }

  lemma RenderPair(t: Token, u: Token)
    ensures Render([t, u]) == RenderToken(t) + RenderToken(u)
  {
    assert [t, u][1..] == [u];
    RenderSingle(u);
  }

  lemma AppendAssoc<T>(h: seq<T>, x: seq<T>, y: seq<T>)
    ensures h + (x + y) == (h + x) + y
  {
  }

  /** A one-digit placeholder renders as its slot text, `$` and the digit. */
  lemma PlaceholderText(slot: Slot, n: nat, digits: string)
    requires n < 10 && digits == [Js.DigitChar(n)]
    ensures RenderToken(Placeholder(slot, n)) == SlotText(slot) + "$" + digits
  {
  }

  /** Two placeholders of one comparison are written alike exactly when they
      carry the same index. */
  lemma PlaceholderTextsDistinct(slot: Slot, m: nat, n: nat)
    ensures RenderToken(Placeholder(slot, m)) == RenderToken(Placeholder(slot, n)) <==> m == n
  {
    var p := SlotText(slot) + "$";
    var a, b := Js.NatToString(m), Js.NatToString(n);
    if RenderToken(Placeholder(slot, m)) == RenderToken(Placeholder(slot, n)) {
      assert (p + a)[|p|..] == a && (p + b)[|p|..] == b;
      Js.NatToStringInjective(m, n);
    }
  }

  lemma RenderThree(t: Token, u: Token, v: Token)
    ensures Render([t, u, v]) == RenderToken(t) + RenderToken(u) + RenderToken(v)
  {
    assert [t, u, v] == [t, u] + [v];
    RenderAppend([t, u], [v]);
    RenderPair(t, u);
    RenderSingle(v);
  }

  lemma RenderFour(t: Token, u: Token, v: Token, w: Token)
    ensures Render([t, u, v, w]) == RenderToken(t) + RenderToken(u) + RenderToken(v) + RenderToken(w)
  {
    assert [t, u, v, w] == [t, u, v] + [w];
    RenderAppend([t, u, v], [w]);
    RenderThree(t, u, v);
    RenderSingle(w);
  }

  lemma RenderFive(t: Token, u: Token, v: Token, w: Token, x: Token)
    ensures Render([t, u, v, w, x])
         == RenderToken(t) + RenderToken(u) + RenderToken(v) + RenderToken(w) + RenderToken(x)
  {
    assert [t, u, v, w, x] == [t, u, v, w] + [x];
    RenderAppend([t, u, v, w], [x]);
    RenderFour(t, u, v, w);
    RenderSingle(x);
  }

  lemma {:induction false} RenderAppend(a: seq<Token>, b: seq<Token>)
    ensures Render(a + b) == Render(a) + Render(b)
  {
    if a == [] {
      assert a + b == b;
    } else {
      assert (a + b)[0] == a[0];
      assert (a + b)[1..] == a[1..] + b;
      RenderAppend(a[1..], b);
      AppendAssoc(RenderToken(a[0]), Render(a[1..]), Render(b));
    }
  }

  lemma {:induction false} PlaceholdersAppend(a: seq<Token>, b: seq<Token>)
    ensures Placeholders(a + b) == Placeholders(a) + Placeholders(b)
  {
    if a == [] {
      assert a + b == b;
    } else {
      var h := if a[0].Placeholder? then [a[0].n] else [];
      assert (a + b)[0] == a[0];
      assert (a + b)[1..] == a[1..] + b;
      assert Placeholders(a + b) == h + Placeholders(a[1..] + b);
      PlaceholdersAppend(a[1..], b);
      assert h + (Placeholders(a[1..]) + Placeholders(b)) == (h + Placeholders(a[1..])) + Placeholders(b);
    }
  }

  lemma {:induction false} SlotsAppend(a: seq<Token>, b: seq<Token>)
    ensures Slots(a + b) == Slots(a) + Slots(b)
  {
    if a == [] {
      assert a + b == b;
    } else {
      var h := if a[0].Placeholder? then [a[0].slot] else [];
      assert (a + b)[0] == a[0];
      assert (a + b)[1..] == a[1..] + b;
      assert Slots(a + b) == h + Slots(a[1..] + b);
      SlotsAppend(a[1..], b);
      assert h + (Slots(a[1..]) + Slots(b)) == (h + Slots(a[1..])) + Slots(b);
    }
  }

  lemma {:induction false} ConnectivesAppend(a: seq<Token>, b: seq<Token>)
    ensures Connectives(a + b) == Connectives(a) + Connectives(b)
  {
    if a == [] {
      assert a + b == b;
    } else {
      var h := if a[0].IsConnective() then [a[0]] else [];
      assert (a + b)[0] == a[0];
      assert (a + b)[1..] == a[1..] + b;
      assert Connectives(a + b) == h + Connectives(a[1..] + b);
      ConnectivesAppend(a[1..], b);
      assert h + (Connectives(a[1..]) + Connectives(b)) == (h + Connectives(a[1..])) + Connectives(b);
    }
  }

  /** The placeholders, slots and connectives of a concatenation are those of
      its parts, in order. */
  lemma ViewsAppend(a: seq<Token>, b: seq<Token>)
    ensures Placeholders(a + b) == Placeholders(a) + Placeholders(b)
    ensures Slots(a + b) == Slots(a) + Slots(b)
    ensures Connectives(a + b) == Connectives(a) + Connectives(b)
  {
    PlaceholdersAppend(a, b);
    SlotsAppend(a, b);
    ConnectivesAppend(a, b);
  }

  /** The views of a single token. */
  lemma TokenViews(t: Token)
    ensures Placeholders([t]) == (if t.Placeholder? then [t.n] else [])
    ensures Slots([t]) == (if t.Placeholder? then [t.slot] else [])
    ensures Connectives([t]) == (if t.IsConnective() then [t] else [])
  {
    assert [t][1..] == [];
  }

  /** The views of short token lists, token by token. */
  lemma ThreeTokenViews(t: Token, u: Token, v: Token)
    ensures Placeholders([t, u, v]) == Placeholders([t]) + Placeholders([u]) + Placeholders([v])
    ensures Slots([t, u, v]) == Slots([t]) + Slots([u]) + Slots([v])
    ensures Connectives([t, u, v]) == Connectives([t]) + Connectives([u]) + Connectives([v])
    ensures !t.Placeholder? && u.Placeholder? && !v.Placeholder? ==>
      Placeholders([t, u, v]) == [u.n] && Slots([t, u, v]) == [u.slot]
    ensures !t.IsConnective() && !u.IsConnective() && !v.IsConnective() ==>
      Connectives([t, u, v]) == []
  {
    assert [t, u, v] == [t] + [u] + [v];
    ViewsAppend([t] + [u], [v]);
    ViewsAppend([t], [u]);
    TokenViews(t);
    TokenViews(u);
    TokenViews(v);
  }

  lemma FiveTokenViews(t: Token, u: Token, v: Token, w: Token, x: Token)
    ensures Placeholders([t, u, v, w, x])
         == Placeholders([t]) + Placeholders([u]) + Placeholders([v]) + Placeholders([w]) + Placeholders([x])
    ensures Slots([t, u, v, w, x]) == Slots([t]) + Slots([u]) + Slots([v]) + Slots([w]) + Slots([x])
    ensures Connectives([t, u, v, w, x])
         == Connectives([t]) + Connectives([u]) + Connectives([v]) + Connectives([w]) + Connectives([x])
  {
    assert [t, u, v, w, x] == [t, u, v] + [w] + [x];
    ViewsAppend([t, u, v] + [w], [x]);
    ViewsAppend([t, u, v], [w]);
    ThreeTokenViews(t, u, v);
  }

  /** A connective token is counted the same in the whole text and among
      its connectives. */
  lemma {:induction false} ConnectiveCount(sql: seq<Token>, t: Token)
    requires t.IsConnective()
    ensures Count(sql, t) == Count(Connectives(sql), t)
  {
    if sql != [] {
      ConnectiveCount(sql[1..], t);
      var head := if sql[0].IsConnective() then [sql[0]] else [];
      assert Connectives(sql) == head + Connectives(sql[1..]);
      CountAppend(head, Connectives(sql[1..]), t);
    }
  }

  lemma {:induction false} CountAppend(a: seq<Token>, b: seq<Token>, t: Token)
    ensures Count(a + b, t) == Count(a, t) + Count(b, t)
  {
    if a == [] {
      assert a + b == b;
    } else {
      assert (a + b)[0] == a[0];
      assert (a + b)[1..] == a[1..] + b;
      CountAppend(a[1..], b, t);
    }
  }

  /** In a numbered query the placeholder found at token position `j` is
      `$n` where `n - 1` placeholders precede it: it refers to parameter `n`,
      and its slot is the n-th slot of the text. */
  lemma PlaceholderRefersToPosition(q: Query, j: nat)
    requires Numbered(q)
    requires j < |q.sql| && q.sql[j].Placeholder?
    ensures 1 <= q.sql[j].n <= |q.params|
    ensures q.sql[j].n == |Placeholders(q.sql[..j])| + 1
    ensures |Slots(q.sql)| == |q.params|
    ensures Slots(q.sql)[q.sql[j].n - 1] == q.sql[j].slot
  {
    var before, rest := q.sql[..j], q.sql[j..];
    assert q.sql == before + rest;
    ViewsAppend(before, rest);
    assert rest == [rest[0]] + rest[1..];
    ViewsAppend([rest[0]], rest[1..]);
    var k := |Placeholders(before)|;
    SlotsLength(before);
    SlotsLength(rest);
    SlotsLength(q.sql);
    assert Placeholders(q.sql)[k] == q.sql[j].n;
    assert Slots(q.sql)[k] == q.sql[j].slot;
  }
}
