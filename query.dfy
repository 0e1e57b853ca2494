/** The list queries the routes build: `WHERE 1=1` followed by `AND` clauses, numbered
    placeholders `$1 … $n` with their bound values in `params`, an `ORDER BY … DESC` and an
    optional `LIMIT`. A clause holds only column names and placeholder numbers, so the text of
    a query cannot contain anything the request supplied. */
module Query {
  import opened Wrappers
  import opened SqlText

  datatype Condition<C> =
    /** `AND column = $k` */
    | Equals(column: C, placeholder: nat)
    /** `AND (LOWER(c1) LIKE LOWER($k) OR LOWER(c2) LIKE LOWER($k) …)` */
    | AnyLike(columns: seq<C>, placeholder: nat)
    /** `AND column = true` */
    | IsTrue(column: C)

  datatype Query<C, K> = Query(conditions: seq<Condition<C>>, params: seq<string>, orderBy: K, limit: Option<nat>)

  function Placeholder<C>(c: Condition<C>): Option<nat> {
    match c
    case Equals(_, k) => Some(k)
    case AnyLike(_, k) => Some(k)
    case IsTrue(_) => None
  }

  /** Every `$k` in the query has a bound value `params[k - 1]`. */
  predicate PlaceholdersBound<C, K>(q: Query<C, K>) {
    forall i | 0 <= i < |q.conditions| ::
      Placeholder(q.conditions[i]).Some? ==> 1 <= Placeholder(q.conditions[i]).value <= |q.params|
  }

  /** One clause on one row, as Postgres evaluates it: `text` gives a row's text columns (`None`
      for `NULL`) and `flag` its boolean ones. A comparison with `NULL` never holds, and a
      placeholder with no bound value makes the clause fail. */
  predicate Holds<R, C>(c: Condition<C>, params: seq<string>, row: R, text: (R, C) -> Option<string>, flag: (R, C) -> bool) {
    match c
    case Equals(column, k) =>
      1 <= k <= |params| && text(row, column) == Some(params[k - 1])
    case AnyLike(columns, k) =>
      1 <= k <= |params| &&
      exists i | 0 <= i < |columns| ::
        text(row, columns[i]).Some? && Like(Lower(text(row, columns[i]).value), Lower(params[k - 1]))
    case IsTrue(column) =>
      flag(row, column)
  }

  /** A run of `AND` clauses on one row. */
  predicate AllHold<R, C>(cs: seq<Condition<C>>, params: seq<string>, row: R, text: (R, C) -> Option<string>, flag: (R, C) -> bool) {
    forall i | 0 <= i < |cs| :: Holds(cs[i], params, row, text, flag)
  }

  /** The whole `WHERE` clause on one row. */
  predicate HoldsAll<R, C, K>(q: Query<C, K>, row: R, text: (R, C) -> Option<string>, flag: (R, C) -> bool) {
    AllHold(q.conditions, q.params, row, text, flag)
  }

  lemma AllHoldOne<R, C>(c: Condition<C>, params: seq<string>, row: R, text: (R, C) -> Option<string>, flag: (R, C) -> bool)
    ensures AllHold([c], params, row, text, flag) <==> Holds(c, params, row, text, flag)
  {
    assert [c][0] == c;
  }

  /** Appending clauses conjoins them. */
  lemma AllHoldAppend<R, C>(a: seq<Condition<C>>, b: seq<Condition<C>>, params: seq<string>, row: R,
                            text: (R, C) -> Option<string>, flag: (R, C) -> bool)
    ensures AllHold(a + b, params, row, text, flag) <==>
      AllHold(a, params, row, text, flag) && AllHold(b, params, row, text, flag)
  {
    if AllHold(a, params, row, text, flag) && AllHold(b, params, row, text, flag) {
      forall i | 0 <= i < |a + b|
        ensures Holds((a + b)[i], params, row, text, flag)
      {
        if i >= |a| {
          assert (a + b)[i] == b[i - |a|];
        }
      }
    }
    if AllHold(a + b, params, row, text, flag) {
      forall i | 0 <= i < |b|
        ensures Holds(b[i], params, row, text, flag)
      {
        assert (a + b)[|a| + i] == b[i];
      }
      forall i | 0 <= i < |a|
        ensures Holds(a[i], params, row, text, flag)
      {
        assert (a + b)[i] == a[i];
      }
    }
  }
}
