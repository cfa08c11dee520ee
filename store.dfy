// The shape of the queries the components send to the hosted store, with a
// reference reading of what a select returns. The store does the ordering:
// `Run` takes the candidate rows already in the order the query names and
// applies the equality filters and the row limit.

module Store {
  import opened Wrappers
  import opened Types
  import Errors

  /**
   * The error object a store request answers with: a PostgREST error, a plain
   * object (not an `Error` instance) with an optional code and a message.
   */
  datatype StoreError = StoreError(code: Option<string>, message: string)
  {
    /** The value caught when the component throws this error as it is. */
    function AsThrown(): Errors.Thrown
    {
      Errors.MessageObject(message)
    }
  }

  /** `.eq(column, value)` */
  datatype Filter = Eq(column: string, value: string)

  /** `.order("created_at", { ascending })` */
  datatype Direction = Ascending | Descending

  /** `.from(table).select("*")` with its filters, its order on `created_at` and its `.limit(n)`. */
  datatype Query = Select(table: string, filters: seq<Filter>, order: Direction, limit: Option<nat>)

  /** The columns of a row that filters can name. */
  type Row = map<string, string>

  /** Every filter names a column of the row and matches its value. */
  predicate Satisfies(row: Row, filters: seq<Filter>)
  {
    forall i :: 0 <= i < |filters| ==> filters[i].column in row && row[filters[i].column] == filters[i].value
  }

  function OwnedRow(id: string, userId: string): Row
  {
    map["id" := id, "user_id" := userId]
  }

  function MoodRow(e: MoodEntry): Row { OwnedRow(e.id, e.user_id) }
  function JournalRow(e: JournalEntry): Row { OwnedRow(e.id, e.user_id) }
  function ChatRow(m: ChatMessage): Row { OwnedRow(m.id, m.user_id) }
  function RecommendationRow(r: MusicRecommendation): Row { OwnedRow(r.id, r.user_id) }

  /** The rows that pass the filters, in their original order. */
  function Where<T(!new)>(rows: seq<T>, view: T -> Row, filters: seq<Filter>): (r: seq<T>)
    ensures |r| <= |rows|
    ensures forall x :: x in r <==> x in rows && Satisfies(view(x), filters)
  {
    if rows == [] then []
    else if Satisfies(view(rows[0]), filters) then [rows[0]] + Where(rows[1..], view, filters)
    else Where(rows[1..], view, filters)
  }

  function Take<T>(rows: seq<T>, limit: Option<nat>): (r: seq<T>)
  {
    if limit.Some? && limit.value < |rows| then rows[..limit.value] else rows
  }

  /** What a select returns, given the table's rows in the query's order. */
  function Run<T(!new)>(q: Query, rows: seq<T>, view: T -> Row): (r: seq<T>)
    ensures forall x :: x in r ==> x in rows && Satisfies(view(x), q.filters)
    ensures q.limit.Some? ==> |r| <= q.limit.value
    ensures r <= Where(rows, view, q.filters)
    // every matching row, up to the limit
    ensures |r| == (if q.limit.Some? && q.limit.value < |Where(rows, view, q.filters)|
                    then q.limit.value else |Where(rows, view, q.filters)|)
  {
    Take(Where(rows, view, q.filters), q.limit)
  }

  /** Keys in the order a direction names. */
  predicate InOrder(a: int, b: int, d: Direction)
  {
    if d == Ascending then a <= b else a >= b
  }

  predicate SortedBy<T>(rows: seq<T>, key: T -> int, d: Direction)
  {
    forall i, j :: 0 <= i < j < |rows| ==> InOrder(key(rows[i]), key(rows[j]), d)
  }

  /** Filtering keeps the rows in the order the store delivered them. */
  lemma {:induction false} WhereKeepsOrder<T(!new)>(rows: seq<T>, view: T -> Row, filters: seq<Filter>, key: T -> int, d: Direction)
    requires SortedBy(rows, key, d)
    ensures SortedBy(Where(rows, view, filters), key, d)
  {
    if rows != [] {
      var rest := Where(rows[1..], view, filters);
      WhereKeepsOrder(rows[1..], view, filters, key, d);
      if Satisfies(view(rows[0]), filters) {
        var r := [rows[0]] + rest;
        forall i, j | 0 <= i < j < |r| ensures InOrder(key(r[i]), key(r[j]), d) {
          if i == 0 {
            assert r[j] in rest;
            var k :| 0 <= k < |rows[1..]| && rows[1..][k] == r[j];
            assert rows[k + 1] == r[j];
          } else {
            assert r[i] == rest[i - 1] && r[j] == rest[j - 1];
          }
        }
      }
    }
  }

  /** A select returns rows in the order the store delivered them. */
  lemma RunKeepsOrder<T(!new)>(q: Query, rows: seq<T>, view: T -> Row, key: T -> int)
    requires SortedBy(rows, key, q.order)
    ensures SortedBy(Run(q, rows, view), key, q.order)
  {
    WhereKeepsOrder(rows, view, q.filters, key, q.order);
  }

  /** A filter on `user_id` selects exactly the rows that user owns. */
  lemma OwnerFilter(id: string, owner: string, userId: string)
    ensures Satisfies(OwnedRow(id, owner), [Eq("user_id", userId)]) <==> owner == userId
  {
    assert [Eq("user_id", userId)][0] == Eq("user_id", userId);
  }

  /** A filter on `id` and `user_id` selects exactly that row, and only if the user owns it. */
  lemma IdAndOwnerFilter(id: string, owner: string, wantedId: string, userId: string)
    ensures Satisfies(OwnedRow(id, owner), [Eq("id", wantedId), Eq("user_id", userId)])
        <==> id == wantedId && owner == userId
  {
    var fs := [Eq("id", wantedId), Eq("user_id", userId)];
    assert fs[0] == Eq("id", wantedId) && fs[1] == Eq("user_id", userId);
  }
}
