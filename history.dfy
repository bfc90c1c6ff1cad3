/** The trade history query: the trades that pass every filter given, in key order,
    then `offset` rows skipped and at most `limit` rows kept. */
module History {
  import opened DbModel

  /** The query arguments; a date is already parsed into a timestamp. */
  datatype HistoryQuery = HistoryQuery(
    offset: Option<int>,
    limit: Option<int>,
    exchangeId: Option<int>,
    search: Option<string>,
    dateFrom: Option<int>,
    dateTo: Option<int>)

  const NoFilters := HistoryQuery(None, None, None, None, None, None)

  /** `part` occurs somewhere in `text`. */
  predicate Contains(text: string, part: string)
  {
    exists i :: 0 <= i <= |text| && part <= text[i..]
  }

  /** The keys of the currencies, of any exchange, whose name contains `search`. */
  function NamedIds(cs: seq<Currency>, search: string): set<int>
  {
    set c | c in cs && c.name.Some? && Contains(c.name.value, search) :: c.id
  }

  /** A filter applies only when its argument is truthy. */
  predicate Selected(t: Trade, q: HistoryQuery, cs: seq<Currency>)
  {
    && (q.exchangeId.None? || q.exchangeId.value == 0 || t.exchangeId == q.exchangeId.value)
    && (q.dateFrom.None? || t.date >= q.dateFrom.value)
    && (q.dateTo.None? || t.date <= q.dateTo.value)
    && (q.search.None? || q.search.value == ""
        || t.currencyInId in NamedIds(cs, q.search.value)
        || t.currencyOutId in NamedIds(cs, q.search.value))
  }

  function Filtered(ts: seq<Trade>, q: HistoryQuery, cs: seq<Currency>): (r: seq<Trade>)
    ensures forall t :: t in r <==> t in ts && Selected(t, q, cs)
    ensures |r| <= |ts|
  {
    if ts == [] then []
    else if Selected(ts[0], q, cs) then [ts[0]] + Filtered(ts[1..], q, cs)
    else Filtered(ts[1..], q, cs)
  }

  /** The rows `OFFSET n` skips; a negative offset skips none. */
  function Skipped(n: Option<int>, len: nat): (k: nat)
    ensures k <= len
    ensures n.None? || n.value <= 0 ==> k == 0
    ensures n.Some? && 0 <= n.value <= len ==> k == n.value
    ensures n.Some? && n.value > len ==> k == len
  {
    if n.None? || n.value <= 0 then 0 else if n.value >= len then len else n.value
  }

  /** The rows `LIMIT n` keeps at most; a negative limit keeps all. */
  function Kept(n: Option<int>, len: nat): (k: nat)
    ensures k <= len
    ensures n.None? || n.value < 0 ==> k == len
    ensures n.Some? && 0 <= n.value ==> k == (if n.value < len then n.value else len)
  {
    if n.None? || n.value < 0 || n.value >= len then len else n.value
  }

  function Page<T>(s: seq<T>, offset: Option<int>, limit: Option<int>): seq<T>
  {
    var rest := s[Skipped(offset, |s|)..];
    rest[..Kept(limit, |rest|)]
  }

  /** A page holds only rows of the sequence it is cut from. */
  lemma PageWithin<T>(s: seq<T>, offset: Option<int>, limit: Option<int>)
    ensures |Page(s, offset, limit)| <= |s|
    ensures forall x :: x in Page(s, offset, limit) ==> x in s
  {
    var o := Skipped(offset, |s|);
    var p := Page(s, offset, limit);
    forall x | x in p ensures x in s {
      var k :| 0 <= k < |p| && p[k] == x;
      assert s[o + k] == x;
    }
  }

  /** `HistoryAPI.get` on the committed store: no more rows than the store holds, and each
      one a stored trade that passes every filter given. */
  function Query(s: Store, q: HistoryQuery): (r: seq<Trade>)
    ensures |r| <= |s.trades|
    ensures forall t :: t in r ==> t in s.trades && Selected(t, q, s.currencies)
  {
    PageWithin(Filtered(s.trades, q, s.currencies), q.offset, q.limit);
    Page(Filtered(s.trades, q, s.currencies), q.offset, q.limit)
  }

  /** The answer is a window of the filtered trades: it starts after the skipped rows and
      holds as many as the limit allows. */
  lemma QueryWindow(s: Store, q: HistoryQuery)
    ensures var f := Filtered(s.trades, q, s.currencies);
      var o := Skipped(q.offset, |f|);
      && |Query(s, q)| == Kept(q.limit, |f| - o)
      && forall k :: 0 <= k < |Query(s, q)| ==> Query(s, q)[k] == f[o + k]
  {
  }

  /** Filtering keeps the store's order: it distributes over concatenation. */
  lemma {:induction false} FilteredConcat(a: seq<Trade>, b: seq<Trade>, q: HistoryQuery, cs: seq<Currency>)
    ensures Filtered(a + b, q, cs) == Filtered(a, q, cs) + Filtered(b, q, cs)
  {
    if a != [] {
      assert (a + b)[0] == a[0];
      assert (a + b)[1..] == a[1..] + b;
      FilteredConcat(a[1..], b, q, cs);
      if Selected(a[0], q, cs) {
        assert Filtered(a + b, q, cs) == [a[0]] + (Filtered(a[1..], q, cs) + Filtered(b, q, cs));
        assert Filtered(a, q, cs) == [a[0]] + Filtered(a[1..], q, cs);
      }
    } else {
      assert a + b == b;
    }
  }

  /** Falsy arguments are ignored: with no exchange id (or 0), no search (or an empty one)
      and no dates, every trade is selected. */
  lemma {:induction false} FalsyFiltersSelectAll(ts: seq<Trade>, q: HistoryQuery, cs: seq<Currency>)
    requires q.exchangeId.None? || q.exchangeId == Some(0)
    requires q.search.None? || q.search == Some("")
    requires q.dateFrom.None? && q.dateTo.None?
    ensures Filtered(ts, q, cs) == ts
  {
    if ts != [] {
      FalsyFiltersSelectAll(ts[1..], q, cs);
      assert [ts[0]] + ts[1..] == ts;
    }
  }

  /** The search keeps a trade exactly when its in- or out-currency is a current currency
      whose name contains the text searched for. */
  lemma SearchSelects(t: Trade, q: HistoryQuery, cs: seq<Currency>)
    requires q.search.Some? && q.search.value != ""
    requires q.exchangeId.None? && q.dateFrom.None? && q.dateTo.None?
    ensures Selected(t, q, cs) <==>
      exists c :: c in cs && c.name.Some? && Contains(c.name.value, q.search.value)
                 && (c.id == t.currencyInId || c.id == t.currencyOutId)
  {
    var ids := NamedIds(cs, q.search.value);
    if Selected(t, q, cs) {
      var id := if t.currencyInId in ids then t.currencyInId else t.currencyOutId;
      var c :| c in cs && c.name.Some? && Contains(c.name.value, q.search.value) && c.id == id;
    }
  }

  /** With one trade in the store and no filters, offset 0 returns it and offset 1 nothing. */
  lemma OneTradeHistory(s: Store)
    requires |s.trades| == 1
    ensures Query(s, NoFilters) == s.trades
    ensures Query(s, NoFilters.(offset := Some(0))) == s.trades
    ensures Query(s, NoFilters.(offset := Some(1))) == []
  {
    FalsyFiltersSelectAll(s.trades, NoFilters, s.currencies);
    FalsyFiltersSelectAll(s.trades, NoFilters.(offset := Some(0)), s.currencies);
    FalsyFiltersSelectAll(s.trades, NoFilters.(offset := Some(1)), s.currencies);
  }
}
