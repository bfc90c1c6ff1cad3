/** The rows of the ledger database, the table constraints that guard them, and the
    session through which every request reads, stages and commits its changes. */
module DbModel {

  datatype Option<T> = None | Some(value: T)

  /** The exception classes a request can end with; every one of them becomes status 400. */
  datatype Error =
    | BackendError    // raised by a handler for a broken business rule
    | ValueError      // a field of the wrong shape
    | AttributeError  // `.upper()` called on a field that is missing
    | IndexError      // `exchange.currency[0]` on an exchange without currencies
    | IntegrityError  // a table constraint refused the commit

  datatype Result<T> = Ok(value: T) | Err(error: Error)

  datatype Outcome = Pass | Fail(error: Error)

  /** A trading venue; its currencies and trades are the rows that carry its id. */
  datatype Exchange = Exchange(id: int, name: string)

  /** `crypto` is false only for the settlement currency created with the exchange. */
  datatype Currency = Currency(
    id: int,
    name: Option<string>,
    shortcut: string,
    actualRate: real,
    total: real,
    exchangeId: int,
    crypto: bool)

  /** An entry of the append-only trade ledger; `date` is a timestamp. */
  datatype Trade = Trade(
    id: int,
    amount: real,
    currencyInId: int,
    currencyOutId: int,
    exchangeId: int,
    date: int)

  /** The contents of the three tables, each in primary-key order, and the next key of each. */
  datatype Store = Store(
    exchanges: seq<Exchange>,
    currencies: seq<Currency>,
    trades: seq<Trade>,
    nextExchangeId: int,
    nextCurrencyId: int,
    nextTradeId: int)

  const EmptyStore := Store([], [], [], 1, 1, 1)

  /** An object handed to the session; an exchange brings the currencies of its relationship. */
  datatype Row =
    | ExchangeRow(exchange: Exchange, currency: seq<Currency>)
    | CurrencyRow(c: Currency)
    | TradeRow(trade: Trade)

  // ---------------------------------------------------------------------------
  // Queries: `filter_by(...).first()` returns the first row in key order

  function FirstWhere<T>(s: seq<T>, p: T -> bool): (r: Option<nat>)
    ensures r.Some? ==> r.value < |s| && p(s[r.value])
    ensures r.Some? ==> forall j :: 0 <= j < r.value ==> !p(s[j])
    ensures r.None? ==> forall j :: 0 <= j < |s| ==> !p(s[j])
  {
    if |s| == 0 then None
    else if p(s[0]) then Some(0)
    else match FirstWhere(s[1..], p)
      case None => None
      case Some(k) => Some(k + 1)
  }

  /** `Exchange.query.get(id)`: the position of the exchange with that key. */
  function ExchangeIndex(es: seq<Exchange>, id: int): (r: Option<nat>)
    ensures r.Some? ==> r.value < |es| && es[r.value].id == id
    ensures r.None? ==> forall j :: 0 <= j < |es| ==> es[j].id != id
  {
    FirstWhere(es, (e: Exchange) => e.id == id)
  }

  /** `Exchange.query.filter_by(name=name).first()` finds a row. */
  predicate NameTaken(es: seq<Exchange>, name: string)
  {
    exists i :: 0 <= i < |es| && es[i].name == name
  }

  /** `exchange.currency[0]`: the first currency of the exchange, in key order. */
  function FirstCurrencyOf(cs: seq<Currency>, eid: int): (r: Option<nat>)
    ensures r.Some? ==> r.value < |cs| && cs[r.value].exchangeId == eid
    ensures r.Some? ==> forall j :: 0 <= j < r.value ==> cs[j].exchangeId != eid
    ensures r.None? ==> forall j :: 0 <= j < |cs| ==> cs[j].exchangeId != eid
  {
    FirstWhere(cs, (c: Currency) => c.exchangeId == eid)
  }

  /** `Currency.query.filter_by(exchange_id=eid).all()`: the exchange's currencies in key order. */
  function CurrenciesOf(cs: seq<Currency>, eid: int): (r: seq<Currency>)
    ensures forall c :: c in r <==> c in cs && c.exchangeId == eid
    ensures |r| <= |cs|
  {
    if |cs| == 0 then []
    else if cs[0].exchangeId == eid then [cs[0]] + CurrenciesOf(cs[1..], eid)
    else CurrenciesOf(cs[1..], eid)
  }

  /** `Currency.query.filter_by(id=id, exchange_id=eid).delete()`: every other row, in order. */
  function Without(cs: seq<Currency>, id: int, eid: int): (r: seq<Currency>)
    ensures forall c :: c in r <==> c in cs && !(c.id == id && c.exchangeId == eid)
    ensures |r| <= |cs|
  {
    if |cs| == 0 then []
    else if cs[0].id == id && cs[0].exchangeId == eid then Without(cs[1..], id, eid)
    else [cs[0]] + Without(cs[1..], id, eid)
  }

  // ---------------------------------------------------------------------------
  // Table constraints

  /** `UniqueConstraint('shortcut', 'exchange_id')` on the currency table. */
  predicate ShortcutsUnique(cs: seq<Currency>)
  {
    forall i, j :: 0 <= i < j < |cs| ==>
      cs[i].shortcut != cs[j].shortcut || cs[i].exchangeId != cs[j].exchangeId
  }

  /** `unique=True` on the exchange name. */
  predicate NamesUnique(es: seq<Exchange>)
  {
    forall i, j :: 0 <= i < j < |es| ==> es[i].name != es[j].name
  }

  /** What the database checks when a transaction commits. */
  predicate Consistent(s: Store)
  {
    ShortcutsUnique(s.currencies) && NamesUnique(s.exchanges)
  }

  /** Primary keys: positive, strictly increasing in table order, below the next key. */
  ghost predicate ExchangeIdsOk(es: seq<Exchange>, next: int)
  {
    && (forall i, j :: 0 <= i < j < |es| ==> es[i].id < es[j].id)
    && (forall i :: 0 <= i < |es| ==> 1 <= es[i].id < next)
  }

  ghost predicate CurrencyIdsOk(cs: seq<Currency>, next: int)
  {
    && (forall i, j :: 0 <= i < j < |cs| ==> cs[i].id < cs[j].id)
    && (forall i :: 0 <= i < |cs| ==> 1 <= cs[i].id < next)
  }

  ghost predicate TradeIdsOk(ts: seq<Trade>, next: int)
  {
    && (forall i, j :: 0 <= i < j < |ts| ==> ts[i].id < ts[j].id)
    && (forall i :: 0 <= i < |ts| ==> 1 <= ts[i].id < next)
  }

  /** The key discipline every store keeps, committed or pending: keys come from the
      counters, and a currency names an exchange key that has been handed out. */
  ghost predicate Shaped(s: Store)
  {
    && 1 <= s.nextExchangeId && 1 <= s.nextCurrencyId && 1 <= s.nextTradeId
    && ExchangeIdsOk(s.exchanges, s.nextExchangeId)
    && CurrencyIdsOk(s.currencies, s.nextCurrencyId)
    && TradeIdsOk(s.trades, s.nextTradeId)
    && (forall i :: 0 <= i < |s.currencies| ==> s.currencies[i].exchangeId < s.nextExchangeId)
  }

  /** Two currency tables whose rows agree on key and owner, position by position. */
  predicate SameOwners(a: seq<Currency>, b: seq<Currency>)
  {
    |a| == |b| && forall i :: 0 <= i < |a| ==> a[i].id == b[i].id && a[i].exchangeId == b[i].exchangeId
  }

  /** ... and on the shortcut as well, so that the unique constraint sees no difference. */
  predicate SameKeys(a: seq<Currency>, b: seq<Currency>)
  {
    SameOwners(a, b) && forall i :: 0 <= i < |a| ==> a[i].shortcut == b[i].shortcut
  }

  lemma SameOwnersKeepShaped(s: Store, cs: seq<Currency>)
    requires Shaped(s) && SameOwners(s.currencies, cs)
    ensures Shaped(s.(currencies := cs))
  {
    var t := s.(currencies := cs);
    forall i, j | 0 <= i < j < |cs| ensures cs[i].id < cs[j].id {
      assert s.currencies[i].id < s.currencies[j].id;
    }
    forall i | 0 <= i < |cs| ensures 1 <= cs[i].id < t.nextCurrencyId && cs[i].exchangeId < t.nextExchangeId {
      assert s.currencies[i].id == cs[i].id;
    }
  }

  lemma SameKeysKeepConsistent(s: Store, cs: seq<Currency>)
    requires Consistent(s) && SameKeys(s.currencies, cs)
    ensures Consistent(s.(currencies := cs))
  {
    forall i, j | 0 <= i < j < |cs|
      ensures cs[i].shortcut != cs[j].shortcut || cs[i].exchangeId != cs[j].exchangeId
    {
      assert s.currencies[i].shortcut != s.currencies[j].shortcut
          || s.currencies[i].exchangeId != s.currencies[j].exchangeId;
    }
  }

  // ---------------------------------------------------------------------------
  // Inserting rows

  /** The currencies of a new exchange's relationship, keyed from `firstId` and owned by `eid`. */
  function Nest(cs: seq<Currency>, firstId: int, eid: int): seq<Currency>
  {
    seq(|cs|, i requires 0 <= i < |cs| => cs[i].(id := firstId + i, exchangeId := eid))
  }

  /** The store once `row` is flushed: the database gives every new row the next key,
      whatever key the object carried. The old rows stay in place, the new ones take
      successive keys from each table's counter, and each counter moves past them. */
  function Insert(s: Store, row: Row): (r: Store)
    ensures |s.exchanges| <= |r.exchanges| && r.exchanges[..|s.exchanges|] == s.exchanges
    ensures |s.currencies| <= |r.currencies| && r.currencies[..|s.currencies|] == s.currencies
    ensures |s.trades| <= |r.trades| && r.trades[..|s.trades|] == s.trades
    ensures forall i :: |s.exchanges| <= i < |r.exchanges| ==> r.exchanges[i].id == s.nextExchangeId + (i - |s.exchanges|)
    ensures forall i :: |s.currencies| <= i < |r.currencies| ==> r.currencies[i].id == s.nextCurrencyId + (i - |s.currencies|)
    ensures forall i :: |s.trades| <= i < |r.trades| ==> r.trades[i].id == s.nextTradeId + (i - |s.trades|)
    ensures r.nextExchangeId == s.nextExchangeId + (|r.exchanges| - |s.exchanges|)
    ensures r.nextCurrencyId == s.nextCurrencyId + (|r.currencies| - |s.currencies|)
    ensures r.nextTradeId == s.nextTradeId + (|r.trades| - |s.trades|)
  {
    match row
    case ExchangeRow(e, nested) =>
      s.(exchanges := s.exchanges + [e.(id := s.nextExchangeId)],
         currencies := s.currencies + Nest(nested, s.nextCurrencyId, s.nextExchangeId),
         nextExchangeId := s.nextExchangeId + 1,
         nextCurrencyId := s.nextCurrencyId + |nested|)
    case CurrencyRow(c) =>
      s.(currencies := s.currencies + [c.(id := s.nextCurrencyId)],
         nextCurrencyId := s.nextCurrencyId + 1)
    case TradeRow(t) =>
      s.(trades := s.trades + [t.(id := s.nextTradeId)],
         nextTradeId := s.nextTradeId + 1)
  }

  /** A currency row must belong to an exchange key that has been handed out. */
  predicate Fits(s: Store, row: Row)
  {
    row.CurrencyRow? ==> row.c.exchangeId < s.nextExchangeId
  }

  function Staged(s: Store, instance: Option<Row>): Store
  {
    if instance.Some? then Insert(s, instance.value) else s
  }

  lemma InsertKeepsShaped(s: Store, row: Row)
    requires Shaped(s) && Fits(s, row)
    ensures Shaped(Insert(s, row))
  {
    var t := Insert(s, row);
    match row
    case ExchangeRow(e, nested) =>
      var added := Nest(nested, s.nextCurrencyId, s.nextExchangeId);
      assert t.currencies == s.currencies + added;
      forall i | 0 <= i < |t.currencies|
        ensures 1 <= t.currencies[i].id < t.nextCurrencyId
        ensures t.currencies[i].exchangeId < t.nextExchangeId
        ensures i >= |s.currencies| ==> t.currencies[i].id == s.nextCurrencyId + (i - |s.currencies|)
      {
        if i >= |s.currencies| {
          assert t.currencies[i] == added[i - |s.currencies|];
        }
      }
      forall i, j | 0 <= i < j < |t.currencies| ensures t.currencies[i].id < t.currencies[j].id {
        if j < |s.currencies| {
          assert t.currencies[i] == s.currencies[i] && t.currencies[j] == s.currencies[j];
        }
      }
    case CurrencyRow(c) =>
    case TradeRow(tr) =>
  }


  // ---------------------------------------------------------------------------
  // `get_or_create` over the currency table

  /** The keyword arguments of `get_or_create(Currency, ...)`: a field is compared only when given. */
  datatype CurrencyFilter = CurrencyFilter(
    name: Option<string>,
    shortcut: Option<string>,
    actualRate: Option<real>,
    total: Option<real>,
    exchangeId: Option<int>,
    crypto: Option<bool>)

  predicate Matches(c: Currency, f: CurrencyFilter)
  {
    && (f.name.None? || c.name == f.name)
    && (f.shortcut.None? || c.shortcut == f.shortcut.value)
    && (f.actualRate.None? || c.actualRate == f.actualRate.value)
    && (f.total.None? || c.total == f.total.value)
    && (f.exchangeId.None? || c.exchangeId == f.exchangeId.value)
    && (f.crypto.None? || c.crypto == f.crypto.value)
  }

  function FirstMatch(cs: seq<Currency>, f: CurrencyFilter): (r: Option<nat>)
    ensures r.Some? ==> r.value < |cs| && Matches(cs[r.value], f)
    ensures r.Some? ==> forall j :: 0 <= j < r.value ==> !Matches(cs[j], f)
    ensures r.None? ==> forall j :: 0 <= j < |cs| ==> !Matches(cs[j], f)
  {
    FirstWhere(cs, (c: Currency) => Matches(c, f))
  }

  /** A row built from `f` alone is one the model stores: every NOT NULL column without a
      default is given, and so is an owning exchange that exists. The last two conditions
      are the model's own: it keeps every currency owned by a known exchange. */
  predicate Creatable(s: Store, f: CurrencyFilter)
  {
    && f.shortcut.Some? && f.actualRate.Some? && f.crypto.Some? && f.exchangeId.Some?
    && ExchangeIndex(s.exchanges, f.exchangeId.value).Some?
  }

  // ---------------------------------------------------------------------------
  // The session

  /** The database (`committed`) and what the current request's session sees of it
      (`pending`): the committed rows plus everything added, changed or deleted since. */
  class Session {
    var committed: Store
    var pending: Store

    ghost predicate Valid()
      reads this
    {
      Shaped(committed) && Consistent(committed) && Shaped(pending)
    }

    /** Between requests: nothing is staged. */
    predicate Idle()
      reads this
    {
      pending == committed
    }

    constructor ()
      ensures Valid() && Idle() && committed == EmptyStore
    {
      committed := EmptyStore;
      pending := EmptyStore;
    }

    /** `add_object`: stage a new row. */
    method AddObject(row: Row)
      requires Valid() && Fits(pending, row)
      modifies this
      ensures Valid() && committed == old(committed)
      ensures pending == Insert(old(pending), row)
    {
      InsertKeepsShaped(pending, row);
      pending := Insert(pending, row);
    }

    /** `db.session.rollback()`, and the session removal that ends a failed request. */
    method Rollback()
      requires Valid()
      modifies this
      ensures Valid() && Idle() && committed == old(committed)
    {
      pending := committed;
    }

    /** Autoflush, which a session query runs before it reads: the staged rows are written
        in the open transaction, so a broken constraint raises here, before the query.
        Nothing is committed either way; after a failure the request ends in a rollback. */
    method Flush() returns (r: Outcome)
      requires Valid()
      ensures r.Pass? <==> Consistent(pending)
      ensures r.Fail? ==> r.error == IntegrityError
    {
      r := if Consistent(pending) then Pass else Fail(IntegrityError);
    }

    /** `save_changes`: stage `instance` if there is one, then commit; a commit the
        constraints refuse is rolled back and its error re-raised. */
    method SaveChanges(instance: Option<Row>) returns (r: Outcome)
      requires Valid()
      requires instance.Some? ==> Fits(pending, instance.value)
      modifies this
      ensures Valid() && Idle()
      ensures r.Pass? <==> Consistent(Staged(old(pending), instance))
      ensures r.Fail? ==> r.error == IntegrityError
      ensures committed == if r.Pass? then Staged(old(pending), instance) else old(committed)
    {
      if instance.Some? {
        AddObject(instance.value);
      }
      if Consistent(pending) {
        committed := pending;
        r := Pass;
      } else {
        pending := committed;
        r := Fail(IntegrityError);
      }
    }

    /** `get_or_create(Currency, **f)`: the first staged row equal on every given field,
        or else a new staged row holding exactly those fields; it never commits. */
    method GetOrCreateCurrency(f: CurrencyFilter) returns (r: Result<Currency>)
      requires Valid()
      modifies this
      ensures Valid() && committed == old(committed)
      ensures !Consistent(old(pending)) ==> pending == old(pending) && r == Err(IntegrityError)
      ensures Consistent(old(pending)) && FirstMatch(old(pending).currencies, f).Some? ==>
        && pending == old(pending)
        && r == Ok(old(pending).currencies[FirstMatch(old(pending).currencies, f).value])
      ensures Consistent(old(pending)) && FirstMatch(old(pending).currencies, f).None? && !Creatable(old(pending), f) ==>
        pending == old(pending) && r == Err(IntegrityError)
      ensures Consistent(old(pending)) && FirstMatch(old(pending).currencies, f).None? && Creatable(old(pending), f) ==>
        && r.Ok? && Matches(r.value, f)
        && r.value.id == old(pending).nextCurrencyId
        && r.value.name == f.name
        && r.value.total == (if f.total.Some? then f.total.value else 0.0)
        && pending == Insert(old(pending), CurrencyRow(r.value))
    {
      var flushed := Flush();
      if flushed.Fail? {
        return Err(flushed.error);
      }
      var found := FirstMatch(pending.currencies, f);
      if found.Some? {
        r := Ok(pending.currencies[found.value]);
      } else if !Creatable(pending, f) {
        r := Err(IntegrityError);
      } else {
        var total := if f.total.Some? then f.total.value else 0.0;
        var c := Currency(pending.nextCurrencyId, f.name, f.shortcut.value, f.actualRate.value,
                          total, f.exchangeId.value, f.crypto.value);
        AddObject(CurrencyRow(c));
        r := Ok(c);
      }
    }
  }
}
