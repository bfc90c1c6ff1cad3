/** The request handlers of the exchange API. Each one runs on a session that has nothing
    staged, and leaves it with nothing staged: either everything it did is committed, or
    the database is as it was before the request. */
module Crypto {
  import opened DbModel
  import opened Validators
  import opened CurrencyBatch

  /** The body returned for a new exchange: the exchange and its nested currency list. */
  datatype ExchangeView = ExchangeView(exchange: Exchange, currency: seq<Currency>)

  /** `Currency.query.filter_by(shortcut=shortcut, exchange_id=eid).first()`. */
  function CurrencyByShortcut(cs: seq<Currency>, shortcut: string, eid: int): (r: Option<nat>)
    ensures r.Some? ==> r.value < |cs| && cs[r.value].shortcut == shortcut && cs[r.value].exchangeId == eid
    ensures r.None? ==> forall j :: 0 <= j < |cs| ==> !(cs[j].shortcut == shortcut && cs[j].exchangeId == eid)
  {
    FirstWhere(cs, (c: Currency) => c.shortcut == shortcut && c.exchangeId == eid)
  }

  // ---------------------------------------------------------------------------
  // Creating an exchange

  /** A new exchange with its settlement currency keeps every constraint, provided its name
      is free; the settlement currency is the first currency of the new exchange. */
  lemma CreatedExchange(s: Store, name: string, c: Currency)
    requires Shaped(s) && Consistent(s) && !NameTaken(s.exchanges, name)
    ensures var e := Exchange(s.nextExchangeId, name);
      var c' := c.(id := s.nextCurrencyId, exchangeId := e.id);
      var t := Insert(s, ExchangeRow(Exchange(0, name), [c]));
      && t == s.(exchanges := s.exchanges + [e], currencies := s.currencies + [c'],
                 nextExchangeId := e.id + 1, nextCurrencyId := c'.id + 1)
      && Consistent(t)
      && FirstCurrencyOf(t.currencies, e.id) == Some(|s.currencies|)
  {
    var e := Exchange(s.nextExchangeId, name);
    var c' := c.(id := s.nextCurrencyId, exchangeId := e.id);
    var nested := Nest([c], s.nextCurrencyId, s.nextExchangeId);
    assert nested[0] == c';
    assert nested == [c'];
    var t := Insert(s, ExchangeRow(Exchange(0, name), [c]));
    var cs := t.currencies;
    forall i, j | 0 <= i < j < |cs| ensures cs[i].shortcut != cs[j].shortcut || cs[i].exchangeId != cs[j].exchangeId {
      if j == |s.currencies| {
        assert cs[i].exchangeId < e.id;
      } else {
        assert cs[i] == s.currencies[i] && cs[j] == s.currencies[j];
      }
    }
    var es := t.exchanges;
    forall i, j | 0 <= i < j < |es| ensures es[i].name != es[j].name {
      if j == |s.exchanges| {
        assert es[i] == s.exchanges[i];
      } else {
        assert es[i] == s.exchanges[i] && es[j] == s.exchanges[j];
      }
    }
    var first := FirstCurrencyOf(cs, e.id);
    assert cs[|s.currencies|].exchangeId == e.id;
    assert first.Some?;
    assert forall j :: 0 <= j < |s.currencies| ==> cs[j].exchangeId < e.id;
  }

  /** `CryptoExchange.post`: validate, refuse a taken name, then create the exchange with its
      settlement currency (rate 1, total 0, not crypto) in one commit. */
  method CreateExchange(sess: Session, name: string, currencyShortcut: string, currencyName: Option<string>)
    returns (r: Result<ExchangeView>)
    requires sess.Valid() && sess.Idle()
    modifies sess
    ensures sess.Valid() && sess.Idle()
    ensures r.Err? <==>
      || !ShortcutAccepted(currencyShortcut) || !IsAlpha(name) || !NameAccepted(currencyName)
      || NameTaken(old(sess.committed).exchanges, name)
    ensures r.Err? ==> sess.committed == old(sess.committed)
    ensures r.Err? && ShortcutAccepted(currencyShortcut) && IsAlpha(name) && NameAccepted(currencyName) ==>
      r.error == BackendError
    ensures r.Err? && !(ShortcutAccepted(currencyShortcut) && IsAlpha(name) && NameAccepted(currencyName)) ==>
      r.error == ValueError
    ensures r.Ok? ==>
      var s := old(sess.committed);
      var e := Exchange(s.nextExchangeId, name);
      var c := Currency(s.nextCurrencyId, currencyName, Upper(currencyShortcut), 1.0, 0.0, e.id, false);
      && r.value == ExchangeView(e, [c])
      && sess.committed == s.(exchanges := s.exchanges + [e], currencies := s.currencies + [c],
                              nextExchangeId := e.id + 1, nextCurrencyId := c.id + 1)
      && FirstCurrencyOf(sess.committed.currencies, e.id) == Some(|s.currencies|)
  {
    var shortcut := Upper(currencyShortcut);
    if !IsShortcut(shortcut) {
      return Err(ValueError);
    }
    if !IsAlpha(name) {
      return Err(ValueError);
    }
    if !NameAccepted(currencyName) {
      return Err(ValueError);
    }
    if NameTaken(sess.pending.exchanges, name) {
      return Err(BackendError);
    }
    var eid, cid := sess.pending.nextExchangeId, sess.pending.nextCurrencyId;
    var settlement := Currency(0, currencyName, shortcut, 1.0, 0.0, 0, false);
    CreatedExchange(sess.pending, name, settlement);
    var saved := sess.SaveChanges(Some(ExchangeRow(Exchange(0, name), [settlement])));
    assert saved.Pass?;
    r := Ok(ExchangeView(Exchange(eid, name), [Currency(cid, currencyName, shortcut, 1.0, 0.0, eid, false)]));
  }

  // ---------------------------------------------------------------------------
  // Deposit

  /** `ExchangeDeposit.post`: add `amount`, of any sign, to the total of the exchange's first
      currency; nothing else changes. */
  method Deposit(sess: Session, eid: int, amount: real) returns (r: Outcome)
    requires sess.Valid() && sess.Idle()
    modifies sess
    ensures sess.Valid() && sess.Idle()
    ensures r.Fail? ==> sess.committed == old(sess.committed)
    ensures ExchangeIndex(old(sess.committed).exchanges, eid).None? ==> r == Fail(BackendError)
    ensures ExchangeIndex(old(sess.committed).exchanges, eid).Some? ==>
      r == if FirstCurrencyOf(old(sess.committed).currencies, eid).None? then Fail(IndexError) else Pass
    ensures r.Pass? ==>
      var s := old(sess.committed);
      var k := FirstCurrencyOf(s.currencies, eid).value;
      && sess.committed == s.(currencies := s.currencies[k := s.currencies[k].(total := s.currencies[k].total + amount)])
      && sess.committed.currencies[k].total == s.currencies[k].total + amount
      && forall j :: 0 <= j < |s.currencies| && j != k ==> sess.committed.currencies[j] == s.currencies[j]
  {
    if ExchangeIndex(sess.pending.exchanges, eid).None? {
      return Fail(BackendError);
    }
    var first := FirstCurrencyOf(sess.pending.currencies, eid);
    if first.None? {
      return Fail(IndexError);
    }
    var k := first.value;
    var c := sess.pending.currencies[k];
    var cs := sess.pending.currencies[k := c.(total := c.total + amount)];
    SameOwnersKeepShaped(sess.pending, cs);
    SameKeysKeepConsistent(sess.pending, cs);
    sess.pending := sess.pending.(currencies := cs);
    r := sess.SaveChanges(None);
  }

  // ---------------------------------------------------------------------------
  // Currency batch

  /** One POST item on the session: the handler's checks, then `add_object`. */
  method StagePost(sess: Session, eid: int, f: CurrencyFields) returns (failed: Outcome)
    requires sess.Valid() && eid < sess.pending.nextExchangeId
    modifies sess
    ensures sess.Valid() && sess.committed == old(sess.committed)
    ensures failed.Pass? <==> PostItem(old(sess.pending), eid, f).Ok?
    ensures failed.Pass? ==> sess.pending == PostItem(old(sess.pending), eid, f).value
    ensures failed.Fail? ==> sess.pending == old(sess.pending) && PostItem(old(sess.pending), eid, f) == Err(failed.error)
  {
    if f.shortcut.None? {
      return Fail(AttributeError);
    }
    var shortcut := Upper(f.shortcut.value);
    if shortcut == "" {
      return Fail(BackendError);
    }
    if !IsShortcut(shortcut) {
      return Fail(ValueError);
    }
    if !NameAccepted(f.name) {
      return Fail(ValueError);
    }
    if !RateGiven(f.actualRate) {
      return Fail(BackendError);
    }
    sess.AddObject(CurrencyRow(Currency(0, f.name, shortcut, f.actualRate.value, 0.0, eid, true)));
    failed := Pass;
  }

  /** One PUT item on the session: find the crypto-currency, overwrite its truthy fields. */
  method StagePut(sess: Session, eid: int, f: CurrencyFields) returns (failed: Outcome)
    requires sess.Valid() && eid < sess.pending.nextExchangeId
    modifies sess
    ensures sess.Valid() && sess.committed == old(sess.committed)
    ensures failed.Pass? <==> PutItem(old(sess.pending), eid, f).Ok?
    ensures failed.Pass? ==> sess.pending == PutItem(old(sess.pending), eid, f).value
    ensures failed.Fail? ==> sess.pending == old(sess.pending) && PutItem(old(sess.pending), eid, f) == Err(failed.error)
  {
    if f.shortcut.None? {
      return Fail(AttributeError);
    }
    var shortcut := Upper(f.shortcut.value);
    if !IdGiven(f.id) {
      return Fail(BackendError);
    }
    var flushed := sess.Flush();
    if flushed.Fail? {
      return flushed;
    }
    var found := CryptoById(sess.pending.currencies, f.id.value, eid);
    if found.None? {
      return Fail(BackendError);
    }
    var k := found.value;
    var c := sess.pending.currencies[k];
    if Truthy(f.name) {
      c := c.(name := f.name);
    }
    if shortcut != "" {
      c := c.(shortcut := shortcut);
    }
    if RateGiven(f.actualRate) {
      c := c.(actualRate := f.actualRate.value);
    }
    ApplyItemKeepsShaped(sess.pending, eid, Item(PUT, f));
    sess.pending := sess.pending.(currencies := sess.pending.currencies[k := c]);
    failed := Pass;
  }

  /** One DELETE item on the session: the bulk delete flushes, then runs at once. */
  method StageDelete(sess: Session, eid: int, f: CurrencyFields) returns (failed: Outcome)
    requires sess.Valid() && eid < sess.pending.nextExchangeId
    modifies sess
    ensures sess.Valid() && sess.committed == old(sess.committed)
    ensures failed.Pass? <==> DeleteItem(old(sess.pending), eid, f).Ok?
    ensures failed.Pass? ==> sess.pending == DeleteItem(old(sess.pending), eid, f).value
    ensures failed.Fail? ==> sess.pending == old(sess.pending) && DeleteItem(old(sess.pending), eid, f) == Err(failed.error)
  {
    failed := sess.Flush();
    if failed.Fail? {
      return;
    }
    if f.id.Some? {
      ApplyItemKeepsShaped(sess.pending, eid, Item(DELETE, f));
      sess.pending := sess.pending.(currencies := Without(sess.pending.currencies, f.id.value, eid));
    }
  }

  /** The loop of `ExchangeCurrencies.put`: the items staged in order until one raises. */
  method StageItems(sess: Session, eid: int, items: seq<Item>) returns (failed: Outcome)
    requires sess.Valid() && eid < sess.pending.nextExchangeId
    modifies sess
    ensures sess.Valid() && sess.committed == old(sess.committed)
    ensures failed.Pass? ==> ApplyItems(old(sess.pending), eid, items) == Ok(sess.pending)
    ensures failed.Fail? ==> ApplyItems(old(sess.pending), eid, items) == Err(failed.error)
  {
    ghost var s := sess.pending;
    var i := 0;
    failed := Pass;
    while i < |items|
      invariant 0 <= i <= |items|
      invariant sess.Valid() && sess.committed == old(sess.committed)
      invariant sess.pending.nextExchangeId == s.nextExchangeId
      invariant ApplyItems(s, eid, items[..i]) == Ok(sess.pending)
      invariant failed == Pass
    {
      var item := items[i];
      assert items[..i + 1][..i] == items[..i];
      assert ApplyItems(s, eid, items[..i + 1]) == ApplyItem(sess.pending, eid, item);
      match item.verb {
        case POST => failed := StagePost(sess, eid, item.currency);
        case PUT => failed := StagePut(sess, eid, item.currency);
        case DELETE => failed := StageDelete(sess, eid, item.currency);
      }
      if failed.Fail? {
        assert items[..i + 1] + items[i + 1..] == items;
        ApplyItemsStopAtError(s, eid, items[..i + 1], items[i + 1..]);
        return;
      }
      i := i + 1;
    }
    assert items[..i] == items;
  }

  /** `ExchangeCurrencies.put`: the items applied in order on the session, one commit at the
      end, and the exchange's currencies (settlement currency included) as the answer. */
  method UpdateCurrencies(sess: Session, eid: int, items: seq<Item>) returns (r: Result<seq<Currency>>)
    requires sess.Valid() && sess.Idle()
    modifies sess
    ensures sess.Valid() && sess.Idle()
    ensures r.Ok? <==> Batch(old(sess.committed), eid, items).Ok?
    ensures r.Err? ==> sess.committed == old(sess.committed) && r.error == Batch(old(sess.committed), eid, items).error
    ensures r.Ok? ==>
      && sess.committed == Batch(old(sess.committed), eid, items).value
      && r.value == CurrenciesOf(sess.committed.currencies, eid)
  {
    if ExchangeIndex(sess.pending.exchanges, eid).None? {
      return Err(BackendError);
    }
    var failed := StageItems(sess, eid, items);
    if failed.Fail? {
      sess.Rollback();
      return Err(failed.error);
    }
    var saved := sess.SaveChanges(None);
    if saved.Fail? {
      return Err(saved.error);
    }
    r := Ok(CurrenciesOf(sess.committed.currencies, eid));
  }

  // ---------------------------------------------------------------------------
  // Trade

  /** Everything `ExchangeTrade.post` checks before it moves any money. */
  predicate TradeAllowed(s: Store, eid: int, amount: real, currencyIn: string, currencyOut: string)
  {
    && ShortcutAccepted(currencyIn) && ShortcutAccepted(currencyOut)
    && Upper(currencyIn) != Upper(currencyOut)
    && ExchangeIndex(s.exchanges, eid).Some?
    && CurrencyByShortcut(s.currencies, Upper(currencyIn), eid).Some?
    && CurrencyByShortcut(s.currencies, Upper(currencyOut), eid).Some?
    && s.currencies[CurrencyByShortcut(s.currencies, Upper(currencyIn), eid).value].total >= amount
  }

  /** The currency table after a trade: `amount` leaves row `i` and its value at both rates
      arrives in row `o`; every other row, and every other column, is as it was. */
  function Transfer(cs: seq<Currency>, i: nat, o: nat, amount: real): (r: seq<Currency>)
    requires i < |cs| && o < |cs| && i != o
    ensures SameKeys(cs, r)
    ensures r[i] == cs[i].(total := cs[i].total - amount)
    ensures r[o] == cs[o].(total := cs[o].total + amount * cs[i].actualRate * cs[o].actualRate)
    ensures forall j :: 0 <= j < |cs| && j != i && j != o ==> r[j] == cs[j]
  {
    cs[i := cs[i].(total := cs[i].total - amount)]
      [o := cs[o].(total := cs[o].total + amount * cs[i].actualRate * cs[o].actualRate)]
  }

  /** `ExchangeTrade.post`: debit `amount` from the in-currency, credit
      `amount * rate_in * rate_out` to the out-currency, and append one trade dated `now`. */
  method ExecuteTrade(sess: Session, eid: int, amount: real, currencyIn: string, currencyOut: string, now: int)
    returns (r: Outcome)
    requires sess.Valid() && sess.Idle()
    modifies sess
    ensures sess.Valid() && sess.Idle()
    ensures r.Pass? <==> TradeAllowed(old(sess.committed), eid, amount, currencyIn, currencyOut)
    ensures r.Fail? ==> sess.committed == old(sess.committed)
    ensures r.Fail? && ShortcutAccepted(currencyIn) && ShortcutAccepted(currencyOut) ==> r.error == BackendError
    ensures r.Fail? && !(ShortcutAccepted(currencyIn) && ShortcutAccepted(currencyOut)) ==> r.error == ValueError
    ensures r.Pass? ==>
      var s := old(sess.committed);
      var i := CurrencyByShortcut(s.currencies, Upper(currencyIn), eid).value;
      var o := CurrencyByShortcut(s.currencies, Upper(currencyOut), eid).value;
      && i != o
      && sess.committed == s.(
           currencies := Transfer(s.currencies, i, o, amount),
           trades := s.trades + [Trade(s.nextTradeId, amount, s.currencies[i].id, s.currencies[o].id, eid, now)],
           nextTradeId := s.nextTradeId + 1)
  {
    var shortcutIn, shortcutOut := Upper(currencyIn), Upper(currencyOut);
    if !IsShortcut(shortcutIn) || !IsShortcut(shortcutOut) {
      return Fail(ValueError);
    }
    if shortcutIn == shortcutOut {
      return Fail(BackendError);
    }
    if ExchangeIndex(sess.pending.exchanges, eid).None? {
      return Fail(BackendError);
    }
    var foundIn := CurrencyByShortcut(sess.pending.currencies, shortcutIn, eid);
    var foundOut := CurrencyByShortcut(sess.pending.currencies, shortcutOut, eid);
    if foundIn.None? || foundOut.None? {
      return Fail(BackendError);
    }
    var i, o := foundIn.value, foundOut.value;
    var cin, cout := sess.pending.currencies[i], sess.pending.currencies[o];
    if cin.total < amount {
      return Fail(BackendError);
    }
    var cs := Transfer(sess.pending.currencies, i, o, amount);
    SameOwnersKeepShaped(sess.pending, cs);
    SameKeysKeepConsistent(sess.pending, cs);
    sess.pending := sess.pending.(currencies := cs);
    r := sess.SaveChanges(Some(TradeRow(Trade(0, amount, cin.id, cout.id, eid, now))));
  }
}
