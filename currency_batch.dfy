/** What one item of a currency batch does to the session's pending store, and the
    batch as a whole: the items applied in order, then one commit. */
module CurrencyBatch {
  import opened DbModel
  import opened Validators

  datatype Method = POST | PUT | DELETE

  /** The `currency` object of an item; every field may be missing. */
  datatype CurrencyFields = CurrencyFields(
    id: Option<int>,
    shortcut: Option<string>,
    name: Option<string>,
    actualRate: Option<real>)

  datatype Item = Item(verb: Method, currency: CurrencyFields)

  /** Python truthiness of an optional number: present and not zero. */
  predicate RateGiven(rate: Option<real>)
  {
    rate.Some? && rate.value != 0.0
  }

  predicate IdGiven(id: Option<int>)
  {
    id.Some? && id.value != 0
  }

  /** `Currency.query.filter_by(id=id, exchange_id=eid, crypto=True).first()`. */
  function CryptoById(cs: seq<Currency>, id: int, eid: int): (r: Option<nat>)
    ensures r.Some? ==> r.value < |cs| && cs[r.value].id == id && cs[r.value].exchangeId == eid && cs[r.value].crypto
    ensures r.None? ==> forall j :: 0 <= j < |cs| ==> !(cs[j].id == id && cs[j].exchangeId == eid && cs[j].crypto)
  {
    FirstWhere(cs, (c: Currency) => c.id == id && c.exchangeId == eid && c.crypto)
  }

  /** The crypto-currency a valid POST item creates (its key comes from the store). */
  function Posted(eid: int, f: CurrencyFields): Currency
    requires f.shortcut.Some? && f.actualRate.Some?
  {
    Currency(0, f.name, Upper(f.shortcut.value), f.actualRate.value, 0.0, eid, true)
  }

  /** POST: the checks in the handler's order, then a new crypto-currency is staged.
      `add_object` runs no query, so nothing is flushed here. */
  function PostItem(s: Store, eid: int, f: CurrencyFields): (r: Result<Store>)
    ensures r.Ok? ==>
      && r.value.exchanges == s.exchanges && r.value.trades == s.trades
      && |r.value.currencies| == |s.currencies| + 1
      && r.value.currencies[..|s.currencies|] == s.currencies
  {
    if f.shortcut.None? then Err(AttributeError)
    else if Upper(f.shortcut.value) == "" then Err(BackendError)
    else if !IsShortcut(Upper(f.shortcut.value)) then Err(ValueError)
    else if !NameAccepted(f.name) then Err(ValueError)
    else if !RateGiven(f.actualRate) then Err(BackendError)
    else Ok(Insert(s, CurrencyRow(Posted(eid, f))))
  }

  /** A currency after an edit: each truthy field given overwrites the stored one. */
  function Edited(c: Currency, shortcut: string, f: CurrencyFields): Currency
  {
    c.(name := if Truthy(f.name) then f.name else c.name,
       shortcut := if shortcut != "" then shortcut else c.shortcut,
       actualRate := if RateGiven(f.actualRate) then f.actualRate.value else c.actualRate)
  }

  /** PUT: `.upper()` on the shortcut comes first, then the id, then the lookup, whose
      autoflush writes the staged rows and so raises on a broken unique constraint. */
  function PutItem(s: Store, eid: int, f: CurrencyFields): (r: Result<Store>)
    ensures r.Ok? ==> Consistent(s)
    ensures r.Ok? ==>
      && r.value.exchanges == s.exchanges && r.value.trades == s.trades
      && SameOwners(s.currencies, r.value.currencies)
  {
    if f.shortcut.None? then Err(AttributeError)
    else if !IdGiven(f.id) then Err(BackendError)
    else if !Consistent(s) then Err(IntegrityError)
    else match CryptoById(s.currencies, f.id.value, eid)
      case None => Err(BackendError)
      case Some(k) =>
        Ok(s.(currencies := s.currencies[k := Edited(s.currencies[k], Upper(f.shortcut.value), f)]))
  }

  /** DELETE: the bulk delete autoflushes first, then removes the matching rows; a missing
      id filters on `id IS NULL`, which no row matches. */
  function DeleteItem(s: Store, eid: int, f: CurrencyFields): (r: Result<Store>)
    ensures r.Ok? <==> Consistent(s)
    ensures r.Ok? ==>
      && r.value.exchanges == s.exchanges && r.value.trades == s.trades
      && |r.value.currencies| <= |s.currencies|
  {
    if !Consistent(s) then Err(IntegrityError)
    else if f.id.None? then Ok(s)
    else Ok(s.(currencies := Without(s.currencies, f.id.value, eid)))
  }

  function ApplyItem(s: Store, eid: int, item: Item): (r: Result<Store>)
    ensures r.Ok? ==> r.value.exchanges == s.exchanges && r.value.trades == s.trades
  {
    match item.verb
    case POST => PostItem(s, eid, item.currency)
    case PUT => PutItem(s, eid, item.currency)
    case DELETE => DeleteItem(s, eid, item.currency)
  }

  /** The items applied in order; the first failing item ends the batch. */
  function ApplyItems(s: Store, eid: int, items: seq<Item>): (r: Result<Store>)
    ensures r.Ok? ==> r.value.exchanges == s.exchanges && r.value.trades == s.trades
    decreases |items|
  {
    if items == [] then Ok(s)
    else match ApplyItems(s, eid, items[..|items| - 1])
      case Err(e) => Err(e)
      case Ok(t) => ApplyItem(t, eid, items[|items| - 1])
  }

  /** The whole request on the committed store: the exchange lookup, the items, the commit. */
  function Batch(s: Store, eid: int, items: seq<Item>): (r: Result<Store>)
    ensures ExchangeIndex(s.exchanges, eid).None? ==> r == Err(BackendError)
    ensures r.Ok? ==> Consistent(r.value) && r.value.exchanges == s.exchanges && r.value.trades == s.trades
  {
    if ExchangeIndex(s.exchanges, eid).None? then Err(BackendError)
    else match ApplyItems(s, eid, items)
      case Err(e) => Err(e)
      case Ok(t) => if Consistent(t) then Ok(t) else Err(IntegrityError)
  }

  // ---------------------------------------------------------------------------
  // One item

  /** A POST item succeeds exactly when its shortcut, name and rate pass, and then adds
      one crypto-currency with total 0 under this exchange, and nothing else. */
  lemma PostEffect(s: Store, eid: int, f: CurrencyFields)
    ensures PostItem(s, eid, f).Ok? <==>
      f.shortcut.Some? && ShortcutAccepted(f.shortcut.value) && NameAccepted(f.name) && RateGiven(f.actualRate)
    ensures f.shortcut.None? ==> PostItem(s, eid, f) == Err(AttributeError)
    ensures f.shortcut == Some("") ==> PostItem(s, eid, f) == Err(BackendError)
    ensures f.shortcut.Some? && Upper(f.shortcut.value) != ""
            && (!IsShortcut(Upper(f.shortcut.value)) || !NameAccepted(f.name)) ==>
      PostItem(s, eid, f) == Err(ValueError)
    ensures f.shortcut.Some? && ShortcutAccepted(f.shortcut.value) && NameAccepted(f.name)
            && !RateGiven(f.actualRate) ==>
      PostItem(s, eid, f) == Err(BackendError)
    ensures PostItem(s, eid, f).Ok? ==>
      PostItem(s, eid, f).value == s.(
        currencies := s.currencies + [Currency(s.nextCurrencyId, f.name, Upper(f.shortcut.value),
                                               f.actualRate.value, 0.0, eid, true)],
        nextCurrencyId := s.nextCurrencyId + 1)
  {
    if f.shortcut.Some? && ShortcutAccepted(f.shortcut.value) {
      assert Upper(f.shortcut.value) != "";
    }
  }

  /** A PUT item succeeds exactly when the shortcut key is present, the id is truthy, the
      staged rows pass the autoflush of the lookup and this exchange has a crypto-currency
      with that id; it then overwrites the truthy fields of that one currency and leaves its
      key, owner, total and flag as they were. */
  lemma PutEffect(s: Store, eid: int, f: CurrencyFields)
    ensures PutItem(s, eid, f).Ok? <==>
      && f.shortcut.Some? && IdGiven(f.id) && Consistent(s)
      && exists k :: 0 <= k < |s.currencies| && s.currencies[k].id == f.id.value
                     && s.currencies[k].exchangeId == eid && s.currencies[k].crypto
    ensures f.shortcut.None? ==> PutItem(s, eid, f) == Err(AttributeError)
    ensures f.shortcut.Some? && !IdGiven(f.id) ==> PutItem(s, eid, f) == Err(BackendError)
    ensures f.shortcut.Some? && IdGiven(f.id) && !Consistent(s) ==> PutItem(s, eid, f) == Err(IntegrityError)
    ensures f.shortcut.Some? && IdGiven(f.id) && Consistent(s) && CryptoById(s.currencies, f.id.value, eid).None? ==>
      PutItem(s, eid, f) == Err(BackendError)
    ensures PutItem(s, eid, f).Ok? ==>
      exists k :: 0 <= k < |s.currencies| && s.currencies[k].id == f.id.value
        && s.currencies[k].exchangeId == eid && s.currencies[k].crypto
        && PutItem(s, eid, f).value == s.(currencies := s.currencies[k := Edited(s.currencies[k], Upper(f.shortcut.value), f)])
    ensures PutItem(s, eid, f).Ok? ==> SameOwners(s.currencies, PutItem(s, eid, f).value.currencies)
    ensures PutItem(s, eid, f).Ok? ==> forall i :: 0 <= i < |s.currencies| ==>
      var c, d := s.currencies[i], PutItem(s, eid, f).value.currencies[i];
      d.total == c.total && d.crypto == c.crypto
  {
    if f.shortcut.Some? && IdGiven(f.id) && Consistent(s) {
      var found := CryptoById(s.currencies, f.id.value, eid);
      if found.Some? {
        var k := found.value;
        assert s.currencies[k].id == f.id.value && s.currencies[k].exchangeId == eid && s.currencies[k].crypto;
      }
    }
  }

  /** The settlement currency (crypto flag false) is never changed by a PUT. */
  lemma PutKeepsSettlement(s: Store, eid: int, f: CurrencyFields)
    requires PutItem(s, eid, f).Ok?
    ensures forall i :: 0 <= i < |s.currencies| && !s.currencies[i].crypto ==>
      PutItem(s, eid, f).value.currencies[i] == s.currencies[i]
  {
    var k := CryptoById(s.currencies, f.id.value, eid).value;
    assert s.currencies[k].crypto;
  }

  /** In a well-keyed store every crypto-currency of the exchange can be edited by its id:
      the lookup finds that very currency. */
  lemma PutReachesEveryCrypto(s: Store, eid: int, k: nat, f: CurrencyFields)
    requires Shaped(s) && k < |s.currencies|
    requires s.currencies[k].exchangeId == eid && s.currencies[k].crypto
    requires f.id == Some(s.currencies[k].id) && f.shortcut.Some?
    ensures PutItem(s, eid, f) ==
      if Consistent(s) then Ok(s.(currencies := s.currencies[k := Edited(s.currencies[k], Upper(f.shortcut.value), f)]))
      else Err(IntegrityError)
  {
    var found := CryptoById(s.currencies, f.id.value, eid);
    assert found.Some?;
  }

  /** A DELETE item fails only at its autoflush, when the staged rows break the unique
      constraint. Otherwise it removes every currency of this exchange with that id, whatever
      its crypto flag, keeps all others, and with no match it is a no-op. */
  lemma DeleteEffect(s: Store, eid: int, f: CurrencyFields)
    ensures ApplyItem(s, eid, Item(DELETE, f)).Ok? <==> Consistent(s)
    ensures !Consistent(s) ==> ApplyItem(s, eid, Item(DELETE, f)) == Err(IntegrityError)
    ensures ApplyItem(s, eid, Item(DELETE, f)).Ok? ==>
      var t := ApplyItem(s, eid, Item(DELETE, f)).value;
      && t.exchanges == s.exchanges && t.trades == s.trades
      && forall c :: c in t.currencies <==> c in s.currencies && !(f.id == Some(c.id) && c.exchangeId == eid)
    ensures Consistent(s) && (forall c :: c in s.currencies ==> !(f.id == Some(c.id) && c.exchangeId == eid)) ==>
      ApplyItem(s, eid, Item(DELETE, f)) == Ok(s)
  {
    if f.id.Some? && forall c :: c in s.currencies ==> !(f.id == Some(c.id) && c.exchangeId == eid) {
      WithoutNothing(s.currencies, f.id.value, eid);
    }
  }

  lemma {:induction false} WithoutNothing(cs: seq<Currency>, id: int, eid: int)
    requires forall c :: c in cs ==> !(c.id == id && c.exchangeId == eid)
    ensures Without(cs, id, eid) == cs
  {
    if |cs| > 0 {
      assert cs[0] in cs;
      assert forall c :: c in cs[1..] ==> c in cs;
      WithoutNothing(cs[1..], id, eid);
      assert [cs[0]] + cs[1..] == cs;
    }
  }

  /** Removing rows keeps the keys in ascending order. */
  lemma {:induction false} WithoutKeepsIds(cs: seq<Currency>, id: int, eid: int, next: int)
    requires CurrencyIdsOk(cs, next)
    ensures CurrencyIdsOk(Without(cs, id, eid), next)
  {
    if |cs| > 0 {
      var rest := Without(cs[1..], id, eid);
      WithoutKeepsIds(cs[1..], id, eid, next);
      if !(cs[0].id == id && cs[0].exchangeId == eid) {
        var r := [cs[0]] + rest;
        forall j | 0 < j < |r| ensures cs[0].id < r[j].id {
          assert r[j] in rest;
          var m :| 0 <= m < |cs[1..]| && cs[1..][m] == r[j];
          assert cs[m + 1] == r[j];
        }
      }
    }
  }

  /** Every item keeps the key discipline of the store. */
  lemma ApplyItemKeepsShaped(s: Store, eid: int, item: Item)
    requires Shaped(s) && eid < s.nextExchangeId
    requires ApplyItem(s, eid, item).Ok?
    ensures Shaped(ApplyItem(s, eid, item).value)
  {
    var t := ApplyItem(s, eid, item).value;
    match item.verb
    case POST =>
      InsertKeepsShaped(s, CurrencyRow(Posted(eid, item.currency)));
    case PUT =>
      PutEffect(s, eid, item.currency);
      SameOwnersKeepShaped(s, t.currencies);
    case DELETE =>
      if item.currency.id.Some? {
        var cs := Without(s.currencies, item.currency.id.value, eid);
        WithoutKeepsIds(s.currencies, item.currency.id.value, eid, s.nextCurrencyId);
        forall i | 0 <= i < |cs| ensures cs[i].exchangeId < s.nextExchangeId {
          assert cs[i] in s.currencies;
        }
      }
  }

  // ---------------------------------------------------------------------------
  // The batch

  /** Running a batch in two parts is running it at once: the second part starts from
      where the first stopped, and a failure in the first part is the batch's failure. */
  lemma {:induction false} ApplyItemsConcat(s: Store, eid: int, a: seq<Item>, b: seq<Item>)
    ensures ApplyItems(s, eid, a + b) ==
      match ApplyItems(s, eid, a)
      case Err(e) => Err(e)
      case Ok(t) => ApplyItems(t, eid, b)
    decreases |b|
  {
    if b == [] {
      assert a + b == a;
    } else {
      var b' := b[..|b| - 1];
      assert (a + b)[..|a + b| - 1] == a + b';
      assert (a + b)[|a + b| - 1] == b[|b| - 1];
      ApplyItemsConcat(s, eid, a, b');
    }
  }

  /** Once an item fails, nothing after it is looked at. */
  lemma ApplyItemsStopAtError(s: Store, eid: int, a: seq<Item>, b: seq<Item>)
    requires ApplyItems(s, eid, a).Err?
    ensures ApplyItems(s, eid, a + b) == ApplyItems(s, eid, a)
  {
    ApplyItemsConcat(s, eid, a, b);
  }

  /** The currencies of the exchanges other than `eid` are the same in both tables. */
  ghost predicate OthersKept(a: seq<Currency>, b: seq<Currency>, eid: int)
  {
    && (forall c :: c in a && c.exchangeId != eid ==> c in b)
    && (forall c :: c in b && c.exchangeId != eid ==> c in a)
  }

  /** What a batch keeps: the key discipline, the exchanges, the trades, and the currencies
      of every other exchange. */
  ghost predicate Framed(s: Store, t: Store, eid: int)
  {
    && Shaped(t)
    && t.exchanges == s.exchanges && t.trades == s.trades
    && t.nextExchangeId == s.nextExchangeId && t.nextTradeId == s.nextTradeId
    && OthersKept(s.currencies, t.currencies, eid)
  }

  lemma ApplyItemFrame(s: Store, eid: int, item: Item)
    requires Shaped(s) && eid < s.nextExchangeId
    requires ApplyItem(s, eid, item).Ok?
    ensures Framed(s, ApplyItem(s, eid, item).value, eid)
  {
    var t := ApplyItem(s, eid, item).value;
    ApplyItemKeepsShaped(s, eid, item);
    if item.verb == PUT {
      var k := CryptoById(s.currencies, item.currency.id.value, eid).value;
      forall c | c in s.currencies && c.exchangeId != eid ensures c in t.currencies {
        var i :| 0 <= i < |s.currencies| && s.currencies[i] == c;
        assert t.currencies[i] == c;
      }
      forall c | c in t.currencies && c.exchangeId != eid ensures c in s.currencies {
        var i :| 0 <= i < |t.currencies| && t.currencies[i] == c;
        assert i != k;
      }
    }
  }

  /** A batch keeps the key discipline, touches neither the exchanges nor the trades,
      and leaves every currency of every other exchange where it was. */
  lemma {:induction false} ApplyItemsFrame(s: Store, eid: int, items: seq<Item>)
    requires Shaped(s) && eid < s.nextExchangeId
    requires ApplyItems(s, eid, items).Ok?
    ensures Framed(s, ApplyItems(s, eid, items).value, eid)
    decreases |items|
  {
    if items != [] {
      var init := items[..|items| - 1];
      ApplyItemsFrame(s, eid, init);
      var u := ApplyItems(s, eid, init).value;
      ApplyItemFrame(u, eid, items[|items| - 1]);
    }
  }

  /** A broken unique constraint cannot be repaired later in a batch: a POST only appends
      rows, and a PUT or DELETE flushes, and so fails, before it changes anything. */
  lemma {:induction false} StaysInconsistent(s: Store, eid: int, items: seq<Item>)
    requires !Consistent(s)
    ensures ApplyItems(s, eid, items).Ok? ==> !Consistent(ApplyItems(s, eid, items).value)
    decreases |items|
  {
    if items != [] {
      var init := items[..|items| - 1];
      StaysInconsistent(s, eid, init);
      var prev := ApplyItems(s, eid, init);
      if prev.Ok? {
        var u := prev.value;
        var last := items[|items| - 1];
        var next := ApplyItem(u, eid, last);
        if next.Ok? && last.verb == POST {
          var t := next.value;
          if !NamesUnique(u.exchanges) {
            assert t.exchanges == u.exchanges;
          } else {
            var i, j :| 0 <= i < j < |u.currencies|
              && u.currencies[i].shortcut == u.currencies[j].shortcut
              && u.currencies[i].exchangeId == u.currencies[j].exchangeId;
            assert t.currencies[i] == u.currencies[i] && t.currencies[j] == u.currencies[j];
          }
        }
      }
    }
  }

  /** Posting a shortcut the exchange already has is staged without complaint, but no batch
      that does so commits: a later flush or the commit raises `IntegrityError`, unless an
      earlier check of a later item raises first. */
  lemma DuplicatePostRefused(s: Store, eid: int, f: CurrencyFields, k: nat, rest: seq<Item>)
    requires PostItem(s, eid, f).Ok?
    requires k < |s.currencies| && s.currencies[k].exchangeId == eid
    requires s.currencies[k].shortcut == Upper(f.shortcut.value)
    ensures Batch(s, eid, [Item(POST, f)] + rest).Err?
    ensures ExchangeIndex(s.exchanges, eid).Some? && ApplyItems(s, eid, [Item(POST, f)] + rest).Ok? ==>
      Batch(s, eid, [Item(POST, f)] + rest) == Err(IntegrityError)
  {
    assert [Item(POST, f)][..0] == [];
    var t := PostItem(s, eid, f).value;
    assert t.currencies[k] == s.currencies[k];
    assert t.currencies[|s.currencies|].shortcut == s.currencies[k].shortcut;
    assert t.currencies[|s.currencies|].exchangeId == eid;
    assert !ShortcutsUnique(t.currencies);
    assert ApplyItems(s, eid, [Item(POST, f)]) == Ok(t);
    ApplyItemsConcat(s, eid, [Item(POST, f)], rest);
    StaysInconsistent(t, eid, rest);
  }

  /** A batch on an exchange that does not exist fails, whatever its items. */
  lemma UnknownExchangeFails(s: Store, eid: int, items: seq<Item>)
    requires forall j :: 0 <= j < |s.exchanges| ==> s.exchanges[j].id != eid
    ensures Batch(s, eid, items) == Err(BackendError)
  {
  }

  /** A batch that commits leaves a store whose constraints hold, with the same exchanges and
      trades, and with an exchange's currencies changed only for the exchange it names. */
  lemma BatchCommits(s: Store, eid: int, items: seq<Item>)
    requires Shaped(s) && Batch(s, eid, items).Ok?
    ensures Consistent(Batch(s, eid, items).value) && Framed(s, Batch(s, eid, items).value, eid)
  {
    var k := ExchangeIndex(s.exchanges, eid).value;
    assert s.exchanges[k].id == eid;
    ApplyItemsFrame(s, eid, items);
  }
}
