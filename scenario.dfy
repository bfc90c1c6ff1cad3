/** The end-to-end request sequences of the API's own test suite, replayed on a fresh
    database through the handlers' contracts. */
module Scenario {
  import opened DbModel
  import opened Validators
  import opened CurrencyBatch
  import opened History
  import opened Crypto

  const Tet := Currency(1, Some("test"), "TET", 1.0, 0.0, 1, false)
  const Foo := Currency(2, Some("foo"), "FOO", 1.2, 0.0, 1, true)
  const Boo := Currency(3, Some("boo"), "BOO", 1.3, 0.0, 1, true)
  const Meh := Currency(3, Some("meh"), "BOO", 1.5, 0.0, 1, true)

  /** The database after each request of the scenario. */
  const Created := Store([Exchange(1, "testexchange")], [Tet], [], 2, 2, 1)
  const Deposited := Created.(currencies := [Tet.(total := 11.9)])
  const Posted2 := Deposited.(currencies := [Tet.(total := 11.9), Foo, Boo], nextCurrencyId := 4)
  const Edited2 := Posted2.(currencies := [Tet.(total := 11.9), Meh])

  const PostFooBoo := [Item(POST, CurrencyFields(None, Some("FOO"), Some("foo"), Some(1.2))),
                       Item(POST, CurrencyFields(None, Some("BOO"), Some("boo"), Some(1.3)))]
  const EditAndDrop := [Item(PUT, CurrencyFields(Some(3), Some("BOO"), Some("meh"), Some(1.5))),
                        Item(DELETE, CurrencyFields(Some(2), None, None, None))]

  /** The test suite's happy path: create an exchange, deposit into it, post two
      crypto-currencies, edit one and delete the other, trade, read the history. */
  method ApiScenario() returns (listed: seq<Currency>, relisted: seq<Currency>, history: seq<Trade>, skipped: seq<Trade>)
    ensures |listed| == 3 && |relisted| == 2
    ensures |history| == 1 && skipped == []
  {
    var sess := new Session();
    CreateStep(sess);
    DepositStep(sess);
    listed := PostStep(sess);
    relisted := EditStep(sess);
    TradeStep(sess);
    OneTradeHistory(sess.committed);
    history := Query(sess.committed, NoFilters);
    skipped := Query(sess.committed, NoFilters.(offset := Some(1)));
  }

  /** `POST /exchanges` with name `testexchange`, shortcut `TET` and currency name `test`. */
  method CreateStep(sess: Session)
    requires sess.Valid() && sess.Idle() && sess.committed == EmptyStore
    modifies sess
    ensures sess.Valid() && sess.Idle() && sess.committed == Created
  {
    ShortcutAcceptedIff("TET");
    assert IsAlpha("testexchange");
    assert IsAlpha("test");
    UpperKeepsCapitals("TET");
    var created := CreateExchange(sess, "testexchange", "TET", Some("test"));
    assert created.Ok?;
  }

  /** `POST /exchanges/1` with amount 11.9. */
  method DepositStep(sess: Session)
    requires sess.Valid() && sess.Idle() && sess.committed == Created
    modifies sess
    ensures sess.Valid() && sess.Idle() && sess.committed == Deposited
  {
    var deposited := Deposit(sess, 1, 11.9);
    assert deposited.Pass?;
  }

  /** The first batch: two POST items. */
  method PostStep(sess: Session) returns (listed: seq<Currency>)
    requires sess.Valid() && sess.Idle() && sess.committed == Deposited
    modifies sess
    ensures sess.Valid() && sess.Idle() && sess.committed == Posted2
    ensures |listed| == 3
  {
    PostFooBooCommits();
    OneOwner(Posted2.currencies, 1);
    var posted := UpdateCurrencies(sess, 1, PostFooBoo);
    listed := posted.value;
  }

  /** The second batch: PUT on currency 3, DELETE of currency 2. */
  method EditStep(sess: Session) returns (relisted: seq<Currency>)
    requires sess.Valid() && sess.Idle() && sess.committed == Posted2
    modifies sess
    ensures sess.Valid() && sess.Idle() && sess.committed == Edited2
    ensures |relisted| == 2
  {
    EditAndDropCommits();
    var edited := UpdateCurrencies(sess, 1, EditAndDrop);
    relisted := edited.value;
    OneOwner(Edited2.currencies, 1);
  }

  /** The PUT renames BOO and changes its rate, the DELETE drops FOO, and the commit passes. */
  lemma EditAndDropCommits()
    ensures Batch(Posted2, 1, EditAndDrop) == Ok(Edited2)
  {
    var cs := Posted2.currencies;
    var f := EditAndDrop[0].currency;
    UpperKeepsCapitals("BOO");
    assert CryptoById(cs, 3, 1) == Some(2) by {
      assert |cs| == 3 && cs[0].id == 1 && cs[1].id == 2 && cs[2] == Boo;
      var r := CryptoById(cs, 3, 1);
      assert r.Some?;
      assert r.value == 2;
    }
    assert Edited(Boo, "BOO", f) == Meh;
    var s1 := Posted2.(currencies := [Tet.(total := 11.9), Foo, Meh]);
    assert f.shortcut == Some("BOO") && f.id == Some(3);
    assert cs[2 := Meh] == s1.currencies;
    assert PutItem(Posted2, 1, f) == Ok(s1);
    assert ApplyItem(Posted2, 1, EditAndDrop[0]) == Ok(s1);
    assert Without(s1.currencies, 2, 1) == Edited2.currencies by {
      var t := s1.currencies;
      assert t[1..] == [Foo, Meh] && t[1..][1..] == [Meh] && [Meh][1..] == [];
    }
    assert ApplyItem(s1, 1, EditAndDrop[1]) == Ok(Edited2);
    ApplyPair(Posted2, 1, EditAndDrop[0], EditAndDrop[1]);
    assert EditAndDrop == [EditAndDrop[0], EditAndDrop[1]];
    assert Posted2.exchanges[0].id == 1;
    assert Consistent(Edited2);
  }

  /** `POST /exchanges/1/trades`: 4.2 from TET to BOO. */
  method TradeStep(sess: Session)
    requires sess.Valid() && sess.Idle() && sess.committed == Edited2
    modifies sess
    ensures sess.Valid() && sess.Idle()
    ensures sess.committed.trades == [Trade(1, 4.2, Tet.id, Meh.id, 1, 0)]
  {
    var cs := Edited2.currencies;
    ShortcutAcceptedIff("TET");
    ShortcutAcceptedIff("BOO");
    UpperKeepsCapitals("TET");
    UpperKeepsCapitals("BOO");
    assert CurrencyByShortcut(cs, "TET", 1) == Some(0);
    assert CurrencyByShortcut(cs, "BOO", 1) == Some(1) by {
      assert cs[0].shortcut == "TET" && cs[1].shortcut == "BOO" && |cs| == 2;
    }
    assert Edited2.exchanges[0].id == 1;
    var traded := ExecuteTrade(sess, 1, 4.2, "TET", "BOO", 0);
    assert traded.Pass?;
  }

  /** When every currency belongs to `eid`, listing `eid`'s currencies lists them all. */
  lemma {:induction false} OneOwner(cs: seq<Currency>, eid: int)
    requires forall i :: 0 <= i < |cs| ==> cs[i].exchangeId == eid
    ensures CurrenciesOf(cs, eid) == cs
  {
    if cs != [] {
      OneOwner(cs[1..], eid);
      assert [cs[0]] + cs[1..] == cs;
    }
  }

  /** A batch of two items is the second applied after the first. */
  lemma ApplyPair(s: Store, eid: int, a: Item, b: Item)
    ensures ApplyItems(s, eid, [a, b]) ==
      match ApplyItem(s, eid, a)
      case Err(e) => Err(e)
      case Ok(t) => ApplyItem(t, eid, b)
  {
    assert [a, b][..1] == [a];
    assert [a][..0] == [];
    assert ApplyItems(s, eid, [a]) == ApplyItem(s, eid, a);
  }

  /** A POST item with a shortcut of three capitals, an alphabetic name and a rate. */
  lemma PostsCapitals(s: Store, eid: int, f: CurrencyFields)
    requires f.shortcut.Some? && |f.shortcut.value| == 3
    requires forall i :: 0 <= i < 3 ==> 'A' <= f.shortcut.value[i] <= 'Z'
    requires f.name.Some? && IsAlpha(f.name.value) && RateGiven(f.actualRate)
    ensures PostItem(s, eid, f) ==
      Ok(Insert(s, CurrencyRow(Currency(0, f.name, f.shortcut.value, f.actualRate.value, 0.0, eid, true))))
  {
    UpperKeepsCapitals(f.shortcut.value);
  }

  /** Both POST items are accepted and the commit passes. */
  lemma PostFooBooCommits()
    ensures Batch(Deposited, 1, PostFooBoo) == Ok(Posted2)
  {
    assert IsAlpha("foo");
    assert IsAlpha("boo");
    var s1 := Deposited.(currencies := [Tet.(total := 11.9), Foo], nextCurrencyId := 3);
    PostsCapitals(Deposited, 1, PostFooBoo[0].currency);
    PostsCapitals(s1, 1, PostFooBoo[1].currency);
    assert PostFooBoo == [PostFooBoo[0], PostFooBoo[1]];
    assert Insert(Deposited, CurrencyRow(Foo.(id := 0))) == s1;
    assert Insert(s1, CurrencyRow(Boo.(id := 0))) == Posted2;
    assert ApplyItem(Deposited, 1, PostFooBoo[0]) == Ok(s1);
    assert ApplyItem(s1, 1, PostFooBoo[1]) == Ok(Posted2);
    ApplyPair(Deposited, 1, PostFooBoo[0], PostFooBoo[1]);
    assert ApplyItems(Deposited, 1, PostFooBoo) == Ok(Posted2);
    assert Deposited.exchanges[0].id == 1;
    assert ExchangeIndex(Deposited.exchanges, 1).Some?;
    assert Consistent(Posted2);
  }

  /** The test suite's failure path: a two-letter shortcut, then a deposit to exchange 33. */
  method FailureScenario() returns (created: Result<ExchangeView>, deposited: Outcome)
    ensures created == Err(ValueError)
    ensures deposited == Fail(BackendError)
  {
    var sess := new Session();
    ShortcutAcceptedIff("TT");
    created := CreateExchange(sess, "testexchange", "TT", Some("test"));
    deposited := Deposit(sess, 33, 11.9);
  }
}
