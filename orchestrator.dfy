/** The `__main__` loop of main.py: stamp the cache with today's date, then
    for every ticker of the universe that is not on the denylist look its
    series up through the cache and decide on it. */
module Orchestrator {
  import opened Wrappers
  import opened Cache
  import opened Strategy

  /** The loop skips symbols that start with BRK or BF (the multi-class
      share symbols BRK.B and BF.B). */
  predicate Tradable(ticker: string)
  {
    !("BRK" <= ticker) && !("BF" <= ticker)
  }

  /** The tickers the loop processes, in universe order. */
  function TradableTickers(tickers: seq<string>): (r: seq<string>)
    ensures |r| <= |tickers|
  {
    if tickers == [] then []
    else
      var last := tickers[|tickers| - 1];
      TradableTickers(tickers[..|tickers| - 1]) + if Tradable(last) then [last] else []
  }

  /** A ticker is processed exactly when it is in the universe and is not
      on the denylist. */
  lemma {:induction false} TradableTickersMembers(tickers: seq<string>)
    ensures forall t :: t in TradableTickers(tickers) <==> t in tickers && Tradable(t)
  {
    if tickers != [] {
      var front := tickers[..|tickers| - 1];
      TradableTickersMembers(front);
      assert tickers == front + [tickers[|tickers| - 1]];
    }
  }

  /** Extending a universe by one symbol extends its tradable part by that
      symbol exactly when it is tradable. */
  lemma TradableTickersStep(u: seq<string>, k: nat)
    requires k < |u|
    ensures TradableTickers(u[..k + 1]) == TradableTickers(u[..k]) + if Tradable(u[k]) then [u[k]] else []
  {
    assert u[..k + 1][..k] == u[..k];
  }

  /** Exactly the BRK and BF symbols are dropped, and the rest keep their order. */
  lemma DenylistExample()
    ensures TradableTickers(["AAPL", "BRK.B", "BF.B", "MSFT", "BR"]) == ["AAPL", "MSFT", "BR"]
  {
    var u := ["AAPL", "BRK.B", "BF.B", "MSFT", "BR"];
    assert Tradable(u[0]) by { assert u[0][0] == 'A'; }
    assert !Tradable(u[1]) by { assert "BRK" <= u[1]; }
    assert !Tradable(u[2]) by { assert "BF" <= u[2]; }
    assert Tradable(u[3]) by { assert u[3][0] == 'M'; }
    assert Tradable(u[4]) by { assert u[4][1] == 'R' && |u[4]| == 2; }
    assert u[..0] == [];
    TradableTickersStep(u, 0);
    TradableTickersStep(u, 1);
    TradableTickersStep(u, 2);
    TradableTickersStep(u, 3);
    TradableTickersStep(u, 4);
    assert u[..5] == u;
  }

  /** The decision taken for one processed ticker. */
  datatype Outcome = Outcome(ticker: string, decision: Decision)

  /** The outcomes of one run over `tickers` against the day's cache `c`:
      one per tradable ticker, in order, each the strategy's decision on the
      series a lookup of that ticker serves. */
  function Plan(c: CacheState, tickers: seq<string>, download: string -> Series,
                gateway: string -> Broker, now: int): (r: seq<Outcome>)
    requires forall t :: PricedSeries(Served(c, t, download))
    ensures |r| == |TradableTickers(tickers)|
  {
    if tickers == [] then []
    else
      var last := tickers[|tickers| - 1];
      Plan(c, tickers[..|tickers| - 1], download, gateway, now)
      + if Tradable(last) then [Outcome(last, Evaluate(Served(c, last, download), gateway(last), now))] else []
  }

  /** The cache after a run's loop over `tickers` starting from `c`: every
      tradable ticker looked up once, in order. */
  function FillAll(c: CacheState, tickers: seq<string>, download: string -> Series): (r: CacheState)
    ensures r.date == c.date
    ensures forall t :: Served(r, t, download) == Served(c, t, download)
  {
    if tickers == [] then c
    else
      var front := FillAll(c, tickers[..|tickers| - 1], download);
      var last := tickers[|tickers| - 1];
      AfterLookupKeeps(front, last, download);
      if Tradable(last) then AfterLookup(front, last, download) else front
  }

  /** After the loop the cache holds exactly: every entry it started with
      that was a hit or is not tradable, unchanged; and for every tradable
      ticker that was not a hit, a slot holding its download. */
  lemma {:induction false} FillAllContents(c: CacheState, tickers: seq<string>, download: string -> Series)
    ensures var r := FillAll(c, tickers, download);
            && r.entries.Keys == c.entries.Keys + (set t | t in TradableTickers(tickers))
            && (forall t :: t in TradableTickers(tickers) ==> Hit(r, t))
            && (forall t :: t in c.entries && (Hit(c, t) || t !in TradableTickers(tickers)) ==> r.entries[t] == c.entries[t])
            && (forall t :: t in TradableTickers(tickers) && !Hit(c, t) ==> r.entries[t] == Entry(Some(download(t))))
  {
    if tickers != [] {
      var front := tickers[..|tickers| - 1];
      var last := tickers[|tickers| - 1];
      FillAllContents(c, front, download);
      var f := FillAll(c, front, download);
      AfterLookupKeeps(f, last, download);
      var r := FillAll(c, tickers, download);
      forall t | t in TradableTickers(tickers) && !Hit(c, t)
        ensures r.entries[t] == Entry(Some(download(t)))
      {
        assert Served(r, t, download) == download(t);
      }
    }
  }

  /** The tickers the loop over `tickers` downloads, in order, starting
      from the cache `c`: each tradable ticker that the cache does not yet
      serve when the loop reaches it. They are exactly the tickers that were
      not hits before the loop and are hits after it, each listed once. */
  ghost function NewDownloads(c: CacheState, tickers: seq<string>, download: string -> Series): (r: seq<string>)
    ensures forall t :: t in r ==> t in tickers && Tradable(t)
    ensures forall t :: t in r <==> !Hit(c, t) && Hit(FillAll(c, tickers, download), t)
    ensures forall i, j :: 0 <= i < j < |r| ==> r[i] != r[j]
  {
    if tickers == [] then []
    else
      var front := tickers[..|tickers| - 1];
      var last := tickers[|tickers| - 1];
      var f := FillAll(c, front, download);
      FillAllContents(c, front, download);
      AfterLookupKeeps(f, last, download);
      assert FillAll(c, tickers, download) == if Tradable(last) then AfterLookup(f, last, download) else f;
      NewDownloads(c, front, download) + if Tradable(last) && !Hit(f, last) then [last] else []
  }

  /** Outcome k of a run is for the k-th tradable ticker, and it is the
      strategy's decision on the series the cache serves for that ticker. */
  lemma {:induction false} PlanAt(c: CacheState, tickers: seq<string>, download: string -> Series,
                                  gateway: string -> Broker, now: int, k: nat)
    requires forall t :: PricedSeries(Served(c, t, download))
    requires k < |TradableTickers(tickers)|
    ensures Plan(c, tickers, download, gateway, now)[k].ticker == TradableTickers(tickers)[k]
    ensures Plan(c, tickers, download, gateway, now)[k].decision
            == Evaluate(Served(c, TradableTickers(tickers)[k], download), gateway(TradableTickers(tickers)[k]), now)
  {
    var front := tickers[..|tickers| - 1];
    if k < |TradableTickers(front)| {
      PlanAt(c, front, download, gateway, now, k);
    }
  }

  /** Processing one more ticker extends the tradable prefix and its plan
      by that ticker when it is tradable, and leaves both alone otherwise. */
  lemma PrefixStep(c: CacheState, tickers: seq<string>, i: nat, download: string -> Series,
                   gateway: string -> Broker, now: int)
    requires i < |tickers|
    requires forall t :: PricedSeries(Served(c, t, download))
    ensures FillAll(c, tickers[..i + 1], download) ==
              if Tradable(tickers[i]) then AfterLookup(FillAll(c, tickers[..i], download), tickers[i], download)
              else FillAll(c, tickers[..i], download)
    ensures Plan(c, tickers[..i + 1], download, gateway, now) ==
              Plan(c, tickers[..i], download, gateway, now)
              + if Tradable(tickers[i])
                then [Outcome(tickers[i], Evaluate(Served(c, tickers[i], download), gateway(tickers[i]), now))]
                else []
  {
    assert tickers[..i + 1][..i] == tickers[..i];
  }

  /** Processing one more ticker appends it to the loop's downloads exactly
      when it is tradable and the cache does not serve it yet. */
  lemma NewDownloadsStep(c: CacheState, tickers: seq<string>, i: nat, download: string -> Series,
                         log: seq<string>)
    requires i < |tickers|
    ensures log + NewDownloads(c, tickers[..i + 1], download) ==
              log + NewDownloads(c, tickers[..i], download)
              + if Tradable(tickers[i]) && !Hit(FillAll(c, tickers[..i], download), tickers[i]) then [tickers[i]] else []
  {
    assert tickers[..i + 1][..i] == tickers[..i];
  }

  /** One iteration of the loop for a tradable ticker: look its series up
      through the cache, then decide on it. */
  method ProcessTicker(store: Store, ticker: string, download: string -> Series,
                       gateway: string -> Broker, now: int) returns (decision: Decision)
    requires store.Valid()
    requires forall t :: PricedSeries(Served(store.State(), t, download))
    modifies store
    ensures store.Valid() && store.date == old(store.date)
    ensures decision == Evaluate(Served(old(store.State()), ticker, download), gateway(ticker), now)
    ensures store.State() == AfterLookup(old(store.State()), ticker, download)
    ensures forall t :: t in store.downloads ==> t in old(store.downloads) || t == ticker
    ensures store.downloads == old(store.downloads) + if Hit(old(store.State()), ticker) then [] else [ticker]
  {
    var data := store.Fetch(ticker, download);
    decision := Evaluate(data, gateway(ticker), now);
  }

  /** One step of the loop over the universe: the ticker at `i` is looked
      up and decided on when it is tradable and skipped otherwise, so the
      store and the outcomes move from the plan of `tickers[..i]` to the
      plan of `tickers[..i + 1]`. */
  method ProcessStep(store: Store, tickers: seq<string>, i: nat, download: string -> Series,
                     gateway: string -> Broker, now: int, ghost start: CacheState,
                     outcomes: seq<Outcome>) returns (next: seq<Outcome>)
    requires i < |tickers|
    requires store.Valid()
    requires forall t :: PricedSeries(Served(start, t, download))
    requires store.State() == FillAll(start, tickers[..i], download)
    requires outcomes == Plan(start, tickers[..i], download, gateway, now)
    modifies store
    ensures store.Valid() && store.date == old(store.date)
    ensures store.State() == FillAll(start, tickers[..i + 1], download)
    ensures next == Plan(start, tickers[..i + 1], download, gateway, now)
    ensures forall t :: t in store.downloads ==> t in old(store.downloads) || (t == tickers[i] && Tradable(t))
    ensures store.downloads == old(store.downloads)
              + if Tradable(tickers[i]) && !Hit(FillAll(start, tickers[..i], download), tickers[i]) then [tickers[i]] else []
  {
    var ticker := tickers[i];
    PrefixStep(start, tickers, i, download, gateway, now);
    next := outcomes;
    if Tradable(ticker) {
      var decision := ProcessTicker(store, ticker, download, gateway, now);
      next := outcomes + [Outcome(ticker, decision)];
    }
  }

  /** The loop over the universe, against a store already stamped for the
      day: every tradable ticker is looked up once, in order, and decided on. */
  method ProcessUniverse(store: Store, tickers: seq<string>, download: string -> Series,
                         gateway: string -> Broker, now: int) returns (outcomes: seq<Outcome>)
    requires store.Valid()
    requires forall t :: PricedSeries(Served(store.State(), t, download))
    modifies store
    ensures store.Valid() && store.date == old(store.date)
    ensures outcomes == Plan(old(store.State()), tickers, download, gateway, now)
    ensures store.State() == FillAll(old(store.State()), tickers, download)
    ensures forall t :: t in store.downloads ==> t in old(store.downloads) || (t in tickers && Tradable(t))
    ensures store.downloads == old(store.downloads) + NewDownloads(old(store.State()), tickers, download)
  {
    ghost var start := store.State();
    ghost var startDownloads := store.downloads;
    outcomes := [];
    var i := 0;
    while i < |tickers|
      invariant 0 <= i <= |tickers|
      invariant store.Valid() && store.date == start.date
      invariant store.State() == FillAll(start, tickers[..i], download)
      invariant outcomes == Plan(start, tickers[..i], download, gateway, now)
      invariant store.downloads == startDownloads + NewDownloads(start, tickers[..i], download)
    {
      outcomes := ProcessStep(store, tickers, i, download, gateway, now, start, outcomes);
      NewDownloadsStep(start, tickers, i, download, startDownloads);
      i := i + 1;
    }
    assert tickers[..|tickers|] == tickers;
    assert forall t :: t in store.downloads ==> t in startDownloads || t in NewDownloads(start, tickers, download);
  }

  /** One run: reset the cache if it is stale, then process the universe.
      The broker reads (balance, last buy, position) are `gateway`, the
      day's data source is `download`, and `now` is the run's clock. */
  method Run(store: Store, tickers: seq<string>, today: string, download: string -> Series,
             gateway: string -> Broker, now: int) returns (outcomes: seq<Outcome>)
    requires store.Valid()
    requires forall t :: PricedSeries(download(t))
    requires forall t :: Hit(store.State(), t) ==> PricedSeries(store.entries[t].data.value)
    modifies store
    ensures store.Valid() && store.date == Some(today)
    ensures outcomes == Plan(ClearIfNeeded(old(store.State()), today), tickers, download, gateway, now)
    ensures store.State() == FillAll(ClearIfNeeded(old(store.State()), today), tickers, download)
    ensures forall t :: t in TradableTickers(tickers) ==> Hit(store.State(), t)
    ensures forall t :: t in store.downloads ==> t in old(store.downloads) || t in TradableTickers(tickers)
    ensures store.downloads == (if old(store.date) == Some(today) then old(store.downloads) else [])
                               + NewDownloads(ClearIfNeeded(old(store.State()), today), tickers, download)
  {
    store.ResetIfStale(today);
    assert forall t :: PricedSeries(Served(store.State(), t, download));
    outcomes := ProcessUniverse(store, tickers, download, gateway, now);
    FillAllContents(ClearIfNeeded(old(store.State()), today), tickers, download);
    TradableTickersMembers(tickers);
  }
}
