/** The daily price cache of main.py: a date stamp plus one slot per ticker,
    reset when the stamp is not today's date, filled on a cache miss. */
module Cache {
  import opened Wrappers

  /** The closing prices one download delivered for a ticker, oldest first. */
  type Series = seq<real>

  /** One ticker's slot. `data` is absent until the first download fills it
      (a loaded cache file may hold a slot without it). */
  datatype Entry = Entry(data: Option<Series>)

  /** The cache as a value. The source keeps the date under the key 'date'
      among the ticker keys; here the two are separate fields. */
  datatype CacheState = CacheState(date: Option<string>, entries: map<string, Entry>)

  /** A lookup of `ticker` is served from the cache. */
  predicate Hit(c: CacheState, ticker: string)
  {
    ticker in c.entries && c.entries[ticker].data.Some?
  }

  /** The cache for `today`: the same cache when it is already stamped with
      `today`, otherwise a fresh one holding only the stamp. */
  function ClearIfNeeded(c: CacheState, today: string): (r: CacheState)
    ensures r.date == Some(today)
    ensures c.date == Some(today) ==> r == c
    ensures c.date != Some(today) ==> r.entries == map[]
    ensures forall t :: Hit(r, t) ==> Hit(c, t) && r.entries[t] == c.entries[t]
  {
    if c.date.None? || c.date.value != today then CacheState(Some(today), map[]) else c
  }

  /** Clearing twice for the same day is clearing once. */
  lemma ClearIdempotent(c: CacheState, today: string)
    ensures ClearIfNeeded(ClearIfNeeded(c, today), today) == ClearIfNeeded(c, today)
  {
  }

  /** The cache after a miss on `ticker` stored `fetched` in the ticker's
      `data` slot, creating an empty slot first when the ticker had none. */
  function Filled(c: CacheState, ticker: string, fetched: Series): (r: CacheState)
    ensures r.date == c.date
    ensures r.entries.Keys == c.entries.Keys + {ticker}
    ensures Hit(r, ticker) && r.entries[ticker] == Entry(Some(fetched))
    ensures forall u :: u in c.entries && u != ticker ==> r.entries[u] == c.entries[u]
  {
    c.(entries := c.entries[ticker := Entry(Some(fetched))])
  }

  /** What a lookup of `ticker` returns: the stored series on a hit, the
      download on a miss. */
  function Served(c: CacheState, ticker: string, download: string -> Series): (r: Series)
    ensures Hit(c, ticker) ==> r == c.entries[ticker].data.value
    ensures !Hit(c, ticker) ==> r == download(ticker)
  {
    if Hit(c, ticker) then c.entries[ticker].data.value else download(ticker)
  }

  /** Filling a missed ticker with its download changes what no lookup
      returns, and every ticker that was a hit stays one. */
  lemma FilledKeepsServed(c: CacheState, ticker: string, download: string -> Series, u: string)
    requires !Hit(c, ticker)
    ensures Served(Filled(c, ticker, download(ticker)), u, download) == Served(c, u, download)
    ensures Hit(c, u) ==> Hit(Filled(c, ticker, download(ticker)), u)
  {
  }

  /** The cache after one lookup of `ticker`: unchanged on a hit, `Filled`
      with the download on a miss. */
  function AfterLookup(c: CacheState, ticker: string, download: string -> Series): (r: CacheState)
    ensures r.date == c.date && Hit(r, ticker)
    ensures Served(r, ticker, download) == Served(c, ticker, download)
  {
    if Hit(c, ticker) then c else Filled(c, ticker, download(ticker))
  }

  /** A lookup leaves the looked-up ticker a hit, adds at most that key,
      keeps every earlier hit's entry and every other entry, and changes
      no lookup's result. */
  lemma AfterLookupKeeps(c: CacheState, ticker: string, download: string -> Series)
    ensures var r := AfterLookup(c, ticker, download);
            && r.date == c.date
            && r.entries.Keys == c.entries.Keys + {ticker}
            && Hit(r, ticker)
            && (forall u :: u in c.entries && (u != ticker || Hit(c, u)) ==> r.entries[u] == c.entries[u])
            && (forall u :: Served(r, u, download) == Served(c, u, download))
  {
    if !Hit(c, ticker) {
      forall u ensures Served(AfterLookup(c, ticker, download), u, download) == Served(c, u, download) {
        FilledKeepsServed(c, ticker, download, u);
      }
    }
  }

  /** A second lookup of the same ticker, after the first one's update, is
      a hit that returns what the first returned. */
  lemma SecondLookupHits(c: CacheState, ticker: string, download: string -> Series)
    ensures var c' := if Hit(c, ticker) then c else Filled(c, ticker, download(ticker));
            Hit(c', ticker) && c'.entries[ticker].data.value == Served(c, ticker, download)
  {
  }

  /** The mutable cache that the main loop threads through every lookup. */
  class Store {
    var date: Option<string>
    var entries: map<string, Entry>
    /** The tickers downloaded since the store was loaded or last reset, in order. */
    ghost var downloads: seq<string>

    function State(): CacheState
      reads this
    {
      CacheState(date, entries)
    }

    /** No ticker was downloaded twice, and every downloaded ticker is now
        served from the cache: hence at most one download per ticker per day. */
    ghost predicate Valid()
      reads this
    {
      && (forall i, j :: 0 <= i < j < |downloads| ==> downloads[i] != downloads[j])
      && (forall t :: t in downloads ==> Hit(State(), t))
    }

    /** The store as loaded from the cache file (an empty one when there is none). */
    constructor (loaded: CacheState)
      ensures Valid() && State() == loaded && downloads == []
    {
      date := loaded.date;
      entries := loaded.entries;
      downloads := [];
    }

    /** Rebinds the cache to ClearIfNeeded of itself. */
    method ResetIfStale(today: string)
      requires Valid()
      modifies this
      ensures Valid()
      ensures State() == ClearIfNeeded(old(State()), today)
      ensures downloads == if old(date) == Some(today) then old(downloads) else []
    {
      if date.None? || date.value != today {
        date := Some(today);
        entries := map[];
        downloads := [];
      }
    }

    /** Looks `ticker` up; on a miss downloads it and stores the result in
        the ticker's `data` slot in place. */
    method Fetch(ticker: string, download: string -> Series) returns (data: Series)
      requires Valid()
      modifies this
      ensures Valid()
      ensures data == Served(old(State()), ticker, download)
      ensures State() == AfterLookup(old(State()), ticker, download)
      ensures Hit(old(State()), ticker) ==> State() == old(State()) && downloads == old(downloads)
      ensures !Hit(old(State()), ticker) ==>
                State() == Filled(old(State()), ticker, download(ticker))
                && downloads == old(downloads) + [ticker]
    {
      if ticker in entries && entries[ticker].data.Some? {
        data := entries[ticker].data.value;
        return;
      }
      assert ticker !in downloads;
      data := download(ticker);
      if ticker !in entries {
        entries := entries[ticker := Entry(None)];
      }
      entries := entries[ticker := entries[ticker].(data := Some(data))];
      downloads := downloads + [ticker];
    }
  }
}
