/** Provider reconciliation with a durable transition log (app/services/proxy_sync_service.py). */
module ProxySync {
  import opened Common
  import opened Escalation
  import ProxyHealth

  /** The unique key of the proxies table. */
  datatype RowKey = RowKey(provider: string, url: string)

  datatype Raw = Raw(url: string, country: Option<string>, city: Option<string>, kind: ProxyType)

  datatype Row = Row(
    id: nat, poolId: nat, country: Option<string>, city: Option<string>, kind: ProxyType,
    isActive: bool, health: ProxyHealth.Row)

  type Table = map<RowKey, Row>

  datatype Transition = Activated | Deactivated

  datatype Event = Event(key: RowKey, kind: Transition)

  datatype Pool = Pool(id: nat, provider: string)

  datatype Stats = Stats(fetched: nat, inserted: nat, updated: nat, activated: nat, deactivated: nat)

  /** One row per URL; the last occurrence wins. */
  function Normalise(raw: seq<Raw>): (n: map<string, Raw>)
    ensures forall u :: u in n <==> exists i :: 0 <= i < |raw| && raw[i].url == u
    ensures forall u :: u in n ==> n[u].url == u && n[u] in raw
  {
    if raw == [] then map[] else Normalise(raw[..|raw| - 1])[raw[|raw| - 1].url := raw[|raw| - 1]]
  }

  /** A provider that lists a URL twice gets the attributes of the last entry. */
  lemma {:induction false} LastListedWins(raw: seq<Raw>, i: nat)
    requires i < |raw| && forall j :: i < j < |raw| ==> raw[j].url != raw[i].url
    ensures raw[i].url in Normalise(raw) && Normalise(raw)[raw[i].url] == raw[i]
    decreases |raw|
  {
    if i < |raw| - 1 {
      assert raw[|raw| - 1].url != raw[i].url;
      LastListedWins(raw[..|raw| - 1], i);
    }
  }

  function ExistingUrls(t: Table, provider: string): set<string> {
    set k | k in t && k.provider == provider :: k.url
  }

  function ActiveUrls(t: Table, provider: string): set<string> {
    set k | k in t && k.provider == provider && t[k].isActive :: k.url
  }

  function FetchedKeys(provider: string, urls: set<string>): set<RowKey> {
    set u | u in urls :: RowKey(provider, u)
  }

  /**
    A row whose URL was fetched: inserted active with fresh health, or updated without touching identity and health.
   */
  function FetchedRow(t: Table, k: RowKey, raw: Raw, pool: nat, id: nat): Row {
    if k in t then t[k].(poolId := pool, country := raw.country, city := raw.city, kind := raw.kind, isActive := true)
    else Row(id, pool, raw.country, raw.city, raw.kind, true, ProxyHealth.NEW_ROW)
  }

  /** The table after one provider's sync. `ids` generates the primary keys of inserted rows. */
  function TableAfter(t: Table, provider: string, n: map<string, Raw>, pool: nat, ids: string -> nat): Table {
    map k | k in t.Keys + FetchedKeys(provider, n.Keys) ::
      if k.provider != provider then t[k]
      else if k.url in n then FetchedRow(t, k, n[k.url], pool, ids(k.url))
      else t[k].(isActive := false)
  }

  /**
    The upsert and the pool move: inserted rows are active with fresh health; updated rows keep their identity, flag and
    health.
   */
  function Upserted(t: Table, provider: string, n: map<string, Raw>, pool: nat, ids: string -> nat): Table {
    map k | k in t.Keys + FetchedKeys(provider, n.Keys) ::
      if k.provider != provider || k.url !in n then t[k]
      else if k in t then FetchedRow(t, k, n[k.url], pool, ids(k.url)).(isActive := t[k].isActive)
      else FetchedRow(t, k, n[k.url], pool, ids(k.url))
  }

  /** UPDATE ... SET is_active = flag WHERE provider = ... AND url IN urls. */
  function WithFlag(t: Table, provider: string, urls: set<string>, flag: bool): Table {
    map k | k in t :: if k.provider == provider && k.url in urls then t[k].(isActive := flag) else t[k]
  }

  /** The events one sync owes a row: one per change of its flag. */
  function EventsFor(t: Table, provider: string, urls: set<string>, k: RowKey): seq<Transition> {
    if k !in t || k.provider != provider then []
    else if !t[k].isActive && k.url in urls then [Activated]
    else if t[k].isActive && k.url !in urls then [Deactivated]
    else []
  }

  /** The transitions logged for one row, oldest first. */
  function Of(events: seq<Event>, k: RowKey): seq<Transition> {
    if events == [] then []
    else
      var last := events[|events| - 1];
      Of(events[..|events| - 1], k) + (if last.key == k then [last.kind] else [])
  }

  lemma OfAppend(events: seq<Event>, e: Event, k: RowKey)
    ensures Of(events + [e], k) == Of(events, k) + (if e.key == k then [e.kind] else [])
  {
    assert (events + [e])[..|events + [e]| - 1] == events;
  }

  ghost predicate FirstOf(pools: seq<Pool>, provider: string, i: nat)
    requires i < |pools|
  {
    pools[i].provider == provider && forall j :: 0 <= j < i ==> pools[j].provider != provider
  }

  /** The provider's first pool; pools are listed in the order of their creation. */
  function PoolFor(pools: seq<Pool>, provider: string): (found: Option<nat>)
    ensures found.None? <==> forall p :: p in pools ==> p.provider != provider
    ensures forall i :: 0 <= i < |pools| && FirstOf(pools, provider, i) ==> found == Some(pools[i].id)
  {
    if pools == [] then None
    else if pools[0].provider == provider then Some(pools[0].id)
    else
      assert forall i :: 0 < i < |pools| && FirstOf(pools, provider, i) ==> FirstOf(pools[1..], provider, i - 1);
      PoolFor(pools[1..], provider)
  }

  lemma {:induction false} PoolForAppend(pools: seq<Pool>, p: Pool, provider: string)
    ensures PoolFor(pools + [p], provider)
            == if PoolFor(pools, provider).Some? then PoolFor(pools, provider)
               else if p.provider == provider then Some(p.id) else None
  {
    if pools == [] {
      assert pools + [p] == [p];
    } else {
      assert (pools + [p])[1..] == pools[1..] + [p];
      PoolForAppend(pools[1..], p, provider);
    }
  }

  class ProxySyncService {
    var table: Table
    var pools: seq<Pool>
    var events: seq<Event>

    constructor ()
      ensures table == map[] && pools == [] && events == []
    {
      table, pools, events := map[], [], [];
    }

    /** The provider's oldest pool, created when it has none; a provider never gets a second pool. */
    method EnsureProviderPool(provider: string, freshId: nat) returns (pool: nat)
      modifies this`pools
      ensures PoolFor(pools, provider) == Some(pool)
      ensures PoolFor(old(pools), provider).Some? ==> pools == old(pools)
      ensures forall p :: p != provider ==> PoolFor(pools, p) == PoolFor(old(pools), p)
    {
      if PoolFor(pools, provider).Some? { return PoolFor(pools, provider).value; }
      forall p { PoolForAppend(pools, Pool(freshId, provider), p); }
      pools := pools + [Pool(freshId, provider)];
      return freshId;
    }

    /** Appends one event per URL, in some order. */
    method LogTransitions(provider: string, urls: set<string>, kind: Transition)
      modifies this`events
      ensures forall k :: Of(events, k)
                == Of(old(events), k) + (if k.provider == provider && k.url in urls then [kind] else [])
    {
      var todo := urls;
      while todo != {}
        invariant todo <= urls
        invariant forall k :: Of(events, k)
                    == Of(old(events), k) + (if k.provider == provider && k.url in urls - todo then [kind] else [])
        decreases |todo|
      {
        var u :| u in todo;
        ghost var before := events;
        events := events + [Event(RowKey(provider, u), kind)];
        forall k { OfAppend(before, Event(RowKey(provider, u), kind), k); }
        todo := todo - {u};
      }
    }

    method SyncProvider(provider: string, raw: seq<Raw>, freshPool: nat, ids: string -> nat) returns (stats: Stats)
      modifies this
      ensures var n, t := Normalise(raw), old(table);
              && PoolFor(pools, provider).Some?
              && table == TableAfter(t, provider, n, PoolFor(pools, provider).value, ids)
              && (forall k :: Of(events, k) == Of(old(events), k) + EventsFor(t, provider, n.Keys, k))
              && stats == Stats(|n.Keys|, |n.Keys - ExistingUrls(t, provider)|, |n.Keys * ExistingUrls(t, provider)|,
                                |(ExistingUrls(t, provider) - ActiveUrls(t, provider)) * n.Keys|,
                                |ActiveUrls(t, provider) - n.Keys|)
    {
      hide *;
      var normalised := Normalise(raw);
      var fetched := normalised.Keys;
      var pool := EnsureProviderPool(provider, freshPool);
      var existing, active := ExistingUrls(table, provider), ActiveUrls(table, provider);
      ghost var t := table;

      table := Upserted(table, provider, normalised, pool, ids);
      var activated := (existing - active) * fetched;
      table := WithFlag(table, provider, activated, true);
      LogTransitions(provider, activated, Activated);
      var deactivated := active - fetched;
      table := WithFlag(table, provider, deactivated, false);
      assert table == TableAfter(t, provider, normalised, pool, ids) by {
        StatementsMakeTable(t, provider, normalised, pool, ids);
      }
      LogTransitions(provider, deactivated, Deactivated);
      forall k ensures Of(events, k) == Of(old(events), k) + EventsFor(t, provider, fetched, k) {
        EventsOwed(t, provider, fetched, k, Of(old(events), k));
      }
      return Stats(|fetched|, |fetched - existing|, |fetched * existing|, |activated|, |deactivated|);
    }

    /** The sync of one feed, and the pool its rows are in. */
    method SyncFeed(feed: Feed) returns (stats: Stats, ghost pool: nat)
      modifies this
      ensures table == TableOf(old(table), feed, pool)
      ensures stats.fetched == |UrlsOf(feed)|
    {
      hide *;
      stats := SyncProvider(feed.provider, feed.raw, feed.freshPool, feed.ids);
      pool := PoolFor(pools, feed.provider).value;
      FeedMeans(old(table), feed, pool);
    }

    /**
      The sync job over all providers. A provider whose fetch raises ends the job there; the providers before it are
      done and stay done: the active rows of each are those of its last feed. Without a raise that is every provider.
     */
    method Sync(feeds: seq<Feed>) returns (completed: bool, stats: seq<Stats>)
      modifies this
      ensures |stats| <= |feeds| && Settled(table, feeds, |stats|)
      ensures forall i :: 0 <= i < |stats| ==> !feeds[i].raises && stats[i].fetched == |UrlsOf(feeds[i])|
      ensures if completed then |stats| == |feeds| else |stats| < |feeds| && feeds[|stats|].raises
      ensures |stats| == 0 ==> table == old(table) && pools == old(pools) && events == old(events)
    {
      hide *;
      stats := [];
      SettledAtStart(table, feeds);
      for n := 0 to |feeds|
        invariant |stats| == n
        invariant Settled(table, feeds, n)
        invariant forall i :: 0 <= i < n ==> !feeds[i].raises && stats[i].fetched == |UrlsOf(feeds[i])|
        invariant n == 0 ==> table == old(table) && pools == old(pools) && events == old(events)
      {
        if feeds[n].raises { return false, stats; }
        ghost var t := table;
        var one, pool := SyncFeed(feeds[n]);
        SettleOne(t, feeds, n, pool);
        stats := stats + [one];
      }
      return true, stats;
    }
  }

  /** One provider's answer to fetch_proxies, which may raise instead, with the ids its new rows get. */
  datatype Feed = Feed(provider: string, raises: bool, raw: seq<Raw>, freshPool: nat, ids: string -> nat)

  function UrlsOf(f: Feed): set<string> {
    Normalise(f.raw).Keys
  }

  /** The table after one feed. */
  function TableOf(t: Table, f: Feed, pool: nat): Table {
    TableAfter(t, f.provider, Normalise(f.raw), pool, f.ids)
  }

  lemma FeedMeans(t: Table, f: Feed, pool: nat)
    ensures UrlsOf(f) == Normalise(f.raw).Keys
    ensures TableOf(t, f, pool) == TableAfter(t, f.provider, Normalise(f.raw), pool, f.ids)
  {
  }

  /** Feed `i` is the last of its provider among the first `n`. */
  ghost predicate LastOf(feeds: seq<Feed>, n: nat, i: nat)
    requires i < n <= |feeds|
  {
    forall j :: i < j < n ==> feeds[j].provider != feeds[i].provider
  }

  /** The active rows of every provider fed so far are exactly those of its last feed. */
  ghost predicate Settled(t: Table, feeds: seq<Feed>, n: nat)
    requires n <= |feeds|
  {
    forall i :: 0 <= i < n && LastOf(feeds, n, i) ==> ActiveUrls(t, feeds[i].provider) == UrlsOf(feeds[i])
  }

  lemma SettledAtStart(t: Table, feeds: seq<Feed>)
    ensures Settled(t, feeds, 0)
  {
  }

  /** One feed decides its own provider's active rows and nobody else's. */
  lemma FeedDecidesItsProvider(t: Table, f: Feed, pool: nat, other: string)
    ensures ActiveUrls(TableOf(t, f, pool), other) == if other == f.provider then UrlsOf(f) else ActiveUrls(t, other)
  {
    hide TableAfter, ActiveUrls;
    var t', n := TableOf(t, f, pool), Normalise(f.raw);
    forall u
      ensures u in ActiveUrls(t', other) <==> u in if other == f.provider then UrlsOf(f) else ActiveUrls(t, other)
    {
      UrlsMatchRows(t', RowKey(other, u));
      UrlsMatchRows(t, RowKey(other, u));
      SyncReconciles(t, f.provider, n, pool, f.ids, RowKey(other, u));
    }
  }

  lemma SettleOne(t: Table, feeds: seq<Feed>, n: nat, pool: nat)
    requires n < |feeds| && Settled(t, feeds, n)
    ensures Settled(TableOf(t, feeds[n], pool), feeds, n + 1)
  {
    hide TableOf, ActiveUrls, UrlsOf;
    forall i | 0 <= i < n + 1 && LastOf(feeds, n + 1, i)
      ensures ActiveUrls(TableOf(t, feeds[n], pool), feeds[i].provider) == UrlsOf(feeds[i])
    {
      FeedDecidesItsProvider(t, feeds[n], pool, feeds[i].provider);
      if i < n { assert LastOf(feeds, n, i); }
    }
  }

  /** Membership in the URL sets, row by row. */
  lemma UrlsMatchRows(t: Table, k: RowKey)
    ensures k.url in ExistingUrls(t, k.provider) <==> k in t
    ensures k.url in ActiveUrls(t, k.provider) <==> k in t && t[k].isActive
  {
    if k.url in ExistingUrls(t, k.provider) {
      var j :| j in t && j.provider == k.provider && j.url == k.url;
      assert j == k;
    }
    if k.url in ActiveUrls(t, k.provider) {
      var j :| j in t && j.provider == k.provider && t[j].isActive && j.url == k.url;
      assert j == k;
    }
  }

  /** The three statements of one sync leave the table the specification describes. */
  lemma StatementsMakeTable(t: Table, provider: string, n: map<string, Raw>, pool: nat, ids: string -> nat)
    ensures var activated := (ExistingUrls(t, provider) - ActiveUrls(t, provider)) * n.Keys;
            WithFlag(WithFlag(Upserted(t, provider, n, pool, ids), provider, activated, true),
                     provider, ActiveUrls(t, provider) - n.Keys, false)
            == TableAfter(t, provider, n, pool, ids)
  {
    hide ExistingUrls, ActiveUrls, FetchedKeys;
    forall k { UrlsMatchRows(t, k); }
    forall k | k in TableAfter(t, provider, n, pool, ids) && k.provider == provider
      ensures k.url in n || k in t
    {
      KeysOfTableAfter(t, provider, n.Keys, k);
    }
  }

  lemma KeysOfTableAfter(t: Table, provider: string, urls: set<string>, k: RowKey)
    ensures k in t.Keys + FetchedKeys(provider, urls) <==> k in t || (k.provider == provider && k.url in urls)
  {
    if k.provider == provider && k.url in urls { assert k == RowKey(provider, k.url); }
  }

  /** The two event loops log exactly what each row is owed. */
  lemma EventsOwed(t: Table, provider: string, urls: set<string>, k: RowKey, log: seq<Transition>)
    ensures var existing, active := ExistingUrls(t, provider), ActiveUrls(t, provider);
            log + EventsFor(t, provider, urls, k)
            == log
               + (if k.provider == provider && k.url in (existing - active) * urls then [Activated] else [])
               + (if k.provider == provider && k.url in active - urls then [Deactivated] else [])
  {
    UrlsMatchRows(t, k);
  }

  // ---------- one sync ----------

  /**
    After a sync a provider's row is active iff its URL was fetched, fetched rows sit in the provider's pool, and
    nothing else about other providers' rows, identities or health changes.
   */
  lemma SyncReconciles(t: Table, provider: string, n: map<string, Raw>, pool: nat, ids: string -> nat, k: RowKey)
    ensures var t' := TableAfter(t, provider, n, pool, ids);
            && (k in t' <==> k in t || (k.provider == provider && k.url in n))
            && (k in t' && k.provider == provider ==>
                  && (t'[k].isActive <==> k.url in n)
                  && (k.url in n ==> t'[k].poolId == pool && t'[k].country == n[k.url].country
                                     && t'[k].city == n[k.url].city && t'[k].kind == n[k.url].kind))
            && (k !in t && k in t' ==> t'[k].id == ids(k.url) && t'[k].health == ProxyHealth.Row(1.0, 0, None, 0, 0))
            && (k in t ==>
                  && t'[k].id == t[k].id && t'[k].health == t[k].health
                  && (k.provider != provider ==> t'[k] == t[k]))
  {
    KeysOfTableAfter(t, provider, n.Keys, k);
  }

  lemma SetSplit(a: set<string>, b: set<string>)
    ensures |a| == |a * b| + |a - b|
  {
    assert a == a * b + (a - b);
  }

  /** The flow of one sync balances, and what is active afterwards is exactly what was fetched. */
  lemma StatsBalance(t: Table, provider: string, n: map<string, Raw>, pool: nat, ids: string -> nat)
    ensures var existing, active := ExistingUrls(t, provider), ActiveUrls(t, provider);
            && |active| + |n.Keys - existing| + |(existing - active) * n.Keys| - |active - n.Keys| == |n.Keys|
            && |n.Keys - existing| + |n.Keys * existing| == |n.Keys|
            && ActiveUrls(TableAfter(t, provider, n, pool, ids), provider) == n.Keys
  {
    var existing, active, f := ExistingUrls(t, provider), ActiveUrls(t, provider), n.Keys;
    SetSplit(active, f);
    SetSplit(f, existing);
    SetSplit(f * existing, active);
    assert active <= existing by {
      forall u | u in active ensures u in existing { UrlsMatchRows(t, RowKey(provider, u)); }
    }
    assert f * existing * active == active * f;
    assert f * existing - active == (existing - active) * f;
    forall u ensures u in ActiveUrls(TableAfter(t, provider, n, pool, ids), provider) <==> u in f {
      UrlsMatchRows(TableAfter(t, provider, n, pool, ids), RowKey(provider, u));
      SyncReconciles(t, provider, n, pool, ids, RowKey(provider, u));
    }
  }

  /** Repeating the same provider list changes nothing and emits no event. */
  lemma RepeatIsQuiet(
    t: Table, provider: string, n: map<string, Raw>, pool: nat, ids: string -> nat, ids': string -> nat)
    ensures var once := TableAfter(t, provider, n, pool, ids);
            && TableAfter(once, provider, n, pool, ids') == once
            && forall k :: EventsFor(once, provider, n.Keys, k) == []
  {
    var once := TableAfter(t, provider, n, pool, ids);
    forall k
      ensures EventsFor(once, provider, n.Keys, k) == []
      ensures k in once.Keys + FetchedKeys(provider, n.Keys) <==> k in once
    {
      SyncReconciles(t, provider, n, pool, ids, k);
      KeysOfTableAfter(once, provider, n.Keys, k);
      KeysOfTableAfter(t, provider, n.Keys, k);
    }
  }

  // ---------- runs of syncs ----------

  datatype Sync = Sync(provider: string, fetched: map<string, Raw>, pool: nat, ids: string -> nat)

  datatype Store = Store(table: Table, events: seq<Event>)

  /** One sync, with the order of its events left open. */
  ghost predicate SyncStep(s: Store, c: Sync, s': Store) {
    && s'.table == TableAfter(s.table, c.provider, c.fetched, c.pool, c.ids)
    && forall k :: Of(s'.events, k) == Of(s.events, k) + EventsFor(s.table, c.provider, c.fetched.Keys, k)
  }

  ghost predicate IsRun(stores: seq<Store>, syncs: seq<Sync>) {
    && |stores| == |syncs| + 1
    && stores[0] == Store(map[], [])
    && forall i :: 0 <= i < |syncs| ==> SyncStep(stores[i], syncs[i], stores[i + 1])
  }

  /** Rows are inserted active, so a row's log starts with a deactivation and alternates. */
  ghost predicate Alternates(log: seq<Transition>) {
    forall i :: 0 <= i < |log| ==> log[i] == if i % 2 == 0 then Deactivated else Activated
  }

  ghost predicate LogExplains(s: Store, k: RowKey) {
    && Alternates(Of(s.events, k))
    && (k !in s.table ==> Of(s.events, k) == [])
    && (k in s.table ==> (s.table[k].isActive <==> |Of(s.events, k)| % 2 == 0))
  }

  lemma StepKeepsLog(s: Store, c: Sync, s': Store, k: RowKey)
    requires SyncStep(s, c, s') && LogExplains(s, k)
    ensures LogExplains(s', k)
  {
    SyncReconciles(s.table, c.provider, c.fetched, c.pool, c.ids, k);
    var log, log' := Of(s.events, k), Of(s'.events, k);
    assert log' == log + EventsFor(s.table, c.provider, c.fetched.Keys, k);
  }

  /**
    Over any run of syncs of any providers, each row's transitions alternate, starting with a deactivation, and replay
    to its current flag: the row is active iff its log is empty or ends in an activation.
   */
  lemma {:induction false} LogReplaysToFlag(stores: seq<Store>, syncs: seq<Sync>, n: nat, k: RowKey)
    requires IsRun(stores, syncs) && n < |stores|
    ensures LogExplains(stores[n], k)
    ensures var log := Of(stores[n].events, k);
            k in stores[n].table ==> (stores[n].table[k].isActive <==> log == [] || log[|log| - 1] == Activated)
  {
    if n > 0 {
      LogReplaysToFlag(stores, syncs, n - 1, k);
      assert SyncStep(stores[n - 1], syncs[n - 1], stores[n - 1 + 1]);
      StepKeepsLog(stores[n - 1], syncs[n - 1], stores[n], k);
    }
  }
}
