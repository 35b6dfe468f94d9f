/** The browser-side persistence of the storefront: the request history,
    the filter preferences of each category and a small timestamped data
    cache, all kept as JSON text under fixed keys of `localStorage`. The
    store is a map from key to the decoded value; text that does not parse
    as JSON is `Corrupt`. */
module Storage {
  import opened Wrappers
  import Js
  import Filters

  /** A request kept in the local history. */
  datatype Solicitacao = Solicitacao(
    id: string,
    produtoId: string,
    produtoNome: string,
    nomeCliente: string,
    metodoPagamento: string,
    observacoes: string,
    criadoEm: string)

  /** The fields a caller supplies; `id` and `criadoEm` are added. */
  datatype NewSolicitacao = NewSolicitacao(
    produtoId: string,
    produtoNome: string,
    nomeCliente: string,
    metodoPagamento: string,
    observacoes: string)

  /** One cached datum and the millisecond clock at which it was stored. */
  datatype CacheEntry = CacheEntry(data: Js.Value, timestamp: int)

  /** What a key holds, once its JSON text is parsed. */
  datatype Stored =
    | Requests(requests: seq<Solicitacao>)
    | Preferences(prefs: Filters.FilterPreferences)
    | Cache(entries: map<string, CacheEntry>)
    | Corrupt

  /** A read that may throw (a `JSON.parse` error that is not caught). */
  datatype Read<T> = Throws | Got(value: T)

  const SolicitacoesKey: string := "buscaaqui_solicitacoes"
  const FiltersKey: string := "buscaaqui_filters"
  const CachedDataKey: string := "buscaaqui_cached_data"

  /** `getCachedItem`'s default maximum age: one hour in milliseconds. */
  const DefaultMaxAge: int := 3600000

  /** `${FILTERS_KEY}_${categoriaSlug}`. */
  function PrefsKey(slug: string): (k: string)
    ensures |k| == |FiltersKey| + 1 + |slug|
    ensures k[..|FiltersKey| + 1] == FiltersKey + "_" && k[|FiltersKey| + 1..] == slug
  {
    FiltersKey + "_" + slug
  }

  /** Different categories keep their preferences under different keys,
      and no preference key is the history key or the cache key. */
  lemma PrefsKeysDistinct(a: string, b: string)
    ensures a != b ==> PrefsKey(a) != PrefsKey(b)
    ensures PrefsKey(a) != SolicitacoesKey && PrefsKey(a) != CachedDataKey
  {
    assert PrefsKey(a)[10] == 'f';
    assert SolicitacoesKey[10] == 's';
    assert CachedDataKey[10] == 'c';
  }

  /** The cached datum under `key`, if it is no older than `maxAge` at
      `now`: an entry exactly `maxAge` old is still fresh. */
  function CachedItem(entries: map<string, CacheEntry>, key: string, now: int, maxAge: int): (r: Option<Js.Value>)
    ensures r.Some? <==> key in entries && now - entries[key].timestamp <= maxAge
    ensures r.Some? ==> r.value == entries[key].data
  {
    if key !in entries then None
    else if now - entries[key].timestamp > maxAge then None
    else Some(entries[key].data)
  }

  /** A datum just cached is read back at the same instant under any
      non-negative maximum age, and caching one key does not change what
      any other key reads. */
  lemma CacheThenRead(entries: map<string, CacheEntry>, key: string, data: Js.Value, now: int,
                      other: string, at: int, maxAge: int)
    ensures maxAge >= 0 ==> CachedItem(entries[key := CacheEntry(data, now)], key, now, maxAge) == Some(data)
    ensures other != key ==>
              CachedItem(entries[key := CacheEntry(data, now)], other, at, maxAge) == CachedItem(entries, other, at, maxAge)
  {
  }

  /** A cached datum expires for good: once it is too old at some
      instant, it is too old at every later one. */
  lemma CacheExpiryMonotone(entries: map<string, CacheEntry>, key: string, now: int, later: int, maxAge: int)
    requires now <= later
    requires CachedItem(entries, key, now, maxAge).None?
    ensures CachedItem(entries, key, later, maxAge).None?
  {
  }

  /** Under the default maximum age a datum stays readable for exactly one
      hour: it is still returned 3 600 000 ms after it was stored, and no
      longer one millisecond later. */
  lemma DefaultMaxAgeIsOneHour(entries: map<string, CacheEntry>, key: string, data: Js.Value, stored: int)
    ensures DefaultMaxAge == 60 * 60 * 1000
    ensures CachedItem(entries[key := CacheEntry(data, stored)], key, stored + DefaultMaxAge, DefaultMaxAge) == Some(data)
    ensures CachedItem(entries[key := CacheEntry(data, stored)], key, stored + DefaultMaxAge + 1, DefaultMaxAge).None?
  {
  }

  /** The request record built by `addSolicitacao` from the caller's
      fields, a fresh id and the current time. */
  function NewRecord(s: NewSolicitacao, id: string, criadoEm: string): (r: Solicitacao)
    ensures r.id == id && r.criadoEm == criadoEm
    ensures r.produtoId == s.produtoId && r.produtoNome == s.produtoNome && r.nomeCliente == s.nomeCliente
    ensures r.metodoPagamento == s.metodoPagamento && r.observacoes == s.observacoes
  {
    Solicitacao(id, s.produtoId, s.produtoNome, s.nomeCliente, s.metodoPagamento, s.observacoes, criadoEm)
  }

  /** `localStorage`, as far as these helpers use it. */
  class LocalStorage {
    var items: map<string, Stored>

    /** An empty store. */
    constructor()
      ensures items == map[]
    {
      items := map[];
    }

    /** Each key holds what the helpers write under it, or unparseable
        text; the helpers keep this. */
    predicate Valid()
      reads this
    {
      && (SolicitacoesKey in items ==> items[SolicitacoesKey].Requests? || items[SolicitacoesKey].Corrupt?)
      && (CachedDataKey in items ==> items[CachedDataKey].Cache? || items[CachedDataKey].Corrupt?)
      && forall k :: k in items && k != SolicitacoesKey && k != CachedDataKey ==>
           items[k].Preferences? || items[k].Corrupt?
    }

    /** `getSolicitacoes`: the stored history, or `[]` when there is none
        or its text does not parse. */
    function GetSolicitacoes(): (r: seq<Solicitacao>)
      reads this
      ensures SolicitacoesKey in items && items[SolicitacoesKey].Requests? ==> r == items[SolicitacoesKey].requests
      ensures SolicitacoesKey !in items || items[SolicitacoesKey].Corrupt? ==> r == []
    {
      if SolicitacoesKey in items && items[SolicitacoesKey].Requests? then items[SolicitacoesKey].requests
      else []
    }

    /** `addSolicitacao`: the new record, with the given id and creation
        time, is appended to the history, which keeps every earlier
        record; no other key changes. */
    method AddSolicitacao(s: NewSolicitacao, id: string, criadoEm: string) returns (nova: Solicitacao)
      requires Valid()
      modifies this
      ensures Valid()
      ensures nova == NewRecord(s, id, criadoEm)
      ensures GetSolicitacoes() == old(GetSolicitacoes()) + [nova]
      ensures items == old(items)[SolicitacoesKey := Requests(old(GetSolicitacoes()) + [nova])]
    {
      var solicitacoes := GetSolicitacoes();
      nova := NewRecord(s, id, criadoEm);
      solicitacoes := solicitacoes + [nova];
      items := items[SolicitacoesKey := Requests(solicitacoes)];
    }

    /** `getFilterPreferences`: the saved preferences of a category, `{}`
        when there are none; unparseable text throws. */
    function GetFilterPreferences(slug: string): (r: Read<Filters.FilterPreferences>)
      reads this
      ensures PrefsKey(slug) !in items ==> r == Got(Filters.NoFilters)
      ensures PrefsKey(slug) in items && items[PrefsKey(slug)].Preferences? ==> r == Got(items[PrefsKey(slug)].prefs)
      ensures PrefsKey(slug) in items && items[PrefsKey(slug)].Corrupt? ==> r == Throws
    {
      var key := PrefsKey(slug);
      if key !in items then Got(Filters.NoFilters)
      else if items[key].Preferences? then Got(items[key].prefs)
      else Throws
    }

    /** `saveFilterPreferences`: the category's key is overwritten, so
        reading it gives back exactly what was saved, and every other
        category, the history and the cache read as before. */
    method SaveFilterPreferences(slug: string, prefs: Filters.FilterPreferences)
      requires Valid()
      modifies this
      ensures Valid()
      ensures items == old(items)[PrefsKey(slug) := Preferences(prefs)]
      ensures GetFilterPreferences(slug) == Got(prefs)
      ensures forall other :: other != slug ==> GetFilterPreferences(other) == old(GetFilterPreferences(other))
      ensures GetSolicitacoes() == old(GetSolicitacoes())
      ensures GetCachedData() == old(GetCachedData())
    {
      PrefsKeysDistinct(slug, slug);
      items := items[PrefsKey(slug) := Preferences(prefs)];
      forall other | other != slug
        ensures GetFilterPreferences(other) == old(GetFilterPreferences(other))
      {
        PrefsKeysDistinct(slug, other);
      }
    }

    /** `getCachedData`: the cache object, `{}` when there is none;
        unparseable text throws. */
    function GetCachedData(): (r: Read<map<string, CacheEntry>>)
      reads this
      ensures CachedDataKey !in items ==> r == Got(map[])
      ensures CachedDataKey in items && items[CachedDataKey].Cache? ==> r == Got(items[CachedDataKey].entries)
      ensures CachedDataKey in items && items[CachedDataKey].Corrupt? ==> r == Throws
    {
      if CachedDataKey !in items then Got(map[])
      else if items[CachedDataKey].Cache? then Got(items[CachedDataKey].entries)
      else Throws
    }

    /** `cacheData`: entry `key` becomes `(data, now)` and every other
        entry is kept. When the stored cache does not parse, the call
        throws before writing and `ok` is false. */
    method CacheData(key: string, data: Js.Value, now: int) returns (ok: bool)
      requires Valid()
      modifies this
      ensures Valid()
      ensures ok <==> old(GetCachedData()).Got?
      ensures ok ==> GetCachedData() == Got(old(GetCachedData()).value[key := CacheEntry(data, now)])
      ensures ok ==> items == old(items)[CachedDataKey := Cache(old(GetCachedData()).value[key := CacheEntry(data, now)])]
      ensures !ok ==> items == old(items)
    {
      var cache := GetCachedData();
      if cache.Throws? {
        return false;
      }
      var updated := cache.value[key := CacheEntry(data, now)];
      items := items[CachedDataKey := Cache(updated)];
      ok := true;
    }

    /** `getCachedItem(key, maxAge)` at time `now`: `null` for a missing
        or stale entry, the datum otherwise; unparseable text throws. */
    function GetCachedItem(key: string, now: int, maxAge: int): (r: Read<Option<Js.Value>>)
      reads this
      ensures r.Throws? <==> GetCachedData().Throws?
      ensures r.Got? ==> r.value == CachedItem(GetCachedData().value, key, now, maxAge)
    {
      match GetCachedData()
      case Throws => Throws
      case Got(entries) => Got(CachedItem(entries, key, now, maxAge))
    }
  }
}
