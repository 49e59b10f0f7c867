/**
 * The in-memory cache of a reference table, pkg/database/postgres/dictionary.go:
 * the rows in query order, indexes by key and by non-empty code, and a
 * time-to-live after which a read reloads the table first.
 *
 * Time is a monotonic clock in nanoseconds, as Go's `time.Duration`.
 */
module Dictionary {
  import opened Wrappers
  import opened Errors
  import opened PgErrors

  const Second: int := 1_000_000_000
  const Hour: int := 3600 * Second

  /** What the table's query would return now: its rows, or the driver's failure; and the load hook's verdict. */
  datatype Source<M> = Source(rows: seq<M>, scanFault: Option<Error>, onLoadErr: Option<Error>)

  /** The constructor options that shape the cache itself. */
  datatype DictOption = WithReloadable(reloadable: bool) | WithItemsTTL(ttl: int)

  /** The index after upserting `models` in order into `m`: later rows overwrite earlier ones. */
  function IndexBy<K, M>(m: map<K, M>, models: seq<M>, key: M -> K): map<K, M> {
    if models == [] then m
    else IndexBy(m, models[..|models| - 1], key)[key(models[|models| - 1]) := models[|models| - 1]]
  }

  /** As `IndexBy` over the code, skipping rows whose code is empty. */
  function IndexByCode<M>(m: map<string, M>, models: seq<M>, code: M -> string): map<string, M> {
    if models == [] then m
    else
      var prev := IndexByCode(m, models[..|models| - 1], code);
      var last := models[|models| - 1];
      if code(last) == "" then prev else prev[code(last) := last]
  }

  /**
   * A key is indexed iff it was indexed before or some row has it; it maps
   * to the last row that has it, and to its old row if no row has it.
   */
  lemma {:induction false} IndexByLookup<K, M>(m: map<K, M>, models: seq<M>, key: M -> K, k: K)
    ensures k in IndexBy(m, models, key) <==> k in m || exists i :: 0 <= i < |models| && key(models[i]) == k
    ensures forall i :: 0 <= i < |models| && key(models[i]) == k
                        && (forall j :: i < j < |models| ==> key(models[j]) != k)
                        ==> IndexBy(m, models, key)[k] == models[i]
    ensures (forall i :: 0 <= i < |models| ==> key(models[i]) != k) && k in m ==> IndexBy(m, models, key)[k] == m[k]
  {
    if models != [] {
      var n := |models| - 1;
      var init := models[..n];
      IndexByLookup(m, init, key, k);
      assert forall i :: 0 <= i < n ==> init[i] == models[i];
    }
  }

  /** A code is indexed iff it was indexed before or some row has it; the empty code is never added. */
  lemma {:induction false} IndexByCodeKeys<M>(m: map<string, M>, models: seq<M>, code: M -> string, c: string)
    ensures c in IndexByCode(m, models, code) <==> c in m || (c != "" && exists i :: 0 <= i < |models| && code(models[i]) == c)
  {
    if models != [] {
      var n := |models| - 1;
      var init := models[..n];
      IndexByCodeKeys(m, init, code, c);
      assert forall i :: 0 <= i < n ==> init[i] == models[i];
      if c != "" && c !in m && c != code(models[n]) && exists i :: 0 <= i < |models| && code(models[i]) == c {
        var i :| 0 <= i < |models| && code(models[i]) == c;
        assert i < n && code(init[i]) == c;
      }
    }
  }

  /** A row with a non-empty code that no later row shares is what the code maps to. */
  lemma {:induction false} IndexByCodeLast<M>(m: map<string, M>, models: seq<M>, code: M -> string, i: nat)
    requires i < |models| && code(models[i]) != ""
    requires forall j :: i < j < |models| ==> code(models[j]) != code(models[i])
    ensures code(models[i]) in IndexByCode(m, models, code)
    ensures IndexByCode(m, models, code)[code(models[i])] == models[i]
  {
    var n := |models| - 1;
    if i < n {
      var init := models[..n];
      assert init[i] == models[i];
      IndexByCodeLast(m, init, code, i);
    }
  }

  /** `GetByKey`/`GetByCode` after any reload: the indexed row, or NotFound for the model. */
  function Lookup<K, M>(index: map<K, M>, k: K, modelName: string): (r: Result<M>)
    ensures k in index <==> r.Ok?
    ensures r.Ok? ==> r.value == index[k]
    ensures r.Err? ==> r.error == NotFound(modelName)
  {
    if k in index then Ok(index[k]) else Err(NotFound(modelName))
  }

  /** The range of Go's `time.Duration`. */
  const MaxDuration: int := 0x7FFF_FFFF_FFFF_FFFF
  const MinDuration: int := -0x8000_0000_0000_0000

  /**
   * `time.Since(t)`: the time from `t` to `now`, saturated to a `Duration`.
   * `None` is Go's zero time, further back than any `Duration` reaches.
   */
  function Since(now: int, last: Option<int>): (d: int)
    ensures MinDuration <= d <= MaxDuration
    ensures last.None? ==> d == MaxDuration
    ensures last.Some? && MinDuration <= now - last.value <= MaxDuration ==> d == now - last.value
    ensures last.Some? && now - last.value > MaxDuration ==> d == MaxDuration
    ensures last.Some? && now - last.value < MinDuration ==> d == MinDuration
  {
    if last.None? then MaxDuration
    else if now - last.value > MaxDuration then MaxDuration
    else if now - last.value < MinDuration then MinDuration
    else now - last.value
  }

  class BaseDictionary<K(==), M(==)> {
    var items: seq<M>
    var itemsByKey: map<K, M>
    var itemsBySlug: map<string, M>
    /** The time of the last successful load; `None` (Go's zero time) until one succeeds. */
    var lastLoad: Option<int>
    var itemsTTL: int
    var reloadable: bool
    const key: M -> K
    const code: M -> string
    /** The name `NotFound` carries (the model type's name). */
    const modelName: string

    /**
     * `NewDictionary`: empty indexes, a day's TTL, reloadable; then the
     * options in order; then one load whose failure is only logged. A cache
     * whose first load failed has never loaded, so it is expired at any time
     * (for any TTL short of the largest `Duration`) and the next read reloads.
     */
    constructor (key: M -> K, code: M -> string, modelName: string, opts: seq<DictOption>, src: Source<M>, now: int)
      ensures this.key == key && this.code == code && this.modelName == modelName
      ensures itemsTTL == OptionsTTL(24 * Hour, opts) && reloadable == OptionsReloadable(true, opts)
      ensures src.scanFault.None? && src.onLoadErr.None? ==>
                items == src.rows && itemsByKey == IndexBy(map[], src.rows, key)
                && itemsBySlug == IndexByCode(map[], src.rows, code) && lastLoad == Some(now)
      ensures src.scanFault.Some? || src.onLoadErr.Some? ==>
                items == [] && itemsByKey == map[] && itemsBySlug == map[] && lastLoad.None?
                && (itemsTTL < MaxDuration ==> forall t :: IsExpired(t))
    {
      this.key := key;
      this.code := code;
      this.modelName := modelName;
      items, itemsByKey, itemsBySlug := [], map[], map[];
      lastLoad := None;
      var ttl, rel := 24 * Hour, true;
      var i := 0;
      while i < |opts|
        invariant 0 <= i <= |opts|
        invariant ttl == OptionsTTL(24 * Hour, opts[..i]) && rel == OptionsReloadable(true, opts[..i])
      {
        match opts[i] {
          case WithReloadable(b) => rel := b;
          case WithItemsTTL(d) => ttl := d;
        }
        assert opts[..i + 1][..i] == opts[..i];
        i := i + 1;
      }
      assert opts[..i] == opts;
      itemsTTL, reloadable := ttl, rel;
      new;
      var _ := Load(src, now);
    }

    /**
     * `Load`: a scan or hook failure changes nothing; otherwise the rows
     * replace `items` and are upserted into both indexes, and the load time
     * is `now`.
     */
    method Load(src: Source<M>, now: int) returns (err: Option<Error>)
      modifies this
      ensures src.scanFault.Some? ==> err == Some(RepoError(src.scanFault.value, modelName))
      ensures src.scanFault.None? ==> err == src.onLoadErr
      ensures err.Some? ==> items == old(items) && itemsByKey == old(itemsByKey)
                            && itemsBySlug == old(itemsBySlug) && lastLoad == old(lastLoad)
      ensures err.None? ==> items == src.rows && itemsByKey == IndexBy(old(itemsByKey), src.rows, key)
                            && itemsBySlug == IndexByCode(old(itemsBySlug), src.rows, code) && lastLoad == Some(now)
      ensures itemsTTL == old(itemsTTL) && reloadable == old(reloadable)
    {
      if src.scanFault.Some? {
        return Some(RepoError(src.scanFault.value, modelName));
      }
      if src.onLoadErr.Some? {
        return src.onLoadErr;
      }
      var models := src.rows;
      items := models;
      var i := 0;
      while i < |models|
        invariant 0 <= i <= |models|
        invariant items == models && lastLoad == old(lastLoad)
        invariant itemsTTL == old(itemsTTL) && reloadable == old(reloadable)
        invariant itemsByKey == IndexBy(old(itemsByKey), models[..i], key)
        invariant itemsBySlug == IndexByCode(old(itemsBySlug), models[..i], code)
      {
        var m := models[i];
        assert models[..i + 1][..i] == models[..i];
        itemsByKey := itemsByKey[key(m) := m];
        if code(m) != "" {
          itemsBySlug := itemsBySlug[code(m) := m];
        }
        i := i + 1;
      }
      assert models[..i] == models;
      lastLoad := Some(now);
      return None;
    }

    /** `IsExpired`: more than the TTL has passed since the last load (always, before any load). */
    predicate IsExpired(now: int)
      reads this
    {
      Since(now, lastLoad) > itemsTTL
    }

    /**
     * The state a read leaves after its `ReloadIfNeeded`: the rows of a
     * successful reload when the cache was expired and reloadable, and the
     * old state otherwise (not expired, not reloadable, or the reload failed).
     * The TTL and the reloadable flag never change.
     */
    twostate predicate Reloaded(src: Source<M>, now: int)
      reads this
    {
      && itemsTTL == old(itemsTTL) && reloadable == old(reloadable)
      && if old(IsExpired(now)) && old(reloadable) && src.scanFault.None? && src.onLoadErr.None? then
           && items == src.rows && itemsByKey == IndexBy(old(itemsByKey), src.rows, key)
           && itemsBySlug == IndexByCode(old(itemsBySlug), src.rows, code) && lastLoad == Some(now)
         else
           && items == old(items) && itemsByKey == old(itemsByKey)
           && itemsBySlug == old(itemsBySlug) && lastLoad == old(lastLoad)
    }

    /** `ReloadIfNeeded`: loads only when expired and reloadable; a failure is only logged. */
    method ReloadIfNeeded(src: Source<M>, now: int)
      modifies this
      ensures Reloaded(src, now)
    {
      if IsExpired(now) && reloadable {
        var _ := Load(src, now);
      }
    }

    /** `GetByKey`: after any reload, the row indexed by `k`, or NotFound. */
    method GetByKey(src: Source<M>, now: int, k: K) returns (r: Result<M>)
      modifies this
      ensures Reloaded(src, now)
      ensures r == Lookup(itemsByKey, k, modelName)
    {
      ReloadIfNeeded(src, now);
      if k in itemsByKey {
        return Ok(itemsByKey[k]);
      }
      return Err(NotFound(modelName));
    }

    /** `GetByCode`: after any reload, the row indexed by `c`, or NotFound. */
    method GetByCode(src: Source<M>, now: int, c: string) returns (r: Result<M>)
      modifies this
      ensures Reloaded(src, now)
      ensures r == Lookup(itemsBySlug, c, modelName)
    {
      ReloadIfNeeded(src, now);
      if c in itemsBySlug {
        return Ok(itemsBySlug[c]);
      }
      return Err(NotFound(modelName));
    }

    /** `Keys`: after any reload, every indexed key once, in no particular order. */
    method Keys(src: Source<M>, now: int) returns (keys: seq<K>)
      modifies this
      ensures Reloaded(src, now)
      ensures forall k :: k in keys <==> k in itemsByKey
      ensures |keys| == |itemsByKey.Keys|
    {
      ReloadIfNeeded(src, now);
      keys := [];
      var all := itemsByKey.Keys;
      var rest := all;
      while rest != {}
        invariant rest <= all
        invariant forall k :: k in keys <==> k in all && k !in rest
        invariant |keys| + |rest| == |all|
        decreases |rest|
      {
        var k :| k in rest;
        keys := keys + [k];
        rest := rest - {k};
      }
    }

    /** `Values`: after any reload, the rows of the last successful load. */
    method Values(src: Source<M>, now: int) returns (r: seq<M>)
      modifies this
      ensures Reloaded(src, now)
      ensures r == items
    {
      ReloadIfNeeded(src, now);
      r := items;
    }

    /** `Len`: after any reload, the number of rows of the last successful load. */
    method Len(src: Source<M>, now: int) returns (n: nat)
      modifies this
      ensures Reloaded(src, now)
      ensures n == |items|
    {
      ReloadIfNeeded(src, now);
      n := |items|;
    }
  }

  /**
   * A cache whose first load failed reloads on its very next read, however
   * little time has passed: the read finds the row the table now holds.
   */
  method ReadAfterFailedFirstLoad(k: int, now: int) returns (r: Result<int>)
    ensures r == Ok(k)
  {
    var d := new BaseDictionary((m: int) => m, (m: int) => "", "M", [], Source([], Some(Plain("down")), None), now);
    r := d.GetByKey(Source([k], None, None), now, k);
  }

  /** The TTL after applying the options in order. */
  function OptionsTTL(ttl: int, opts: seq<DictOption>): int {
    if opts == [] then ttl
    else
      var last := opts[|opts| - 1];
      if last.WithItemsTTL? then last.ttl else OptionsTTL(ttl, opts[..|opts| - 1])
  }

  /** The reloadable flag after applying the options in order. */
  function OptionsReloadable(reloadable: bool, opts: seq<DictOption>): bool {
    if opts == [] then reloadable
    else
      var last := opts[|opts| - 1];
      if last.WithReloadable? then last.reloadable else OptionsReloadable(reloadable, opts[..|opts| - 1])
  }

  /** With no options the cache keeps a day's TTL and is reloadable; the last option of a kind wins. */
  lemma OptionsDefaults(opts: seq<DictOption>, d: int, b: bool)
    ensures OptionsTTL(24 * Hour, []) == 86_400 * Second && OptionsReloadable(true, [])
    ensures OptionsTTL(24 * Hour, opts + [WithItemsTTL(d)]) == d
    ensures OptionsReloadable(true, opts + [WithReloadable(b)]) == b
  {
    assert (opts + [WithItemsTTL(d)])[..|opts|] == opts;
  }
}
