/** The bounded cache of LLM providers, internal/agent/provider_cache.go, keyed by a hash of a
    length-prefixed text of the configuration. */
module ProviderCache {
  import opened Text

  datatype Config = Config(provider: string, model: string, apiKey: string, baseURL: string)

  /** One field with its length in front. */
  function Field(s: string): string {
    Decimal(|s|) + ":" + s
  }

  /** Fields with bars between them. */
  function Fields(fs: seq<string>): string {
    if fs == [] then ""
    else if |fs| == 1 then Field(fs[0])
    else Field(fs[0]) + ("|" + Fields(fs[1..]))
  }

  function KeyText(c: Config): string {
    Fields([c.provider, c.model, c.apiKey, c.baseURL])
  }

  /** A length prefix tells where a field ends, whatever the field contains. */
  lemma FieldPrefix(s: string, t: string, a: string, b: string)
    requires Field(s) + a == Field(t) + b
    ensures s == t && a == b
  {
    var x, y := Decimal(|s|), Decimal(|t|);
    var left, right := Field(s) + a, Field(t) + b;
    assert left[|x|] == ':' && right[|y|] == ':';
    assert forall k :: 0 <= k < |x| ==> left[k] == x[k];
    assert forall k :: 0 <= k < |y| ==> right[k] == y[k];
    assert |x| == |y|;
    assert x == left[..|x|] && y == right[..|y|];
    DecimalInjective(|s|, |t|);
    assert left[|x| + 1..] == s + a && right[|y| + 1..] == t + b;
    assert s == (s + a)[..|s|] && t == (t + b)[..|t|];
    assert a == (s + a)[|s|..] && b == (t + b)[|t|..];
  }

  lemma {:induction false} FieldsInjective(fs: seq<string>, gs: seq<string>)
    requires |fs| == |gs| && Fields(fs) == Fields(gs)
    ensures fs == gs
  {
    if |fs| == 1 {
      assert Field(fs[0]) + "" == Field(gs[0]) + "";
      FieldPrefix(fs[0], gs[0], "", "");
    } else if |fs| > 1 {
      var a, b := "|" + Fields(fs[1..]), "|" + Fields(gs[1..]);
      FieldPrefix(fs[0], gs[0], a, b);
      assert a[1..] == Fields(fs[1..]) && b[1..] == Fields(gs[1..]);
      FieldsInjective(fs[1..], gs[1..]);
      assert fs == [fs[0]] + fs[1..] && gs == [gs[0]] + gs[1..];
    }
  }

  /** Different configurations have different key texts. */
  lemma KeyTextInjective(c: Config, d: Config)
    requires KeyText(c) == KeyText(d)
    ensures c == d
  {
    var fs, gs := [c.provider, c.model, c.apiKey, c.baseURL], [d.provider, d.model, d.apiKey, d.baseURL];
    FieldsInjective(fs, gs);
    assert fs[0] == gs[0] && fs[1] == gs[1] && fs[2] == gs[2] && fs[3] == gs[3];
  }

  /** A hash without collisions. */
  ghost predicate CollisionFree(hash: string -> string) {
    forall x, y :: hash(x) == hash(y) ==> x == y
  }

  lemma HashInjective(hash: string -> string, c: Config, d: Config)
    requires CollisionFree(hash) && hash(KeyText(c)) == hash(KeyText(d))
    ensures c == d
  {
    KeyTextInjective(c, d);
  }

  datatype Entry<P> = Entry(provider: P, model: string)

  datatype Lookup<P> = Hit(entry: Entry<P>) | Failed

  /** What other goroutines may do while the lock is free. */
  datatype Foreign<P> = SetOther(c: Config, p: P) | InvalidateOther(c: Config) | InvalidateEverything

  /** `last` remembers, for each configuration, the provider stored for it most recently. */
  class Cache<P> {
    const hash: string -> string
    const maxSize: nat
    var cache: map<string, Entry<P>>
    ghost var last: map<Config, P>

    /** Every entry is the latest one of the configuration that its key stands for. */
    ghost predicate Valid()
      reads this
    {
      && CollisionFree(hash)
      && (forall k :: k in cache ==> exists c :: Backs(k, c))
      && |cache| <= Capacity()
    }

    ghost predicate Backs(k: string, c: Config)
      reads this
    {
      k in cache && k == hash(KeyText(c)) && c in last && cache[k] == Entry(last[c], c.model)
    }

    /** A cache of size zero still holds one entry. */
    ghost function Capacity(): nat {
      if maxSize == 0 then 1 else maxSize
    }

    constructor (hash: string -> string, maxSize: nat)
      requires CollisionFree(hash)
      ensures this.hash == hash && this.maxSize == maxSize && Valid() && cache == map[] && last == map[]
    {
      this.hash, this.maxSize := hash, maxSize;
      cache, last := map[], map[];
    }

    method Remove(k: string)
      requires Valid()
      modifies this`cache
      ensures Valid() && cache == old(cache) - {k}
      ensures k in old(cache) ==> |cache| == |old(cache)| - 1
    {
      RemoveSize(cache, k);
      cache := cache - {k};
      forall x | x in cache ensures exists c :: Backs(x, c) {
        var c :| old(Backs(x, c));
        assert Backs(x, c);
      }
    }

    /** Drops some entry when the cache is full, whichever key iteration yields first. */
    method EvictIfFull()
      requires Valid()
      modifies this`cache
      ensures Valid() && |cache| < Capacity()
      ensures Part(cache, old(cache))
      ensures |old(cache)| < maxSize ==> cache == old(cache)
      ensures |cache| >= |old(cache)| - 1
    {
      if |cache| >= maxSize && cache != map[] {
        var k :| k in cache;
        Remove(k);
      }
    }

    method Put(c: Config, p: P)
      requires CollisionFree(hash) && |cache| < Capacity() && forall k :: k in cache ==> exists c :: Backs(k, c)
      modifies this
      ensures Valid() && last == old(last)[c := p] && cache == old(cache)[hash(KeyText(c)) := Entry(p, c.model)]
    {
      ghost var before := cache;
      cache := cache[hash(KeyText(c)) := Entry(p, c.model)];
      last := last[c := p];
      assert cache.Keys == before.Keys + {hash(KeyText(c))};
      forall k | k in cache ensures exists d :: Backs(k, d) {
        if k == hash(KeyText(c)) {
          assert Backs(k, c);
        } else {
          var d :| old(Backs(k, d));
          assert Backs(k, d);
        }
      }
    }

    method Set(c: Config, p: P)
      requires Valid()
      modifies this
      ensures Valid() && last == old(last)[c := p]
      ensures hash(KeyText(c)) in cache && cache[hash(KeyText(c))] == Entry(p, c.model)
      ensures Part(cache - {hash(KeyText(c))}, old(cache))
      ensures |old(cache)| < maxSize ==> cache == old(cache)[hash(KeyText(c)) := Entry(p, c.model)]
    {
      EvictIfFull();
      ghost var kept := cache;
      Put(c, p);
      PartPut(kept, old(cache), hash(KeyText(c)), Entry(p, c.model));
    }

    method Invalidate(c: Config)
      requires Valid()
      modifies this`cache
      ensures Valid() && cache == old(cache) - {hash(KeyText(c))}
    {
      Remove(hash(KeyText(c)));
    }

    method InvalidateAll()
      requires Valid()
      modifies this`cache
      ensures Valid() && cache == map[]
    {
      cache := map[];
    }

    method Others(todo: seq<Foreign<P>>)
      requires Valid()
      modifies this
      ensures Valid()
    {
      for i := 0 to |todo|
        invariant Valid()
      {
        match todo[i] {
          case SetOther(c, p) => Set(c, p);
          case InvalidateOther(c) => Invalidate(c);
          case InvalidateEverything => InvalidateAll();
        }
      }
    }

    /** Returns the cached provider, or creates and stores one. Between the two looks at the
        cache other goroutines may do anything. The provider returned is always the one stored
        last for this very configuration, with this configuration's model. */
    method GetOrCreate(c: Config, todo: seq<Foreign<P>>, created: Lookup<P>) returns (r: Lookup<P>)
      requires Valid() && (created.Hit? ==> created.entry.model == c.model)
      modifies this
      ensures Valid()
      ensures r.Hit? ==> c in last && r.entry == Entry(last[c], c.model)
      ensures r.Hit? ==> hash(KeyText(c)) in cache && cache[hash(KeyText(c))] == r.entry
      ensures r.Failed? ==> created.Failed? && hash(KeyText(c)) !in cache
      ensures old(hash(KeyText(c)) in cache) ==> r == Hit(old(cache)[hash(KeyText(c))]) && unchanged(this)
    {
      var key := hash(KeyText(c));
      if key in cache {
        HitIsLatest(c);
        return Hit(cache[key]);
      }
      Others(todo);
      if key in cache {
        HitIsLatest(c);
        return Hit(cache[key]);
      }
      if created.Failed? {
        return Failed;
      }
      EvictIfFull();
      Put(c, created.entry.provider);
      return Hit(Entry(created.entry.provider, c.model));
    }

    lemma HitIsLatest(c: Config)
      requires Valid() && hash(KeyText(c)) in cache
      ensures c in last && cache[hash(KeyText(c))] == Entry(last[c], c.model)
    {
      var d :| Backs(hash(KeyText(c)), d);
      HashInjective(hash, c, d);
    }
  }

  /** All entries of `a` are entries of `b`. */
  ghost predicate Part<V>(a: map<string, V>, b: map<string, V>) {
    forall k :: k in a ==> k in b && a[k] == b[k]
  }

  lemma PartPut<V>(a: map<string, V>, b: map<string, V>, k: string, v: V)
    requires Part(a, b)
    ensures Part(a[k := v] - {k}, b)
  {
  }

  lemma RemoveSize<V>(m: map<string, V>, k: string)
    ensures |m - {k}| == if k in m then |m| - 1 else |m|
  {
    assert (m - {k}).Keys == m.Keys - {k};
  }
}
