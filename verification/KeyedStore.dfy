/** The handlers' view of the key-value store: every call builds its key with one of
    the key builders, so the string store behaves as a store of typed keys. */
module KeyedStores {
  import opened Wrappers
  import opened TimedStore
  import opened MemStores
  import opened Keys

  class KeyedStore {
    const store: MemStore
    ghost var typed: Store<Key>

    ghost predicate Valid()
      reads this, store, store.Repr
    {
      store.Valid() && this !in store.Repr && Represents(store.Model(), typed)
    }

    ghost function Footprint(): set<object>
      reads this, store
    {
      {this} + store.Repr
    }

    constructor (store: MemStore)
      requires store.Valid() && store.Model() == map[]
      ensures Valid() && this.store == store && typed == map[]
    {
      this.store := store;
      typed := map[];
    }

    method Get(k: Key, now: int) returns (r: Option<string>)
      requires Valid() && WellFormedKey(k)
      modifies Footprint()
      ensures Valid() && fresh(Footprint() - old(Footprint()))
      ensures (typed, if r.Some? then Found(r.value) else NotFound) == Step(old(typed), At(Op.Get(k), now))
    {
      StringStoreRefinesTyped(store.Model(), typed, Op.Get(k), now, now);
      r := store.Get(Render(k), now);
      typed := Step(typed, At(Op.Get(k), now)).0;
    }

    method Set(k: Key, value: string, ttl: int, now: int)
      requires Valid() && WellFormedKey(k)
      modifies Footprint()
      ensures Valid() && fresh(Footprint() - old(Footprint()))
      ensures typed == Step(old(typed), At(Op.Set(k, value, ttl), now)).0
    {
      StringStoreRefinesTyped(store.Model(), typed, Op.Set(k, value, ttl), now, now);
      store.Set(Render(k), value, ttl, now);
      typed := Step(typed, At(Op.Set(k, value, ttl), now)).0;
    }

    method GetDel(k: Key, now: int) returns (r: Option<string>)
      requires Valid() && WellFormedKey(k)
      modifies Footprint()
      ensures Valid() && fresh(Footprint() - old(Footprint()))
      ensures (typed, if r.Some? then Found(r.value) else NotFound) == Step(old(typed), At(Op.GetDel(k), now))
    {
      StringStoreRefinesTyped(store.Model(), typed, Op.GetDel(k), now, now);
      r := store.GetDel(Render(k), now);
      typed := Step(typed, At(Op.GetDel(k), now)).0;
    }

    method Del(k: Key)
      requires Valid() && WellFormedKey(k)
      modifies Footprint()
      ensures Valid() && fresh(Footprint() - old(Footprint()))
      ensures typed == old(typed) - {k}
    {
      StringStoreRefinesTyped(store.Model(), typed, Op.Del(k), 0, 0);
      store.Del(Render(k));
      assert store.Model() == Step(old(store.Model()), At(RenderOp(Op.Del(k)), 0)).0;
      typed := typed - {k};
    }

    // The background eviction.
    method Cleanup(readings: string -> int)
      requires Valid()
      modifies Footprint()
      ensures Valid() && fresh(Footprint() - old(Footprint()))
      ensures typed == Swept(old(typed), KeyReadings(readings))
    {
      SweepRefinesTyped(store.Model(), typed, readings);
      store.Cleanup(readings);
      typed := Swept(typed, KeyReadings(readings));
    }
  }
}
