/** The in-memory key-value store: a map from keys to mutable entry objects. Each
    method is proved equal to the matching step of `TimedStore` on the abstract
    map of bindings. The caller supplies the clock readings a method takes. */
module MemStores {
  import opened Wrappers
  import opened Decimal
  import opened TimedStore

  class Entry {
    var value: string
    var expiresAt: Option<int>

    constructor (value: string, expiresAt: Option<int>)
      ensures this.value == value && this.expiresAt == expiresAt
    {
      this.value, this.expiresAt := value, expiresAt;
    }

    predicate HasExpired(now: int)
      reads this
    {
      expiresAt.Some? && now > expiresAt.value
    }
  }

  class MemStore {
    var data: map<string, Entry>
    ghost var Repr: set<object>

    // No two keys share an entry: updating one key's entry in place must not
    // change what another key is bound to.
    ghost predicate Valid()
      reads this, Repr
      ensures Valid() ==> this in Repr
    {
      && this in Repr
      && (forall k :: k in data ==> data[k] in Repr)
      && (forall k, l :: k in data && l in data && k != l ==> data[k] != data[l])
    }

    ghost function Model(): Store<string>
      requires Valid()
      reads this, Repr
    {
      map k | k in data :: Binding(data[k].value, data[k].expiresAt)
    }

    constructor ()
      ensures Valid() && fresh(Repr) && Model() == map[]
    {
      data := map[];
      Repr := {this};
    }

    method Get(key: string, now: int) returns (r: Option<string>)
      requires Valid()
      modifies this
      ensures Valid() && Repr == old(Repr)
      ensures (Model(), if r.Some? then Found(r.value) else NotFound) == Step(old(Model()), At(Op.Get(key), now))
    {
      if key !in data || data[key].HasExpired(now) {
        data := data - {key};
        assert Model() == old(Model()) - {key};
        return None;
      }
      r := Some(data[key].value);
    }

    method Set(key: string, value: string, ttl: int, now: int)
      requires Valid()
      modifies this
      ensures Valid() && fresh(Repr - old(Repr))
      ensures Model() == Step(old(Model()), At(Op.Set(key, value, ttl), now)).0
    {
      var e := new Entry(value, None);
      if ttl > 0 {
        e.expiresAt := Some(now + ttl);
      }
      data := data[key := e];
      Repr := Repr + {e};
    }

    method GetDel(key: string, now: int) returns (r: Option<string>)
      requires Valid()
      modifies this
      ensures Valid() && Repr == old(Repr)
      ensures (Model(), if r.Some? then Found(r.value) else NotFound) == Step(old(Model()), At(Op.GetDel(key), now))
    {
      if key !in data || data[key].HasExpired(now) {
        data := data - {key};
        assert Model() == old(Model()) - {key};
        return None;
      }
      r := Some(data[key].value);
      data := data - {key};
      assert Model() == old(Model()) - {key};
    }

    method Del(key: string)
      requires Valid()
      modifies this
      ensures Valid() && Repr == old(Repr)
      ensures forall now :: Model() == Step(old(Model()), At(Op.Del(key), now)).0
    {
      data := data - {key};
    }

    method Incr(key: string, now: int) returns (n: int)
      requires Valid()
      modifies Repr
      ensures Valid() && fresh(Repr - old(Repr))
      ensures (Model(), Count(n)) == Step(old(Model()), At(Op.Incr(key), now))
    {
      if key !in data || data[key].HasExpired(now) {
        var e := new Entry("1", None);
        data := data[key := e];
        Repr := Repr + {e};
        assert Model() == old(Model())[key := Binding("1", None)];
        return 1;
      }
      n := Next(ParseInt(data[key].value));
      data[key].value := FormatInt(n);
      assert Model() == old(Model())[key := Incremented(old(Model())[key])];
    }

    // `t0` is read to test expiry and `t1` to place the new deadline.
    method Expire(key: string, ttl: int, t0: int, t1: int)
      requires Valid()
      modifies Repr
      ensures Valid() && Repr == old(Repr)
      ensures Model() == Step(old(Model()), Event(Op.Expire(key, ttl), t0, t1)).0
    {
      if key in data && !data[key].HasExpired(t0) {
        data[key].expiresAt := Some(t1 + ttl);
        assert Model() == old(Model())[key := old(Model())[key].(deadline := Some(t1 + ttl))];
      }
    }

    method TTL(key: string, t0: int, t1: int) returns (ttl: int)
      requires Valid()
      ensures (Model(), Remaining(ttl)) == Step(Model(), Event(Op.TTL(key), t0, t1))
    {
      if key !in data || data[key].HasExpired(t0) {
        return -1;
      }
      if data[key].expiresAt.None? {
        return -1;
      }
      ttl := data[key].expiresAt.value - t1;
    }

    // The loop of the background goroutine: it deletes while it iterates, in no
    // particular order, and reads the clock anew for each entry.
    method Evict(readings: string -> int)
      modifies `data
      ensures forall k :: k in data ==> k in old(data) && data[k] == old(data)[k]
      ensures forall k :: k in old(data) ==> (k in data <==> !old(data)[k].HasExpired(readings(k)))
    {
      var pending := data.Keys;
      while pending != {}
        invariant pending <= data.Keys <= old(data).Keys
        invariant forall k :: k in data ==> data[k] == old(data)[k]
        invariant forall k :: k in old(data) && k !in pending ==> (k in data <==> !old(data)[k].HasExpired(readings(k)))
        decreases |pending|
      {
        var k :| k in pending;
        pending := pending - {k};
        if data[k].HasExpired(readings(k)) {
          data := data - {k};
        }
      }
    }

    // One tick of the background goroutine.
    method Cleanup(readings: string -> int)
      requires Valid()
      modifies this
      ensures Valid() && Repr == old(Repr)
      ensures Model() == Swept(old(Model()), readings)
    {
      Evict(readings);
      assert Model() == Swept(old(Model()), readings);
    }
  }
}
