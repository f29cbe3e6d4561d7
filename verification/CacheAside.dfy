/** Cache-aside reads with concurrent writers, in general. A reader looks in the
    cache, on a miss reads the table, and some time later fills the cache with what
    it read. Writers change the table whenever they like and drop cache entries
    whenever they like; entries may vanish at any time. */
module CacheAside {
  import opened Wrappers
  import opened Database

  datatype Cached<V> = Cached(value: Option<V>, deadline: int)

  // A reader between its table read and its fill.
  datatype Pending<V> = Pending(id: string, value: Option<V>, readAt: int)

  datatype View<V> = View(
    now: int,
    table: map<string, V>,
    cache: string -> Option<Cached<V>>,
    pending: nat -> Option<Pending<V>>)

  ghost predicate FilledBy<V(!new)>(ttl: int, delay: int, v: View<V>, w: View<V>, id: string, reader: nat) {
    v.pending(reader).Some? && w.cache(id).Some? &&
    var p, e := v.pending(reader).value, w.cache(id).value;
    p.id == id && e == Cached(p.value, w.now + ttl) && w.now - p.readAt <= delay
  }

  // One step: an entry is kept, dropped, or filled from what a reader fetched at most
  // `delay` ago; a reader is kept, finished, or has just read the table.
  ghost predicate Disciplined<V(!new)>(ttl: int, delay: int, v: View<V>, w: View<V>) {
    && v.now <= w.now
    && (forall id :: w.cache(id).Some? ==>
          w.cache(id) == v.cache(id) || exists reader :: FilledBy(ttl, delay, v, w, id, reader))
    && (forall reader :: w.pending(reader).Some? ==>
          w.pending(reader) == v.pending(reader)
          || (var p := w.pending(reader).value; p.readAt == w.now && p.value == Lookup(w.table, p.id)))
  }

  ghost predicate IsRun<V(!new)>(ttl: int, delay: int, run: seq<View<V>>) {
    && run != []
    && (forall id :: run[0].cache(id).None?) && (forall reader :: run[0].pending(reader).None?)
    && (forall i :: 0 < i < |run| ==> Disciplined(ttl, delay, run[i - 1], run[i]))
  }

  // At some instant no earlier than `since`, and no later than the instant of state n,
  // the table held exactly this for the id.
  ghost predicate HeldSince<V>(run: seq<View<V>>, n: nat, id: string, value: Option<V>, since: int) {
    exists i :: 0 <= i <= n < |run| && since <= run[i].now <= run[n].now && Lookup(run[i].table, id) == value
  }

  ghost predicate Grounded<V(!new)>(ttl: int, delay: int, run: seq<View<V>>, n: nat)
    requires n < |run|
  {
    && (forall id :: run[n].cache(id).Some? ==>
          var e := run[n].cache(id).value; HeldSince(run, n, id, e.value, e.deadline - ttl - delay))
    && (forall reader :: run[n].pending(reader).Some? ==>
          var p := run[n].pending(reader).value; HeldSince(run, n, p.id, p.value, p.readAt))
  }

  lemma {:induction false} AlwaysGrounded<V(!new)>(ttl: int, delay: int, run: seq<View<V>>, n: nat)
    requires IsRun(ttl, delay, run) && n < |run|
    ensures Grounded(ttl, delay, run, n)
  {
    if n > 0 {
      AlwaysGrounded(ttl, delay, run, n - 1);
      var v, w := run[n - 1], run[n];
      forall id | w.cache(id).Some?
        ensures var e := w.cache(id).value; HeldSince(run, n, id, e.value, e.deadline - ttl - delay)
      {
        var e := w.cache(id).value;
        if w.cache(id) == v.cache(id) {
          assert HeldSince(run, n - 1, id, e.value, e.deadline - ttl - delay);
        } else {
          var reader :| FilledBy(ttl, delay, v, w, id, reader);
          var p := v.pending(reader).value;
          assert HeldSince(run, n - 1, p.id, p.value, p.readAt);
        }
      }
      forall reader | w.pending(reader).Some?
        ensures var p := w.pending(reader).value; HeldSince(run, n, p.id, p.value, p.readAt)
      {
        var p := w.pending(reader).value;
        if w.pending(reader) == v.pending(reader) {
          assert HeldSince(run, n - 1, p.id, p.value, p.readAt);
        }
      }
    }
  }

  // A lookup at time t answers this value: it finds it cached and alive, or it is the
  // reader that read it, at most `delay` ago, and now fills the cache.
  ghost predicate Answers<V(!new)>(delay: int, v: View<V>, id: string, value: Option<V>, t: int) {
    || (v.cache(id).Some? && v.cache(id).value.value == value && t <= v.cache(id).value.deadline)
    || (exists reader :: v.pending(reader).Some? && v.pending(reader).value.id == id
          && v.pending(reader).value.value == value && t - v.pending(reader).value.readAt <= delay)
  }

  // Bounded staleness: whatever the writers do, and whether or not they invalidate,
  // an answer given at time t was true of the table at some instant no earlier than
  // t - ttl - delay.
  lemma BoundedStaleness<V(!new)>(ttl: nat, delay: int, run: seq<View<V>>, n: nat, id: string, value: Option<V>, t: int)
    requires IsRun(ttl, delay, run) && n < |run| && Answers(delay, run[n], id, value, t)
    ensures HeldSince(run, n, id, value, t - ttl - delay)
  {
    AlwaysGrounded(ttl, delay, run, n);
    var v := run[n];
    if v.cache(id).Some? && v.cache(id).value.value == value && t <= v.cache(id).value.deadline {
      assert HeldSince(run, n, id, value, v.cache(id).value.deadline - ttl - delay);
    } else {
      var reader :| v.pending(reader).Some? && v.pending(reader).value.id == id
        && v.pending(reader).value.value == value && t - v.pending(reader).value.readAt <= delay;
      assert HeldSince(run, n, id, value, v.pending(reader).value.readAt);
    }
  }

  // --- When a value can still be answered ---

  // Nothing from which this value could still be answered for the id: not the table,
  // not a reader that is still in time to fill the cache, not a live cache entry.
  ghost predicate Forgotten<V(!new)>(delay: int, v: View<V>, id: string, value: V) {
    && Lookup(v.table, id) != Some(value)
    && (forall reader :: v.pending(reader).Some? && v.now - v.pending(reader).value.readAt <= delay ==>
          v.pending(reader).value.id != id || v.pending(reader).value.value != Some(value))
    && (v.cache(id).Some? && v.cache(id).value.value == Some(value) ==> v.now > v.cache(id).value.deadline)
  }

  // Once forgotten, forgotten for as long as the table does not get the value back.
  lemma ForgottenStays<V(!new)>(ttl: int, delay: int, v: View<V>, w: View<V>, id: string, value: V)
    requires Disciplined(ttl, delay, v, w) && Forgotten(delay, v, id, value) && Lookup(w.table, id) != Some(value)
    ensures Forgotten(delay, w, id, value)
  {
    if w.cache(id).Some? && w.cache(id) != v.cache(id) {
      var reader :| FilledBy(ttl, delay, v, w, id, reader);
    }
  }
}
