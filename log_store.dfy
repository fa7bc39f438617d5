/**
 * The in-memory log relay: for each log id the last 200 entries, in order, and the callbacks
 * subscribed to that id, each called with every new entry.
 */
module LogStore {
  import opened Common
  import opened Json

  /** The most entries kept per log id. */
  const Limit := 200

  /** `{ time, level, message, extra }`. */
  datatype Entry = Entry(time: string, level: string, message: string, extra: Option<Json>)

  /** A subscribed callback, told apart from the others by its identity. */
  type Callback = nat

  /** A buffer after the entry `e` is pushed: the last `Limit` entries of `buf + [e]`. */
  function Appended(buf: seq<Entry>, e: Entry): seq<Entry> {
    var arr := buf + [e];
    if |arr| > Limit then arr[|arr| - Limit..] else arr
  }

  /**
   * The new entry is last, after the kept entries in their order; the buffer never exceeds
   * `Limit`, and nothing is dropped while it fits.
   */
  lemma AppendedFacts(buf: seq<Entry>, e: Entry)
    ensures var r := Appended(buf, e);
      && |r| == (if |buf| + 1 > Limit then Limit else |buf| + 1)
      && r == (buf + [e])[|buf| + 1 - |r|..]
      && r[|r| - 1] == e
      && (|buf| < Limit ==> r == buf + [e])
  {
  }

  /** Whether some callback of `cbs` throws. */
  predicate Threw(cbs: seq<Callback>, throws: Callback -> bool) {
    exists i :: 0 <= i < |cbs| && throws(cbs[i])
  }

  /** The calls made by `for (const cb of Array.from(set)) cb(e)`: up to and including the first that throws. */
  function Notified(cbs: seq<Callback>, e: Entry, throws: Callback -> bool): seq<(Callback, Entry)>
    decreases |cbs|
  {
    if cbs == [] then []
    else
      var p := cbs[..|cbs| - 1];
      if Threw(p, throws) then Notified(p, e, throws) else Notified(p, e, throws) + [(cbs[|cbs| - 1], e)]
  }

  /**
   * The callbacks are called in order, each with `e`; when none throws every one is called, and
   * otherwise the calls stop right after the first that throws.
   */
  lemma {:induction false} NotifiedFacts(cbs: seq<Callback>, e: Entry, throws: Callback -> bool)
    ensures var n := Notified(cbs, e, throws);
      && |n| <= |cbs|
      && (forall i :: 0 <= i < |n| ==> n[i] == (cbs[i], e))
      && (!Threw(cbs, throws) ==> |n| == |cbs|)
      && (Threw(cbs, throws) ==> 0 < |n| && throws(cbs[|n| - 1]) && forall j :: 0 <= j < |n| - 1 ==> !throws(cbs[j]))
    decreases |cbs|
  {
    if cbs != [] {
      var p := cbs[..|cbs| - 1];
      NotifiedFacts(p, e, throws);
      var np := Notified(p, e, throws);
      if Threw(p, throws) {
        assert Threw(cbs, throws) by {
          var i :| 0 <= i < |p| && throws(p[i]);
          assert cbs[i] == p[i];
        }
        forall i | 0 <= i < |np| ensures cbs[i] == p[i] {
        }
      } else {
        forall i | 0 <= i < |np| ensures cbs[i] == p[i] {
        }
        if Threw(cbs, throws) {
          var i :| 0 <= i < |cbs| && throws(cbs[i]);
          if i < |p| {
            assert throws(p[i]);
          }
        }
      }
    }
  }

  /** Once a callback of `cbs[..k]` has thrown, the later ones are not called. */
  lemma {:induction false} NotifiedStops(cbs: seq<Callback>, k: nat, e: Entry, throws: Callback -> bool)
    requires k <= |cbs| && Threw(cbs[..k], throws)
    ensures Notified(cbs, e, throws) == Notified(cbs[..k], e, throws)
    ensures Threw(cbs, throws)
    decreases |cbs|
  {
    var i :| 0 <= i < k && throws(cbs[..k][i]);
    assert throws(cbs[i]);
    if k < |cbs| {
      var p := cbs[..|cbs| - 1];
      assert p[..k] == cbs[..k];
      NotifiedStops(p, k, e, throws);
    } else {
      assert cbs[..k] == cbs;
    }
  }

  /** `s` without `x`, in order. */
  function Removed<T(==)>(s: seq<T>, x: T): seq<T>
    decreases |s|
  {
    if s == [] then [] else (if s[0] == x then [] else [s[0]]) + Removed(s[1..], x)
  }

  /** `set.add(x)` on an insertion-ordered set. */
  function Added<T(==)>(s: seq<T>, x: T): seq<T> {
    if x in s then s else s + [x]
  }

  /** Removing keeps every other element, keeps the order's absence of duplicates, and is idempotent. */
  lemma {:induction false} RemovedFacts<T>(s: seq<T>, x: T)
    ensures forall y :: y in Removed(s, x) <==> y in s && y != x
    ensures NoDuplicates(s) ==> NoDuplicates(Removed(s, x))
    ensures x !in s ==> Removed(s, x) == s
    ensures Removed(Removed(s, x), x) == Removed(s, x)
    decreases |s|
  {
    if s != [] {
      RemovedFacts(s[1..], x);
      var r := Removed(s, x);
      var rest := Removed(s[1..], x);
      if NoDuplicates(s) {
        assert NoDuplicates(s[1..]) by {
          forall i, j | 0 <= i < j < |s[1..]| ensures s[1..][i] != s[1..][j] {
            assert s[1..][i] == s[i + 1] && s[1..][j] == s[j + 1];
          }
        }
        if s[0] != x {
          assert s[0] !in rest by {
            assert s[0] !in s[1..] by {
              forall i | 0 <= i < |s[1..]| ensures s[1..][i] != s[0] {
                assert s[1..][i] == s[i + 1];
              }
            }
          }
          forall i, j | 0 <= i < j < |r| ensures r[i] != r[j] {
            assert r[j] == rest[j - 1];
            if i > 0 {
              assert r[i] == rest[i - 1];
            } else {
              assert rest[j - 1] in rest;
            }
          }
        }
      }
      if x !in s {
        assert s == [s[0]] + s[1..];
      }
      if s[0] == x {
        assert r == rest;
      } else {
        assert r == [s[0]] + rest;
        assert r[1..] == rest;
      }
    }
  }

  lemma {:induction false} RemovedAppend<T>(s: seq<T>, x: T)
    ensures Removed(s + [x], x) == Removed(s, x)
    decreases |s|
  {
    if s == [] {
      assert [x][1..] == [];
    } else {
      assert (s + [x])[1..] == s[1..] + [x];
      RemovedAppend(s[1..], x);
    }
  }

  /** Adding keeps the elements, adds `x`, and never makes a duplicate. */
  lemma AddedFacts<T>(s: seq<T>, x: T)
    ensures forall y :: y in Added(s, x) <==> y in s || y == x
    ensures NoDuplicates(s) ==> NoDuplicates(Added(s, x))
    ensures x !in s ==> Added(s, x) == s + [x]
  {
  }

  /** The callbacks of `id`, or none. */
  function SubscribersOf(ls: map<string, seq<Callback>>, id: string): seq<Callback> {
    if id in ls then ls[id] else []
  }

  /** The listeners after `subscribeServerLogs(id, cb)`. */
  function Subscribed(ls: map<string, seq<Callback>>, id: string, cb: Callback): map<string, seq<Callback>> {
    ls[id := Added(SubscribersOf(ls, id), cb)]
  }

  /** The listeners after the unsubscribe closure for (`id`, `cb`) runs. */
  function Unsubscribed(ls: map<string, seq<Callback>>, id: string, cb: Callback): map<string, seq<Callback>> {
    if id !in ls then ls
    else
      var s := Removed(ls[id], cb);
      if |s| == 0 then ls - {id} else ls[id := s]
  }

  /**
   * Unsubscribing removes only `cb`, and only from `id`, and drops `id` once nothing is left;
   * doing it a second time changes nothing.
   */
  lemma UnsubscribedFacts(ls: map<string, seq<Callback>>, id: string, cb: Callback)
    ensures var u := Unsubscribed(ls, id, cb);
      && (forall k :: k != id ==> (k in u <==> k in ls) && (k in ls ==> u[k] == ls[k]))
      && (forall c :: c in SubscribersOf(u, id) <==> c in SubscribersOf(ls, id) && c != cb)
      && (id in u ==> u[id] != [])
      && Unsubscribed(u, id, cb) == u
  {
    if id in ls {
      RemovedFacts(ls[id], cb);
      var s := Removed(ls[id], cb);
      if |s| != 0 {
        assert Unsubscribed(ls, id, cb) == ls[id := s];
      }
    }
  }

  /** Subscribing a new callback and then unsubscribing it restores the listeners. */
  lemma SubscribeThenUnsubscribe(ls: map<string, seq<Callback>>, id: string, cb: Callback)
    requires cb !in SubscribersOf(ls, id)
    requires id in ls ==> ls[id] != []
    ensures Unsubscribed(Subscribed(ls, id, cb), id, cb) == ls
  {
    var s := SubscribersOf(ls, id);
    RemovedAppend(s, cb);
    RemovedFacts(s, cb);
    if id !in ls {
      assert Removed(s + [cb], cb) == [];
    }
  }

  /** The module-level `store` and `listeners` maps, and the calls made on subscribed callbacks. */
  class LogStore {
    /** The entries of each log id. */
    var buffers: map<string, seq<Entry>>
    /** The keys of `buffers` in insertion order, as `store.keys()` yields them. */
    var order: seq<string>
    /** The callbacks of each log id, in subscription order. */
    var listeners: map<string, seq<Callback>>
    /** Every call made on a callback so far, with its argument. */
    var delivered: seq<(Callback, Entry)>

    ghost predicate Valid()
      reads this
    {
      && NoDuplicates(order)
      && (forall id :: id in buffers <==> id in order)
      && "" !in buffers
      && (forall id :: id in buffers ==> 0 < |buffers[id]| <= Limit)
      && (forall id :: id in listeners ==> listeners[id] != [] && NoDuplicates(listeners[id]))
    }

    constructor ()
      ensures Valid()
      ensures buffers == map[] && order == [] && listeners == map[] && delivered == []
    {
      buffers, order, listeners, delivered := map[], [], map[], [];
    }

    /** `getServerLogs(logId)`: the entries of `logId`, empty for an unknown id. */
    function GetServerLogs(logId: string): (r: seq<Entry>)
      reads this
      requires Valid()
      ensures r == [] <==> logId !in buffers
      ensures logId in buffers ==> r == buffers[logId]
      ensures |r| <= Limit
    {
      if logId in buffers then buffers[logId] else []
    }

    /** `listServerLogIds()`: every id with entries, once each, oldest first. */
    function ListServerLogIds(): (r: seq<string>)
      reads this
      requires Valid()
      ensures NoDuplicates(r)
      ensures forall id :: id in r <==> id in buffers
    {
      order
    }

    /** The callbacks subscribed to `logId`. */
    function Subscribers(logId: string): seq<Callback>
      reads this
    {
      SubscribersOf(listeners, logId)
    }

    /**
     * `addServerLog(logId, { level, message, extra })` at time `time`; `throws` says which
     * callbacks throw. Returns whether one did: the throw then leaves this call with the entry
     * already stored.
     */
    method AddServerLog(logId: string, level: string, message: string, extra: Option<Json>, time: string,
                        throws: Callback -> bool) returns (threw: bool)
      requires Valid()
      modifies this
      ensures Valid()
      ensures logId == "" ==>
        buffers == old(buffers) && order == old(order) && listeners == old(listeners) && delivered == old(delivered) && !threw
      ensures logId != "" ==>
        var e := Entry(time, level, message, extra);
        && buffers == old(buffers)[logId := Appended(old(GetServerLogs(logId)), e)]
        && order == (if logId in old(buffers) then old(order) else old(order) + [logId])
        && listeners == old(listeners)
        && delivered == old(delivered) + Notified(old(Subscribers(logId)), e, throws)
        && threw == Threw(old(Subscribers(logId)), throws)
    {
      if logId == "" {
        return false;
      }
      var arr := if logId in buffers then buffers[logId] else [];
      arr := arr + [Entry(time, level, message, extra)];
      if |arr| > Limit {
        arr := arr[|arr| - Limit..];
      }
      if logId !in buffers {
        order := order + [logId];
      }
      buffers := buffers[logId := arr];
      var subs := Subscribers(logId);
      threw := Notify(subs, arr[|arr| - 1], throws);
    }

    /** The loop calling each callback of `cbs` with `e`, stopping at a throw. */
    method Notify(cbs: seq<Callback>, e: Entry, throws: Callback -> bool) returns (threw: bool)
      modifies this
      ensures buffers == old(buffers) && order == old(order) && listeners == old(listeners)
      ensures delivered == old(delivered) + Notified(cbs, e, throws)
      ensures threw == Threw(cbs, throws)
    {
      var i := 0;
      threw := false;
      while i < |cbs| && !threw
        invariant 0 <= i <= |cbs|
        invariant buffers == old(buffers) && order == old(order) && listeners == old(listeners)
        invariant delivered == old(delivered) + Notified(cbs[..i], e, throws)
        invariant threw == Threw(cbs[..i], throws)
      {
        var p := cbs[..i + 1];
        assert p[..i] == cbs[..i];
        delivered := delivered + [(cbs[i], e)];
        threw := throws(cbs[i]);
        if threw {
          assert throws(p[i]);
        } else {
          assert forall j :: 0 <= j < i ==> p[j] == cbs[..i][j];
        }
        i := i + 1;
      }
      if threw {
        NotifiedStops(cbs, i, e, throws);
      } else {
        assert cbs[..i] == cbs;
      }
    }

    /** `clearServerLogs(logId)`: drops that id's entries only. */
    method ClearServerLogs(logId: string)
      requires Valid()
      modifies this
      ensures Valid()
      ensures buffers == old(buffers) - {logId} && order == Removed(old(order), logId)
      ensures listeners == old(listeners) && delivered == old(delivered)
    {
      var b, o := buffers - {logId}, Removed(order, logId);
      RemovedFacts(order, logId);
      forall id ensures id in b <==> id in o {
        assert id in o <==> id in order && id != logId;
      }
      forall id | id in b ensures 0 < |b[id]| <= Limit {
        assert b[id] == buffers[id];
      }
      buffers, order := b, o;
    }

    /** `subscribeServerLogs(logId, cb)`; the closure it returns is `Unsubscribe(logId, cb)`. */
    method Subscribe(logId: string, cb: Callback)
      requires Valid()
      modifies this
      ensures Valid()
      ensures listeners == Subscribed(old(listeners), logId, cb)
      ensures buffers == old(buffers) && order == old(order) && delivered == old(delivered)
    {
      var subs := Subscribers(logId);
      AddedFacts(subs, cb);
      listeners := listeners[logId := Added(subs, cb)];
    }

    /** The unsubscribe closure returned for (`logId`, `cb`). */
    method Unsubscribe(logId: string, cb: Callback)
      requires Valid()
      modifies this
      ensures Valid()
      ensures listeners == Unsubscribed(old(listeners), logId, cb)
      ensures buffers == old(buffers) && order == old(order) && delivered == old(delivered)
    {
      if logId !in listeners {
        return;
      }
      var s := Removed(listeners[logId], cb);
      RemovedFacts(listeners[logId], cb);
      ghost var u := Unsubscribed(listeners, logId, cb);
      if |s| == 0 {
        listeners := listeners - {logId};
      } else {
        listeners := listeners[logId := s];
      }
      assert listeners == u;
    }
  }
}
