/**
 * The diagnostics log: a newest-first list of at most fifty records and a
 * registry of listeners that are called with the whole list whenever it
 * changes. Record ids and timestamps (drawn from `Math.random` and the clock)
 * arrive as a `Stamp`; a listener is identified by a number, and every call
 * made to one is appended to the `delivered` trace.
 */
module Logging {
  import opened Types

  const MAX_LOGS: nat := 50

  const SYS_INIT_ID := "sys-init"
  const SYS_INIT_ENDPOINT := "SYSTEM_BOOT"
  const SYS_INIT_DETAILS := "AetherPredict Shield initialized. Using Mock Data for Cyclone Ditwah (Public Domain)."

  /** The id and timestamp the store gives a new record. */
  datatype Stamp = Stamp(id: string, timestamp: string)

  /** A listener function, by identity. */
  type ListenerId = nat

  /** One call `listener(logs)`. */
  datatype Delivery = Delivery(listener: ListenerId, snapshot: seq<ApiLog>)

  function Min(a: nat, b: nat): nat { if a <= b then a else b }

  /** The record pushed when the store is loaded. */
  function SysInit(timestamp: string): ApiLog
  {
    ApiLog(SYS_INIT_ID, timestamp, SYS_INIT_ENDPOINT, Success, 0, SYS_INIT_DETAILS)
  }

  /** `{ id, timestamp, ...log }`. */
  function Entry(log: LogInput, stamp: Stamp): ApiLog
  {
    ApiLog(stamp.id, stamp.timestamp, log.endpoint, log.status, log.latencyMs, log.details)
  }

  /** `[entry, ...logs].slice(0, 50)`: the new record first, the previous
      ones behind it in their order, and only the oldest dropped when the
      list was full. */
  function Prepend(logs: seq<ApiLog>, entry: ApiLog): (r: seq<ApiLog>)
    ensures |r| == Min(|logs| + 1, MAX_LOGS)
    ensures r[0] == entry
    ensures forall i :: 1 <= i < |r| ==> r[i] == logs[i - 1]
    ensures |logs| < MAX_LOGS ==> r == [entry] + logs
    ensures |logs| == MAX_LOGS ==> r == [entry] + logs[..MAX_LOGS - 1]
  {
    ([entry] + logs)[..Min(|logs| + 1, MAX_LOGS)]
  }

  /** The fifty most recent of `records` (given oldest first), newest first. */
  ghost function Newest(records: seq<ApiLog>): seq<ApiLog>
  {
    seq(Min(|records|, MAX_LOGS), i requires 0 <= i < Min(|records|, MAX_LOGS) => records[|records| - 1 - i])
  }

  /** Prepending to the newest-first window of a history is the window of the
      history extended by that record: the store never holds more than the
      fifty latest records, in reverse order of arrival. */
  lemma PrependNewest(records: seq<ApiLog>, entry: ApiLog)
    ensures Prepend(Newest(records), entry) == Newest(records + [entry])
    ensures |Newest(records + [entry])| <= MAX_LOGS
  {
    var a, b := Prepend(Newest(records), entry), Newest(records + [entry]);
    assert |a| == |b|;
    forall i | 0 <= i < |a| ensures a[i] == b[i] {
      if i > 0 {
        assert a[i] == Newest(records)[i - 1];
      }
    }
  }

  /** All calls `listeners.forEach(l => l(snapshot))` makes, in order. */
  function Broadcast(listeners: seq<ListenerId>, snapshot: seq<ApiLog>): (r: seq<Delivery>)
    ensures |r| == |listeners|
    ensures forall i :: 0 <= i < |r| ==> r[i].listener == listeners[i] && r[i].snapshot == snapshot
  {
    seq(|listeners|, i requires 0 <= i < |listeners| => Delivery(listeners[i], snapshot))
  }

  /** The calls made to `listeners` while the records `added` are added one
      by one to a store whose history was `records`. */
  ghost function Deliveries(listeners: seq<ListenerId>, records: seq<ApiLog>, added: seq<ApiLog>): seq<Delivery>
    decreases |added|
  {
    if added == [] then []
    else Broadcast(listeners, Newest(records + [added[0]])) + Deliveries(listeners, records + [added[0]], added[1..])
  }

  /** `listeners.indexOf(l)`: the first position of `l`, or -1. */
  function FirstIndex(listeners: seq<ListenerId>, l: ListenerId): (r: int)
    ensures -1 <= r < |listeners|
    ensures r >= 0 ==> listeners[r] == l && l !in listeners[..r]
    ensures r == -1 <==> l !in listeners
  {
    if |listeners| == 0 then -1
    else if listeners[0] == l then 0
    else
      var k := FirstIndex(listeners[1..], l);
      assert k >= 0 ==> listeners[..k + 1] == [listeners[0]] + listeners[1..][..k];
      if k < 0 then -1 else k + 1
  }

  /** The registry after the unsubscribe closure of `l` ran:
      `if (index > -1) listeners.splice(index, 1)`. */
  function Unsubscribed(listeners: seq<ListenerId>, l: ListenerId): seq<ListenerId>
  {
    var index := FirstIndex(listeners, l);
    if index > -1 then listeners[..index] + listeners[index + 1..] else listeners
  }

  /** Unsubscribing removes exactly one occurrence of the listener when it is
      registered, leaves every other listener's count alone, and does nothing
      when it is not registered. */
  lemma UnsubscribeRemovesOne(listeners: seq<ListenerId>, l: ListenerId)
    ensures l in listeners ==> multiset(Unsubscribed(listeners, l)) == multiset(listeners) - multiset{l}
    ensures l !in listeners ==> Unsubscribed(listeners, l) == listeners
    ensures forall m :: m != l ==> multiset(Unsubscribed(listeners, l))[m] == multiset(listeners)[m]
  {
    var index := FirstIndex(listeners, l);
    if index > -1 {
      assert listeners == listeners[..index] + [l] + listeners[index + 1..];
      calc {
        multiset(listeners);
        multiset(listeners[..index]) + multiset{l} + multiset(listeners[index + 1..]);
        multiset(listeners[..index] + listeners[index + 1..]) + multiset{l};
      }
    }
  }

  /** A listener registered once is gone after its unsubscribe ran, so a
      second call of the same closure finds index -1 and changes nothing. */
  lemma UnsubscribeTwiceIsNoOp(listeners: seq<ListenerId>, l: ListenerId)
    requires multiset(listeners)[l] == 1
    ensures l !in Unsubscribed(listeners, l)
    ensures Unsubscribed(Unsubscribed(listeners, l), l) == Unsubscribed(listeners, l)
  {
    UnsubscribeRemovesOne(listeners, l);
    assert multiset(Unsubscribed(listeners, l))[l] == 0;
  }

  /** The module-level state of the logging service. */
  class LogStore {
    /** `logs`, newest first. */
    var logs: seq<ApiLog>
    /** `listeners`, in subscription order. */
    var listeners: seq<ListenerId>
    /** Every call made to a listener so far. */
    var delivered: seq<Delivery>
    /** Every record ever added, oldest first, the boot record included. */
    ghost var records: seq<ApiLog>

    ghost predicate Valid()
      reads this
    {
      && |records| >= 1
      && records[0].id == SYS_INIT_ID && records[0].status == Success
      && logs == Newest(records)
    }

    /** Loading the module: the log holds only the boot record. */
    constructor (bootTime: string)
      ensures Valid()
      ensures logs == [SysInit(bootTime)] && records == [SysInit(bootTime)]
      ensures listeners == [] && delivered == []
    {
      logs := [SysInit(bootTime)];
      records := [SysInit(bootTime)];
      listeners := [];
      delivered := [];
    }

    /** `addLog`: stamp the record, prepend it keeping fifty, and call every
        listener once with the new list. */
    method AddLog(log: LogInput, stamp: Stamp)
      requires Valid()
      modifies this`logs, this`records, this`delivered
      ensures Valid()
      ensures logs == Prepend(old(logs), Entry(log, stamp))
      ensures logs[0] == ApiLog(stamp.id, stamp.timestamp, log.endpoint, log.status, log.latencyMs, log.details)
      ensures |logs| <= MAX_LOGS
      ensures records == old(records) + [Entry(log, stamp)]
      ensures delivered == old(delivered) + Broadcast(listeners, logs)
    {
      PrependNewest(records, Entry(log, stamp));
      logs := Prepend(logs, Entry(log, stamp));
      records := records + [Entry(log, stamp)];
      NotifyListeners();
    }

    /** `getLogs`. */
    method GetLogs() returns (r: seq<ApiLog>)
      requires Valid()
      ensures r == logs && |r| <= MAX_LOGS
    {
      r := logs;
    }

    /** `subscribeLogs`: register the listener and call it at once with the
        current list. The returned closure is `Unsubscribe(listener)`. */
    method Subscribe(listener: ListenerId)
      modifies this`listeners, this`delivered
      ensures listeners == old(listeners) + [listener]
      ensures delivered == old(delivered) + [Delivery(listener, logs)]
    {
      listeners := listeners + [listener];
      delivered := delivered + [Delivery(listener, logs)];
    }

    /** The closure `subscribeLogs` returns for `listener`. */
    method Unsubscribe(listener: ListenerId)
      modifies this`listeners
      ensures listeners == Unsubscribed(old(listeners), listener)
    {
      var index := FirstIndex(listeners, listener);
      if index > -1 {
        listeners := listeners[..index] + listeners[index + 1..];
      }
    }

    /** `notifyListeners`: each registered listener once, in order. */
    method NotifyListeners()
      modifies this`delivered
      ensures delivered == old(delivered) + Broadcast(listeners, logs)
    {
      var i := 0;
      while i < |listeners|
        invariant 0 <= i <= |listeners|
        invariant delivered == old(delivered) + Broadcast(listeners[..i], logs)
      {
        assert Broadcast(listeners[..i + 1], logs) == Broadcast(listeners[..i], logs) + [Delivery(listeners[i], logs)];
        delivered := delivered + [Delivery(listeners[i], logs)];
        i := i + 1;
      }
      assert listeners[..i] == listeners;
    }
  }
}
