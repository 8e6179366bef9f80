/**
 * The notification store: the list of toasts on screen. `add` appends a
 * message under a freshly generated id and, for a positive timeout, schedules
 * its removal; `remove` filters a message out by id.
 */
module Notification {
  import opened Wrappers

  datatype Kind = Info | Error | Success | Warning

  datatype Message = Message(id: string, message: string, title: Option<string>, kind: Kind)

  /** A removal scheduled by `add`: the timer will call `remove(id)` after `timeout` ms. */
  datatype Expiry = Expiry(id: string, timeout: int)

  /** The timeout `add` uses when none is given. */
  const DefaultTimeout := 5000

  /** `ms.filter(i => i.id !== id)` */
  function Without(ms: seq<Message>, id: string): (r: seq<Message>)
    ensures |r| <= |ms|
    ensures forall m :: m in r <==> m in ms && m.id != id
  {
    if ms == [] then []
    else (if ms[0].id != id then [ms[0]] else []) + Without(ms[1..], id)
  }

  /** Filtering distributes over concatenation, so the kept entries keep their order. */
  lemma {:induction false} WithoutAppend(a: seq<Message>, b: seq<Message>, id: string)
    ensures Without(a + b, id) == Without(a, id) + Without(b, id)
  {
    if a == [] {
      assert a + b == b;
    } else {
      assert (a + b)[1..] == a[1..] + b;
      WithoutAppend(a[1..], b, id);
    }
  }

  /** Removing an id no entry carries changes nothing. */
  lemma {:induction false} WithoutAbsent(ms: seq<Message>, id: string)
    requires forall m :: m in ms ==> m.id != id
    ensures Without(ms, id) == ms
  {
    if ms != [] {
      WithoutAbsent(ms[1..], id);
    }
  }

  /** Removing twice is removing once. */
  lemma WithoutIdempotent(ms: seq<Message>, id: string)
    ensures Without(Without(ms, id), id) == Without(ms, id)
  {
    WithoutAbsent(Without(ms, id), id);
  }

  /** Removing one id never touches the entries of another. */
  lemma {:induction false} WithoutCommutes(ms: seq<Message>, id: string, id': string)
    ensures Without(Without(ms, id), id') == Without(Without(ms, id'), id)
  {
    if ms != [] {
      WithoutAppend([ms[0]], ms[1..], id);
      WithoutCommutes(ms[1..], id, id');
      assert [ms[0]] + ms[1..] == ms;
      WithoutAppend(Without([ms[0]], id), Without(ms[1..], id), id');
      WithoutAppend(Without([ms[0]], id'), Without(ms[1..], id'), id);
    }
  }

  /** Adding a message under a fresh id and then removing that id restores the list. */
  lemma AddThenRemove(ms: seq<Message>, m: Message)
    requires forall x :: x in ms ==> x.id != m.id
    ensures Without(ms + [m], m.id) == ms
  {
    WithoutAppend(ms, [m], m.id);
    WithoutAbsent(ms, m.id);
  }

  class NotificationStore {
    var messages: seq<Message>
    /** Removals scheduled and not yet fired, in the order they were scheduled. */
    var pending: seq<Expiry>
    /** Every id handed out so far; a generated id is never reused. */
    ghost var issued: set<string>

    ghost predicate Valid()
      reads this
    {
      && (forall m :: m in messages ==> m.id in issued)
      && (forall e :: e in pending ==> e.id in issued)
    }

    constructor ()
      ensures Valid()
      ensures messages == [] && pending == [] && issued == {}
    {
      messages, pending, issued := [], [], {};
    }

    /**
     * `add(message, type = "info", title, timeout = 5000)` with `id` the
     * generated uuid: appends one message and schedules its removal only for
     * a positive timeout.
     */
    method Add(message: string, kind: Option<Kind>, title: Option<string>, timeout: Option<int>, id: string)
      requires Valid() && id !in issued
      modifies this
      ensures Valid() && issued == old(issued) + {id}
      ensures messages == old(messages) + [Message(id, message, title, kind.GetOr(Kind.Info))]
      ensures timeout.GetOr(DefaultTimeout) > 0 ==>
                pending == old(pending) + [Expiry(id, timeout.GetOr(DefaultTimeout))]
      ensures timeout.GetOr(DefaultTimeout) <= 0 ==> pending == old(pending)
    {
      var t := timeout.GetOr(DefaultTimeout);
      messages := messages + [Message(id, message, title, kind.GetOr(Kind.Info))];
      issued := issued + {id};
      if t > 0 {
        pending := pending + [Expiry(id, t)];
      }
    }

    /** `remove(id)`: drops every entry with that id and keeps the others in order. */
    method Remove(id: string)
      requires Valid()
      modifies this
      ensures Valid() && issued == old(issued) && pending == old(pending)
      ensures messages == Without(old(messages), id)
    {
      messages := Without(messages, id);
    }

    /** The timer of `pending[k]` fires and calls `remove` with its id. */
    method Expire(k: nat)
      requires Valid() && k < |pending|
      modifies this
      ensures Valid() && issued == old(issued)
      ensures pending == old(pending[..k] + pending[k + 1..])
      ensures messages == Without(old(messages), old(pending[k].id))
    {
      var id := pending[k].id;
      pending := pending[..k] + pending[k + 1..];
      assert forall e :: e in pending ==> e in old(pending);
      Remove(id);
    }

    /** `info(message, title, timeout)` */
    method Info(message: string, title: Option<string>, timeout: Option<int>, id: string)
      requires Valid() && id !in issued
      modifies this
      ensures Valid() && issued == old(issued) + {id}
      ensures messages == old(messages) + [Message(id, message, title, Kind.Info)]
      ensures pending == old(pending) + ScheduledBy(id, timeout)
    {
      Add(message, Some(Kind.Info), title, timeout, id);
    }

    /** `error(message, title, timeout)` */
    method Error(message: string, title: Option<string>, timeout: Option<int>, id: string)
      requires Valid() && id !in issued
      modifies this
      ensures Valid() && issued == old(issued) + {id}
      ensures messages == old(messages) + [Message(id, message, title, Kind.Error)]
      ensures pending == old(pending) + ScheduledBy(id, timeout)
    {
      Add(message, Some(Kind.Error), title, timeout, id);
    }

    /** `success(message, title, timeout)` */
    method Success(message: string, title: Option<string>, timeout: Option<int>, id: string)
      requires Valid() && id !in issued
      modifies this
      ensures Valid() && issued == old(issued) + {id}
      ensures messages == old(messages) + [Message(id, message, title, Kind.Success)]
      ensures pending == old(pending) + ScheduledBy(id, timeout)
    {
      Add(message, Some(Kind.Success), title, timeout, id);
    }

    /** `warning(message, title, timeout)` */
    method Warning(message: string, title: Option<string>, timeout: Option<int>, id: string)
      requires Valid() && id !in issued
      modifies this
      ensures Valid() && issued == old(issued) + {id}
      ensures messages == old(messages) + [Message(id, message, title, Kind.Warning)]
      ensures pending == old(pending) + ScheduledBy(id, timeout)
    {
      Add(message, Some(Kind.Warning), title, timeout, id);
    }
  }

  /** The removal `add` schedules for a message: one for a positive timeout, none otherwise. */
  function ScheduledBy(id: string, timeout: Option<int>): (r: seq<Expiry>)
    ensures |r| <= 1
    ensures r != [] <==> timeout.GetOr(DefaultTimeout) > 0
    ensures r != [] ==> r == [Expiry(id, timeout.GetOr(DefaultTimeout))]
    ensures timeout.None? ==> r == [Expiry(id, DefaultTimeout)]
  {
    var t := timeout.GetOr(DefaultTimeout);
    if t > 0 then [Expiry(id, t)] else []
  }
}
