/**
  The first-come first-served waiter queue shared by the semaphore, the mutex
  and the read-write lock: each waiter has a ticket (its identifier), the kind
  of request it makes, and the waker of the task that polled it last.
 */
module WaitQueue {
  import opened Base

  datatype Waiter<+K> = Waiter(id: nat, kind: K, waker: nat)

  /** An acquisition future: the request, its ticket while queued, and whether it still exists. */
  datatype Future<+K> = Future(kind: K, waiter: Option<nat>, live: bool)

  /** Tickets start at 1 and wrap from the largest 64-bit value back to 1. */
  function NextId(id: nat): nat {
    if id >= U64_MAX then 1 else id + 1
  }

  /** The tickets woken, after one more wake. */
  function Signal<K>(signalled: set<nat>, wake: Option<Waiter<K>>): set<nat> {
    if wake.Some? then signalled + {wake.value.id} else signalled
  }

  /** The first position holding ticket `id`. */
  function Position<K>(q: seq<Waiter<K>>, id: nat): (r: Option<nat>)
    ensures r.None? ==> forall k :: 0 <= k < |q| ==> q[k].id != id
    ensures r.Some? ==> r.value < |q| && q[r.value].id == id
    ensures r.Some? ==> forall k :: 0 <= k < r.value ==> q[k].id != id
  {
    if q == [] then None
    else if q[0].id == id then Some(0)
    else
      match Position(q[1..], id)
      case None => None
      case Some(p) => Some(p + 1)
  }

  /** The linear search the code makes for a ticket. */
  method Find<K>(q: seq<Waiter<K>>, id: nat) returns (r: Option<nat>)
    ensures r == Position(q, id)
  {
    var k := 0;
    while k < |q| && q[k].id != id
      invariant 0 <= k <= |q|
      invariant forall j :: 0 <= j < k ==> q[j].id != id
    {
      k := k + 1;
    }
    r := if k < |q| then Some(k) else None;
  }

  /** The queue after the holder of ticket `id` gives up. */
  function Remove<K>(q: seq<Waiter<K>>, id: nat): seq<Waiter<K>> {
    match Position(q, id)
    case None => q
    case Some(p) => Without(q, p)
  }

  /** Where each entry goes when one leaves. */
  lemma RemoveShifts<K>(q: seq<Waiter<K>>, id: nat, p: nat)
    requires Position(q, id) == Some(p)
    ensures |Remove(q, id)| == |q| - 1
    ensures forall k :: 0 <= k < p ==> Remove(q, id)[k] == q[k]
    ensures forall k :: p <= k < |q| - 1 ==> Remove(q, id)[k] == q[k + 1]
  {
    WithoutShifts(q, p);
    assert Remove(q, id) == Without(q, p);
  }

  /** Tickets increase along the queue and all lie below the next one to be issued. */
  ghost predicate Ordered<K>(q: seq<Waiter<K>>, next: nat) {
    && (forall k :: 0 <= k < |q| ==> 1 <= q[k].id < next)
    && (forall j, k :: 0 <= j < k < |q| ==> q[j].id < q[k].id)
  }

  /** The queue holds this future's ticket, with this future's request. */
  ghost predicate Queued<K>(q: seq<Waiter<K>>, f: Future<K>)
    requires f.waiter.Some?
  {
    exists k :: 0 <= k < |q| && q[k].id == f.waiter.value && q[k].kind == f.kind
  }

  /** Some live future holds ticket `id`. */
  ghost predicate Owned<K>(futs: seq<Future<K>>, id: nat) {
    exists i :: 0 <= i < |futs| && futs[i].live && futs[i].waiter == Some(id)
  }

  ghost predicate DistinctTickets<K>(futs: seq<Future<K>>) {
    forall i, j :: 0 <= i < j < |futs| && futs[i].waiter.Some? ==> futs[i].waiter != futs[j].waiter
  }

  /** Queue entries and ticket-holding futures correspond one to one. */
  ghost predicate Linked<K>(q: seq<Waiter<K>>, futs: seq<Future<K>>, next: nat) {
    && Ordered(q, next)
    && (forall i :: 0 <= i < |futs| && futs[i].waiter.Some? ==> futs[i].live && Queued(q, futs[i]))
    && DistinctTickets(futs)
    && (forall k :: 0 <= k < |q| ==> Owned(futs, q[k].id))
  }

  /** Tickets and positions determine each other in an ordered queue. */
  lemma PositionAt<K>(q: seq<Waiter<K>>, next: nat, k: nat)
    requires Ordered(q, next) && k < |q|
    ensures Position(q, q[k].id) == Some(k)
  {
    assert forall j :: 0 <= j < k ==> q[j].id != q[k].id;
  }

  /** The queue entry of a ticket-holding future carries that future's request. */
  lemma TicketRequest<K>(q: seq<Waiter<K>>, futs: seq<Future<K>>, next: nat, i: nat)
    requires Linked(q, futs, next) && i < |futs| && futs[i].waiter.Some?
    ensures var p := Position(q, futs[i].waiter.value);
            p.Some? && q[p.value].kind == futs[i].kind
  {
    assert Queued(q, futs[i]);
    var k :| 0 <= k < |q| && q[k].id == futs[i].waiter.value && q[k].kind == futs[i].kind;
    PositionAt(q, next, k);
  }

  lemma LinkedEnqueue<K>(q: seq<Waiter<K>>, futs: seq<Future<K>>, next: nat, i: nat, waker: nat)
    requires Linked(q, futs, next) && i < |futs| && futs[i].live && futs[i].waiter.None? && 1 <= next
    ensures Linked(q + [Waiter(next, futs[i].kind, waker)], futs[i := futs[i].(waiter := Some(next))], next + 1)
  {
    var q' := q + [Waiter(next, futs[i].kind, waker)];
    var futs' := futs[i := futs[i].(waiter := Some(next))];
    forall j | 0 <= j < |futs'| && futs'[j].waiter.Some?
      ensures futs'[j].live && Queued(q', futs'[j])
    {
      if j == i {
        assert q'[|q|].id == next;
      } else {
        assert Queued(q, futs[j]);
        var k :| 0 <= k < |q| && q[k].id == futs[j].waiter.value && q[k].kind == futs[j].kind;
        assert q'[k] == q[k];
      }
    }
    forall a, b | 0 <= a < b < |futs'| && futs'[a].waiter.Some?
      ensures futs'[a].waiter != futs'[b].waiter
    {
      if a == i && futs[b].waiter.Some? { assert Queued(q, futs[b]); }
      if b == i { assert Queued(q, futs[a]); }
    }
    forall k | 0 <= k < |q'| ensures Owned(futs', q'[k].id) {
      if k < |q| {
        assert Owned(futs, q[k].id);
        var j :| 0 <= j < |futs| && futs[j].live && futs[j].waiter == Some(q[k].id);
        assert futs'[j] == futs[j];
      } else {
        assert futs'[i].waiter == Some(q'[k].id);
      }
    }
  }

  /** Giving up a ticket keeps the others in order. */
  lemma OrderedRemove<K>(q: seq<Waiter<K>>, next: nat, id: nat)
    requires Ordered(q, next)
    ensures Ordered(Remove(q, id), next)
    ensures forall k :: 0 <= k < |Remove(q, id)| ==> Remove(q, id)[k] in q && Remove(q, id)[k].id != id
  {
    if Position(q, id).Some? {
      var p := Position(q, id).value;
      RemoveShifts(q, id, p);
      forall k | 0 <= k < |q| - 1 ensures Remove(q, id)[k] == q[if k < p then k else k + 1] {
      }
    }
  }

  /** A ticket other than the one that leaves stays queued. */
  lemma StaysQueued<K>(q: seq<Waiter<K>>, id: nat, f: Future<K>)
    requires f.waiter.Some? && f.waiter.value != id && Queued(q, f)
    ensures Queued(Remove(q, id), f)
  {
    if Position(q, id).Some? {
      var p := Position(q, id).value;
      RemoveShifts(q, id, p);
      var k :| 0 <= k < |q| && q[k].id == f.waiter.value && q[k].kind == f.kind;
      var o := if k < p then k else k - 1;
      assert k != p && Remove(q, id)[o] == q[k];
    }
  }

  /** The owner of a ticket other than the one that leaves still owns it. */
  lemma StaysOwned<K>(futs: seq<Future<K>>, i: nat, f: Future<K>, id: nat)
    requires i < |futs| && futs[i].waiter != Some(id) && Owned(futs, id)
    ensures Owned(futs[i := f], id)
  {
    var j :| 0 <= j < |futs| && futs[j].live && futs[j].waiter == Some(id);
    assert futs[i := f][j] == futs[j];
  }

  /** Future `i` leaves the queue: granted from the front or given up from anywhere. */
  lemma LinkedLeave<K>(q: seq<Waiter<K>>, futs: seq<Future<K>>, next: nat, i: nat, live: bool)
    requires Linked(q, futs, next) && i < |futs| && futs[i].waiter.Some?
    ensures Position(q, futs[i].waiter.value).Some?
    ensures Linked(Remove(q, futs[i].waiter.value), futs[i := futs[i].(waiter := None, live := live)], next)
  {
    var id := futs[i].waiter.value;
    assert Queued(q, futs[i]);
    var q' := Remove(q, id);
    var f := futs[i].(waiter := None, live := live);
    var futs' := futs[i := f];
    OrderedRemove(q, next, id);
    forall j | 0 <= j < |futs'| && futs'[j].waiter.Some?
      ensures futs'[j].live && Queued(q', futs'[j])
    {
      assert futs'[j] == futs[j] && futs[j].waiter != futs[i].waiter;
      StaysQueued(q, id, futs[j]);
    }
    forall k | 0 <= k < |q'| ensures Owned(futs', q'[k].id) {
      var o :| 0 <= o < |q| && q'[k] == q[o];
      StaysOwned(futs, i, f, q[o].id);
    }
  }

  /** A queued future is polled again with another waker. */
  lemma LinkedRewake<K>(q: seq<Waiter<K>>, futs: seq<Future<K>>, next: nat, p: nat, waker: nat)
    requires Linked(q, futs, next) && p < |q|
    ensures Linked(q[p := q[p].(waker := waker)], futs, next)
  {
    var q' := q[p := q[p].(waker := waker)];
    forall j | 0 <= j < |futs| && futs[j].waiter.Some? ensures Queued(q', futs[j]) {
      assert Queued(q, futs[j]);
      var k :| 0 <= k < |q| && q[k].id == futs[j].waiter.value && q[k].kind == futs[j].kind;
      assert q'[k].id == q[k].id;
    }
    forall k | 0 <= k < |q'| ensures Owned(futs, q'[k].id) {
      assert Owned(futs, q[k].id);
    }
  }

  /** A future without a ticket appears, or one without a ticket is dropped. */
  lemma LinkedIdle<K>(q: seq<Waiter<K>>, futs: seq<Future<K>>, futs': seq<Future<K>>, next: nat)
    requires Linked(q, futs, next) && |futs| <= |futs'|
    requires forall j :: 0 <= j < |futs| ==> futs'[j] == futs[j] || (futs[j].waiter.None? && futs'[j].waiter.None?)
    requires forall j :: |futs| <= j < |futs'| ==> futs'[j].waiter.None?
    ensures Linked(q, futs', next)
  {
    forall k | 0 <= k < |q| ensures Owned(futs', q[k].id) {
      assert Owned(futs, q[k].id);
      var j :| 0 <= j < |futs| && futs[j].live && futs[j].waiter == Some(q[k].id);
      assert futs'[j] == futs[j];
    }
  }

  /**
    The history of a queue: the tickets granted so far, in order, and the
    tickets given up. Every ticket issued is in exactly one of the three
    places, and grants followed by the queue are in the order of issue.
   */
  datatype History = History(granted: seq<nat>, gone: set<nat>)

  ghost predicate Increasing(s: seq<nat>) {
    forall j, k :: 0 <= j < k < |s| ==> s[j] < s[k]
  }

  ghost predicate InLine<K>(q: seq<Waiter<K>>, id: nat) {
    exists k :: 0 <= k < |q| && q[k].id == id
  }

  ghost predicate FirstComeFirstServed<K>(q: seq<Waiter<K>>, h: History, next: nat) {
    && Ordered(q, next)
    && Increasing(h.granted)
    && (forall j, k :: 0 <= j < |h.granted| && 0 <= k < |q| ==> h.granted[j] < q[k].id)
    && (forall j :: 0 <= j < |h.granted| ==> 1 <= h.granted[j] < next && h.granted[j] !in h.gone)
    && (forall k :: 0 <= k < |q| ==> q[k].id !in h.gone)
    && (forall id :: id in h.gone ==> 1 <= id < next)
    && (forall id :: 1 <= id < next ==> id in h.granted || id in h.gone || InLine(q, id))
  }

  lemma FcfsEnqueue<K>(q: seq<Waiter<K>>, h: History, next: nat, kind: K, waker: nat)
    requires FirstComeFirstServed(q, h, next) && 1 <= next
    ensures FirstComeFirstServed(q + [Waiter(next, kind, waker)], h, next + 1)
  {
    var q' := q + [Waiter(next, kind, waker)];
    assert q'[|q|].id == next;
    assert forall k :: 0 <= k < |q| ==> q'[k] == q[k];
    forall j, k | 0 <= j < |h.granted| && 0 <= k < |q'| ensures h.granted[j] < q'[k].id {
      assert k < |q| ==> h.granted[j] < q[k].id;
    }
    forall id | 1 <= id < next + 1 ensures id in h.granted || id in h.gone || InLine(q', id) {
      if id == next {
        assert InLine(q', id);
      } else if InLine(q, id) {
        var k :| 0 <= k < |q| && q[k].id == id;
        assert q'[k].id == id;
      }
    }
  }

  lemma GrantCovers<K>(q: seq<Waiter<K>>, granted: seq<nat>, id: nat)
    requires q != [] && (id in granted || InLine(q, id))
    ensures id in granted + [q[0].id] || InLine(q[1..], id)
  {
    if id !in granted && id != q[0].id {
      var k :| 0 <= k < |q| && q[k].id == id;
      assert q[1..][k - 1].id == id;
    }
  }

  lemma FcfsGrant<K>(q: seq<Waiter<K>>, h: History, next: nat)
    requires FirstComeFirstServed(q, h, next) && q != []
    ensures FirstComeFirstServed(q[1..], h.(granted := h.granted + [q[0].id]), next)
  {
    var q', g' := q[1..], h.granted + [q[0].id];
    assert forall k :: 0 <= k < |q'| ==> q'[k] == q[k + 1];
    forall j | 0 <= j < |g'|
      ensures 1 <= g'[j] < next && g'[j] !in h.gone && forall k :: 0 <= k < |q'| ==> g'[j] < q'[k].id
    {
      assert j < |h.granted| ==> g'[j] == h.granted[j];
    }
    forall j, k | 0 <= j < k < |g'| ensures g'[j] < g'[k] {
      assert g'[j] == h.granted[j];
    }
    forall id | 1 <= id < next ensures id in g' || id in h.gone || InLine(q', id) {
      if id !in h.gone { GrantCovers(q, h.granted, id); }
    }
  }

  lemma StaysInLine<K>(q: seq<Waiter<K>>, id: nat, x: nat)
    requires x != id && InLine(q, x)
    ensures InLine(Remove(q, id), x)
  {
    if Position(q, id).Some? {
      var p := Position(q, id).value;
      RemoveShifts(q, id, p);
      var k :| 0 <= k < |q| && q[k].id == x;
      assert k != p && Remove(q, id)[if k < p then k else k - 1].id == x;
    }
  }

  lemma FcfsCancel<K>(q: seq<Waiter<K>>, h: History, next: nat, id: nat)
    requires FirstComeFirstServed(q, h, next) && Position(q, id).Some?
    ensures FirstComeFirstServed(Remove(q, id), h.(gone := h.gone + {id}), next)
  {
    var p := Position(q, id).value;
    var q', gone := Remove(q, id), h.gone + {id};
    OrderedRemove(q, next, id);
    forall j | 0 <= j < |h.granted| ensures h.granted[j] !in gone {
      assert h.granted[j] < q[p].id;
    }
    forall j, k | 0 <= j < |h.granted| && 0 <= k < |q'| ensures h.granted[j] < q'[k].id {
      assert q'[k] in q;
    }
    forall k | 0 <= k < |q'| ensures q'[k].id !in gone {
      assert q'[k] in q;
    }
    forall x | 1 <= x < next ensures x in h.granted || x in gone || InLine(q', x) {
      if InLine(q, x) && x != id { StaysInLine(q, id, x); }
    }
  }

  lemma FcfsRewake<K>(q: seq<Waiter<K>>, h: History, next: nat, p: nat, waker: nat)
    requires FirstComeFirstServed(q, h, next) && p < |q|
    ensures FirstComeFirstServed(q[p := q[p].(waker := waker)], h, next)
  {
    var q' := q[p := q[p].(waker := waker)];
    assert forall k :: 0 <= k < |q| ==> q'[k].id == q[k].id;
    forall id | 1 <= id < next ensures id in h.granted || id in h.gone || InLine(q', id) {
      if InLine(q, id) {
        var k :| 0 <= k < |q| && q[k].id == id;
        assert q'[k].id == id;
      }
    }
  }
}
