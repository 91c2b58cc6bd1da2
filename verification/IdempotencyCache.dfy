/** The bounded memory of handled messages: an ordered dictionary that evicts its least recently used entry,
    and what it stands for. */
module IdempotencyCache {
  import opened Outcomes

  type MessageId = nat

  /** One successful handling or replay of a message. */
  datatype Touch<V> = Fresh(id: MessageId, value: V) | Replayed(id: MessageId)

  function Without(ids: seq<MessageId>, id: MessageId): (r: seq<MessageId>)
    ensures forall x :: x in r <==> x in ids && x != id
  {
    if ids == [] then []
    else
      assert ids == ids[..|ids| - 1] + [ids[|ids| - 1]];
      Without(ids[..|ids| - 1], id) + if ids[|ids| - 1] == id then [] else [ids[|ids| - 1]]
  }

  /** Every distinct message touched so far, the most recently touched last: a memory that never forgets. */
  function Recency<V>(touches: seq<Touch<V>>): seq<MessageId> {
    if touches == [] then []
    else
      var last := touches[|touches| - 1].id;
      Without(Recency(touches[..|touches| - 1]), last) + [last]
  }

  /** The value of the latest fresh handling of `id`. */
  function LatestFresh<V>(touches: seq<Touch<V>>, id: MessageId): Option<V> {
    if touches == [] then None
    else
      var last := touches[|touches| - 1];
      if last.Fresh? && last.id == id then Some(last.value)
      else LatestFresh(touches[..|touches| - 1], id)
  }

  /** The last `n` elements, or all of them. */
  function LastOf(ids: seq<MessageId>, n: nat): (r: seq<MessageId>)
    ensures |r| == if |ids| <= n then |ids| else n
  {
    if |ids| <= n then ids else ids[|ids| - n..]
  }

  predicate Distinct(ids: seq<MessageId>) {
    forall i, j :: 0 <= i < j < |ids| ==> ids[i] != ids[j]
  }

  lemma {:induction false} WithoutAbsent(ids: seq<MessageId>, id: MessageId)
    requires id !in ids
    ensures Without(ids, id) == ids
  {
    if ids != [] {
      WithoutAbsent(ids[..|ids| - 1], id);
      assert ids == ids[..|ids| - 1] + [ids[|ids| - 1]];
    }
  }

  lemma {:induction false} WithoutConcat(a: seq<MessageId>, b: seq<MessageId>, id: MessageId)
    ensures Without(a + b, id) == Without(a, id) + Without(b, id)
  {
    if b == [] {
      assert a + b == a;
    } else {
      assert (a + b)[..|a + b| - 1] == a + b[..|b| - 1];
      WithoutConcat(a, b[..|b| - 1], id);
    }
  }

  lemma WithoutMiddle(a: seq<MessageId>, id: MessageId, b: seq<MessageId>)
    requires id !in a && id !in b
    ensures Without(a + [id] + b, id) == a + b
  {
    hide Without;
    WithoutConcat(a + [id], b, id);
    WithoutConcat(a, [id], id);
    WithoutAbsent(a, id);
    WithoutAbsent(b, id);
    WithoutSelf(id);
    assert a + [] == a;
  }

  lemma WithoutSelf(id: MessageId)
    ensures Without([id], id) == []
  {
  }

  lemma {:induction false} WithoutDistinct(ids: seq<MessageId>, id: MessageId)
    requires Distinct(ids)
    ensures Distinct(Without(ids, id))
  {
    if ids != [] {
      WithoutDistinct(ids[..|ids| - 1], id);
      var front := Without(ids[..|ids| - 1], id);
      assert forall x :: x in front ==> x in ids[..|ids| - 1];
      assert forall i :: 0 <= i < |front| ==> front[i] in front;
    }
  }

  lemma {:induction false} RecencyDistinct<V>(touches: seq<Touch<V>>)
    ensures Distinct(Recency(touches))
  {
    if touches != [] {
      var last := touches[|touches| - 1].id;
      var before := Recency(touches[..|touches| - 1]);
      RecencyDistinct(touches[..|touches| - 1]);
      WithoutDistinct(before, last);
      assert forall i :: 0 <= i < |Without(before, last)| ==> Without(before, last)[i] in Without(before, last);
    }
  }

  /** Touching a retained message: moving it to the end of the window moves it to the end of the whole order. */
  lemma TouchRetained(ids: seq<MessageId>, n: nat, id: MessageId)
    requires Distinct(ids) && id in LastOf(ids, n)
    ensures LastOf(Without(ids, id) + [id], n) == Without(LastOf(ids, n), id) + [id]
  {
    hide Without;
    var start := |ids| - |LastOf(ids, n)|;
    var j :| 0 <= j < |LastOf(ids, n)| && LastOf(ids, n)[j] == id;
    SplitAround(ids, start + j, start, id);
    var a, b := ids[..start + j], ids[start + j + 1..];
    WithoutMiddle(a, id, b);
    WithoutMiddle(a[start..], id, b);
    hide Distinct;
    SameWindow(ids, a, id, b, n);
  }

  /** The window of the moved order is the moved window. */
  lemma SameWindow(ids: seq<MessageId>, a: seq<MessageId>, id: MessageId, b: seq<MessageId>, n: nat)
    requires ids == a + [id] + b && |b| < n
    ensures
      var start := |ids| - |LastOf(ids, n)|;
      start <= |a| && LastOf(ids, n) == a[start..] + [id] + b && LastOf(a + b + [id], n) == a[start..] + b + [id]
  {
  }

  lemma SplitAround(ids: seq<MessageId>, i: nat, start: nat, id: MessageId)
    requires Distinct(ids) && start <= i < |ids| && ids[i] == id
    ensures ids == ids[..i] + [id] + ids[i + 1..]
    ensures ids[start..] == ids[..i][start..] + [id] + ids[i + 1..]
    ensures id !in ids[..i] && id !in ids[i + 1..] && id !in ids[..i][start..]
  {
  }

  /** Touching a message the window has lost, or never had: it enters at the end and the oldest may leave. */
  lemma TouchForgotten(ids: seq<MessageId>, n: nat, id: MessageId)
    requires Distinct(ids) && id !in LastOf(ids, n) && n > 0
    ensures
      var grown := LastOf(ids, n) + [id];
      LastOf(Without(ids, id) + [id], n) == if |grown| > n then grown[1..] else grown
  {
    hide Without;
    var window := LastOf(ids, n);
    var forgotten := ids[..|ids| - |window|];
    assert ids == forgotten + window;
    WithoutConcat(forgotten, window, id);
    WithoutAbsent(window, id);
    var rest := Without(forgotten, id);
    assert Without(ids, id) + [id] == rest + (window + [id]);
    if |ids| <= n {
      WithoutAbsent(forgotten, id);
      assert forgotten == [] && rest == [];
      assert rest + (window + [id]) == window + [id];
    } else {
      assert LastOf(rest + (window + [id]), n) == (window + [id])[1..];
    }
  }

  lemma LatestAfterFresh<V>(touches: seq<Touch<V>>, id: MessageId, value: V)
    ensures LatestFresh(touches + [Fresh(id, value)], id) == Some(value)
    ensures forall x :: x != id ==> LatestFresh(touches + [Fresh(id, value)], x) == LatestFresh(touches, x)
  {
  }

  lemma WindowSize(ids: seq<MessageId>, n: nat)
    ensures |LastOf(ids, n)| <= n
  {
  }

  lemma RecencyAppend<V>(touches: seq<Touch<V>>, t: Touch<V>)
    ensures Recency(touches + [t]) == Without(Recency(touches), t.id) + [t.id]
    ensures t.Replayed? ==> forall x :: LatestFresh(touches + [t], x) == LatestFresh(touches, x)
  {
  }

  lemma WindowDistinct(ids: seq<MessageId>, n: nat)
    requires Distinct(ids)
    ensures Distinct(LastOf(ids, n))
  {
  }

  /** The dictionary holds exactly the last `capacity` distinct messages in recency order, each with the value of
      its latest fresh handling. */
  ghost predicate Remembers<V>(order: seq<MessageId>, values: map<MessageId, V>, touches: seq<Touch<V>>, capacity: nat) {
    && order == LastOf(Recency(touches), capacity)
    && (forall id :: id in values <==> id in order)
    && (forall id :: id in values ==> LatestFresh(touches, id) == Some(values[id]))
  }

  lemma ReplayRemembers<V>(order: seq<MessageId>, values: map<MessageId, V>, touches: seq<Touch<V>>, capacity: nat, id: MessageId)
    requires Remembers(order, values, touches, capacity) && id in values
    ensures Remembers(Without(order, id) + [id], values, touches + [Replayed(id)], capacity)
  {
    hide Without, LastOf, LatestFresh, Recency, Distinct;
    RecencyDistinct(touches);
    TouchRetained(Recency(touches), capacity, id);
    RecencyAppend(touches, Replayed(id));
    MovedToEnd(order, id);
  }

  lemma MovedToEnd(order: seq<MessageId>, id: MessageId)
    requires id in order
    ensures forall x :: x in Without(order, id) + [id] <==> x in order
  {
  }

  lemma StoreRemembers<V>(order: seq<MessageId>, values: map<MessageId, V>, touches: seq<Touch<V>>, capacity: nat,
                          id: MessageId, value: V)
    requires Remembers(order, values, touches, capacity) && id !in values && capacity > 0
    ensures |order| <= capacity && id !in order
    ensures |order| < capacity ==> Remembers(order + [id], values[id := value], touches + [Fresh(id, value)], capacity)
    ensures |order| == capacity ==>
      Remembers((order + [id])[1..], values[id := value] - {order[0]}, touches + [Fresh(id, value)], capacity)
  {
    hide Without, LastOf, LatestFresh, Recency, Distinct;
    StoreOrder(order, touches, capacity, id, value);
    LatestAfterFresh(touches, id, value);
    if |order| == capacity {
      Evicted(order, id);
    }
  }

  lemma StoreOrder<V>(order: seq<MessageId>, touches: seq<Touch<V>>, capacity: nat, id: MessageId, value: V)
    requires order == LastOf(Recency(touches), capacity) && id !in order && capacity > 0
    ensures |order| <= capacity && Distinct(order)
    ensures LastOf(Recency(touches + [Fresh(id, value)]), capacity)
         == if |order| < capacity then order + [id] else (order + [id])[1..]
  {
    hide Without, LastOf, LatestFresh, Recency, Distinct;
    RecencyDistinct(touches);
    WindowDistinct(Recency(touches), capacity);
    WindowSize(Recency(touches), capacity);
    TouchForgotten(Recency(touches), capacity, id);
    RecencyAppend(touches, Fresh(id, value));
  }

  /** What remains after the oldest entry made room for a new one. */
  lemma Evicted(order: seq<MessageId>, id: MessageId)
    requires Distinct(order) && order != [] && id !in order
    ensures forall x :: x in (order + [id])[1..] <==> (x in order && x != order[0]) || x == id
  {
    assert (order + [id])[1..] == order[1..] + [id];
    assert order == [order[0]] + order[1..];
    assert order[0] !in order[1..];
  }

  class Cache<V(==)> {
    const capacity: nat
    /** Keys of the ordered dictionary, oldest first. */
    var order: seq<MessageId>
    var values: map<MessageId, V>
    /** Everything this cache was ever told. */
    ghost var touches: seq<Touch<V>>

    constructor (capacity: nat)
      requires capacity > 0
      ensures Valid() && this.capacity == capacity && touches == []
    {
      this.capacity, order, values, touches := capacity, [], map[], [];
    }

    ghost predicate Valid()
      reads this
    {
      capacity > 0 && Remembers(order, values, touches, capacity)
    }

    /** A lookup that finds the message moves it to the end. */
    method Replay(id: MessageId)
      requires Valid() && id in values
      modifies this
      ensures Valid() && touches == old(touches) + [Replayed(id)] && values == old(values)
    {
      hide Remembers;
      ReplayRemembers(order, values, touches, capacity, id);
      order, touches := Without(order, id) + [id], touches + [Replayed(id)];
    }

    /** Store a fresh result and evict the least recently used entry when the capacity is exceeded. */
    method Store(id: MessageId, value: V)
      requires Valid() && id !in values
      modifies this
      ensures Valid() && touches == old(touches) + [Fresh(id, value)]
      ensures id in values && values[id] == value && |order| <= capacity
    {
      hide Remembers;
      StoreRemembers(order, values, touches, capacity, id, value);
      order, values, touches := order + [id], values[id := value], touches + [Fresh(id, value)];
      if |order| > capacity {
        var oldest := order[0];
        order, values := order[1..], values - {oldest};
      }
    }
  }
}
