/** The in-process event hub: a map from query id to a list of subscriber queues. */
module Hub {
  import opened Model

  /** A decoded payload; its query is None when the id is missing or not a UUID. */
  datatype Payload = Payload(query: Option<QueryId>, notice: Notice)

  /** Subscriptions, and for each queue ever made everything that was ever put on it. */
  datatype HubState<Q> = HubState(subs: map<QueryId, seq<Q>>, put: map<Q, seq<Payload>>)

  datatype Op<Q> = Subscribe(q: QueryId, u: Q) | Unsubscribe(q: QueryId, u: Q) | Dispatch(p: Payload)

  function Subs<Q>(s: HubState<Q>, q: QueryId): seq<Q> {
    if q in s.subs then s.subs[q] else []
  }

  /** list.remove: drop the first occurrence. */
  function Without<Q(==)>(list: seq<Q>, u: Q): seq<Q> {
    if list == [] then [] else if list[0] == u then list[1..] else [list[0]] + Without(list[1..], u)
  }

  /** u is a queue made for this call. */
  function Subscribed<Q(==)>(s: HubState<Q>, q: QueryId, u: Q): HubState<Q> {
    HubState(s.subs[q := Subs(s, q) + [u]], s.put[u := []])
  }

  function Unsubscribed<Q(==)>(s: HubState<Q>, q: QueryId, u: Q): HubState<Q> {
    if u !in Subs(s, q) then s else
    var rest := Without(s.subs[q], u);
    s.(subs := if rest == [] then s.subs - {q} else s.subs[q := rest])
  }

  function Dispatched<Q(==)>(s: HubState<Q>, p: Payload): HubState<Q> {
    if p.query.None? then s else
    s.(put := map u | u in s.put :: if u in Subs(s, p.query.value) then s.put[u] + [p] else s.put[u])
  }

  function HubDo<Q(==)>(s: HubState<Q>, op: Op<Q>): HubState<Q> {
    match op
    case Subscribe(q, u) => Subscribed(s, q, u)
    case Unsubscribe(q, u) => Unsubscribed(s, q, u)
    case Dispatch(p) => Dispatched(s, p)
  }

  function HubRun<Q(==)>(ops: seq<Op<Q>>): HubState<Q> {
    if ops == [] then HubState(map[], map[]) else HubDo(HubRun(ops[..|ops| - 1]), ops[|ops| - 1])
  }

  /** Each subscribe call returns a queue no earlier call returned. */
  predicate FreshQueues<Q(==)>(ops: seq<Op<Q>>) {
    forall i, j :: 0 <= i < j < |ops| && ops[i].Subscribe? && ops[j].Subscribe? ==> ops[i].u != ops[j].u
  }

  // ----- The subscription lists -----

  /** No list is empty or names a queue twice, and a queue stands under the key it was subscribed with. */
  ghost predicate TidyLists<Q>(subs: map<QueryId, seq<Q>>, ops: seq<Op<Q>>) {
    && (forall q :: q in subs ==> subs[q] != [])
    && (forall q, i :: q in subs && 0 <= i < |subs[q]| ==> Subscribe(q, subs[q][i]) in ops)
    && (forall q, i, j :: q in subs && 0 <= i < j < |subs[q]| ==> subs[q][i] != subs[q][j])
  }

  ghost predicate Tidy<Q>(ops: seq<Op<Q>>) {
    TidyLists(HubRun(ops).subs, ops)
  }

  lemma {:induction false} WithoutMeaning<Q>(list: seq<Q>, u: Q)
    requires forall i, j :: 0 <= i < j < |list| ==> list[i] != list[j]
    ensures forall v :: v in Without(list, u) <==> v in list && v != u
    ensures forall i :: 0 <= i < |Without(list, u)| ==> Without(list, u)[i] in list && Without(list, u)[i] != u
    ensures forall i, j :: 0 <= i < j < |Without(list, u)| ==> Without(list, u)[i] != Without(list, u)[j]
    decreases |list|
  {
    if list == [] {
    } else {
      assert list == [list[0]] + list[1..];
      if list[0] != u {
        WithoutMeaning(list[1..], u);
        assert list[0] !in list[1..];
      }
    }
  }

  lemma FreshInit<Q>(ops: seq<Op<Q>>)
    requires FreshQueues(ops) && ops != []
    ensures FreshQueues(ops[..|ops| - 1])
    ensures forall k :: 0 <= k < |ops| - 1 && ops[k].Subscribe? && ops[|ops| - 1].Subscribe? ==>
              ops[..|ops| - 1][k].u != ops[|ops| - 1].u
  {
  }

  lemma {:induction false} ListsAreTidy<Q>(ops: seq<Op<Q>>)
    requires FreshQueues(ops)
    ensures Tidy(ops)
    decreases |ops|
  {
    if ops == [] {
    } else {
      var n := |ops| - 1;
      FreshInit(ops);
      ListsAreTidy(ops[..n]);
      TidyStep(ops);
    }
  }

  /** One list replaced by a tidy one. */
  lemma TidyUpdate<Q>(subs: map<QueryId, seq<Q>>, before: seq<Op<Q>>, ops: seq<Op<Q>>, q: QueryId, list: seq<Q>)
    requires TidyLists(subs, before) && (forall op :: op in before ==> op in ops)
    requires list != [] && (forall i :: 0 <= i < |list| ==> Subscribe(q, list[i]) in ops)
    requires forall i, j :: 0 <= i < j < |list| ==> list[i] != list[j]
    ensures TidyLists(subs[q := list], ops)
  {
  }

  lemma TidySubscribe<Q>(s: HubState<Q>, before: seq<Op<Q>>, q: QueryId, u: Q)
    requires TidyLists(s.subs, before)
    requires forall k :: 0 <= k < |before| && before[k].Subscribe? ==> before[k].u != u
    ensures TidyLists(Subscribed(s, q, u).subs, before + [Subscribe(q, u)])
  {
    var list := Subs(s, q) + [u];
    var ops := before + [Subscribe(q, u)];
    assert ops[|before|] == Subscribe(q, u);
    forall i | 0 <= i < |list| ensures Subscribe(q, list[i]) in ops {
      assert i < |Subs(s, q)| ==> Subscribe(q, s.subs[q][i]) in before;
    }
    forall i | 0 <= i < |Subs(s, q)| ensures Subs(s, q)[i] != u {
      assert Subscribe(q, s.subs[q][i]) in before;
    }
    TidyUpdate(s.subs, before, ops, q, list);
  }

  lemma TidyUnsubscribe<Q>(s: HubState<Q>, before: seq<Op<Q>>, q: QueryId, u: Q)
    requires TidyLists(s.subs, before)
    ensures TidyLists(Unsubscribed(s, q, u).subs, before + [Unsubscribe(q, u)])
  {
    if u in Subs(s, q) {
      WithoutMeaning(s.subs[q], u);
      var rest := Without(s.subs[q], u);
      forall i | 0 <= i < |rest| ensures Subscribe(q, rest[i]) in before {
        assert rest[i] in s.subs[q];
      }
      if rest != [] {
        TidyUpdate(s.subs, before, before + [Unsubscribe(q, u)], q, rest);
      }
    }
  }

  lemma TidyStep<Q>(ops: seq<Op<Q>>)
    requires FreshQueues(ops) && ops != [] && Tidy(ops[..|ops| - 1])
    ensures Tidy(ops)
  {
    var n := |ops| - 1;
    FreshInit(ops);
    var s := HubRun(ops[..n]);
    assert ops == ops[..n] + [ops[n]];
    match ops[n]
    case Subscribe(q, u) => TidySubscribe(s, ops[..n], q, u);
    case Unsubscribe(q, u) => TidyUnsubscribe(s, ops[..n], q, u);
    case Dispatch(_) =>
  }

  // ----- Delivery -----

  function PayloadFor<Q>(op: Op<Q>, q: QueryId): seq<Payload> {
    if op.Dispatch? && op.p.query == Some(q) then [op.p] else []
  }

  /** The payloads dispatched for q, in order. */
  function DispatchedFor<Q>(ops: seq<Op<Q>>, q: QueryId): seq<Payload> {
    if ops == [] then [] else DispatchedFor(ops[..|ops| - 1], q) + PayloadFor(ops[|ops| - 1], q)
  }

  /** j is where the subscription made at i ends: at its first unsubscribe, or not within the run. */
  ghost predicate Ends<Q>(ops: seq<Op<Q>>, i: nat, j: nat, q: QueryId, u: Q) {
    && i < j <= |ops|
    && (forall k :: i < k < j ==> ops[k] != Unsubscribe(q, u))
    && (j < |ops| ==> ops[j] == Unsubscribe(q, u))
  }

  lemma OnlyItsOwnKey<Q>(ops: seq<Op<Q>>, i: nat, q: QueryId, u: Q)
    requires FreshQueues(ops) && i < |ops| && ops[i] == Subscribe(q, u)
    ensures forall k :: u in Subs(HubRun(ops), k) ==> k == q
  {
    ListsAreTidy(ops);
    var s := HubRun(ops);
    forall k | u in Subs(s, k) ensures k == q {
      var x :| 0 <= x < |s.subs[k]| && s.subs[k][x] == u;
      assert Subscribe(k, u) in ops;
      var m :| 0 <= m < |ops| && ops[m] == Subscribe(k, u);
      assert m == i;
    }
  }

  lemma SubscribeEffect<Q>(s: HubState<Q>, q: QueryId, u: Q)
    ensures u in HubDo(s, Subscribe(q, u)).put && HubDo(s, Subscribe(q, u)).put[u] == []
    ensures u in Subs(HubDo(s, Subscribe(q, u)), q)
  {
    var t := HubDo(s, Subscribe(q, u));
    assert Subs(t, q)[|Subs(s, q)|] == u;
  }

  /** One operation seen from one queue. */
  lemma OpEffect<Q>(s: HubState<Q>, op: Op<Q>, q: QueryId, u: Q)
    requires u in s.put && (forall k :: u in Subs(s, k) ==> k == q)
    requires forall x, y :: 0 <= x < y < |Subs(s, q)| ==> Subs(s, q)[x] != Subs(s, q)[y]
    requires op.Subscribe? ==> op.u != u
    ensures u in HubDo(s, op).put
    ensures HubDo(s, op).put[u] == s.put[u] + if u in Subs(s, q) then PayloadFor(op, q) else []
    ensures u in Subs(HubDo(s, op), q) <==> u in Subs(s, q) && op != Unsubscribe(q, u)
  {
    if op.Unsubscribe? && op.q == q && q in s.subs {
      WithoutMeaning(s.subs[q], op.u);
    }
  }

  lemma DispatchedForExtends<Q>(ops: seq<Op<Q>>, a: nat, q: QueryId)
    requires a < |ops|
    ensures DispatchedFor(ops[a..|ops|], q) ==
            DispatchedFor(ops[..|ops| - 1][a..|ops| - 1], q) + PayloadFor(ops[|ops| - 1], q)
  {
    assert ops[a..|ops|][..|ops| - 1 - a] == ops[..|ops| - 1][a..|ops| - 1];
  }

  /** The last operation of a run is where a subscription ends, or after its end, or inside it. */
  lemma EndsBefore<Q>(ops: seq<Op<Q>>, i: nat, j: nat, q: QueryId, u: Q)
    requires i < |ops| - 1 && Ends(ops, i, j, q, u)
    ensures
      var n := |ops| - 1;
      var before := if j == |ops| then n else j;
      Ends(ops[..n], i, before, q, u) && ops[..n][i + 1..before] == ops[i + 1..before]
  {
  }

  ghost predicate Delivered<Q>(ops: seq<Op<Q>>, i: nat, j: nat, q: QueryId, u: Q)
    requires i < j <= |ops|
  {
    Holds(HubRun(ops), q, u, DispatchedFor(ops[i + 1..j], q), j == |ops|)
  }

  /** What was put on the queue, and whether it is still subscribed. */
  ghost predicate Holds<Q>(s: HubState<Q>, q: QueryId, u: Q, put: seq<Payload>, subscribed: bool) {
    u in s.put && s.put[u] == put && (u in Subs(s, q) <==> subscribed)
  }

  lemma DeliveredAtFirst<Q>(ops: seq<Op<Q>>, q: QueryId, u: Q)
    requires ops != [] && ops[|ops| - 1] == Subscribe(q, u)
    ensures Delivered(ops, |ops| - 1, |ops|, q, u)
  {
    assert ops[|ops|..|ops|] == [];
    SubscribeEffect(HubRun(ops[..|ops| - 1]), q, u);
  }

  /** The last operation's effect on one subscribed queue. */
  lemma LastEffect<Q>(ops: seq<Op<Q>>, i: nat, q: QueryId, u: Q, put: seq<Payload>, subscribed: bool)
    requires FreshQueues(ops) && i < |ops| - 1 && ops[i] == Subscribe(q, u)
    requires Holds(HubRun(ops[..|ops| - 1]), q, u, put, subscribed)
    ensures Holds(HubRun(ops), q, u, put + (if subscribed then PayloadFor(ops[|ops| - 1], q) else []),
                  subscribed && ops[|ops| - 1] != Unsubscribe(q, u))
  {
    FreshInit(ops);
    ListsAreTidy(ops[..|ops| - 1]);
    OnlyItsOwnKey(ops[..|ops| - 1], i, q, u);
    OpEffect(HubRun(ops[..|ops| - 1]), ops[|ops| - 1], q, u);
  }

  lemma SliceOfPrefix<T>(s: seq<T>, a: nat, b: nat, n: nat)
    requires a <= b <= n <= |s|
    ensures s[..n][a..b] == s[a..b]
  {
  }

  /** The subscription goes on: the last operation may add one payload. */
  lemma DeliveredOn<Q>(ops: seq<Op<Q>>, i: nat, q: QueryId, u: Q)
    requires FreshQueues(ops) && i < |ops| - 1 && ops[i] == Subscribe(q, u)
    requires ops[|ops| - 1] != Unsubscribe(q, u)
    requires Delivered(ops[..|ops| - 1], i, |ops| - 1, q, u)
    ensures Delivered(ops, i, |ops|, q, u)
  {
    var n := |ops| - 1;
    LastEffect(ops, i, q, u, DispatchedFor(ops[..n][i + 1..n], q), true);
    DispatchedForExtends(ops, i + 1, q);
  }

  /** The subscription has ended, or ends here: the last operation adds nothing. */
  lemma DeliveredBefore<Q>(ops: seq<Op<Q>>, i: nat, j: nat, q: QueryId, u: Q)
    requires FreshQueues(ops) && i < |ops| - 1 && ops[i] == Subscribe(q, u)
    requires i < j < |ops| && (j == |ops| - 1 ==> ops[j] == Unsubscribe(q, u))
    requires Delivered(ops[..|ops| - 1], i, j, q, u)
    ensures Delivered(ops, i, j, q, u)
  {
    SliceOfPrefix(ops, i + 1, j, |ops| - 1);
    LastEffect(ops, i, q, u, DispatchedFor(ops[i + 1..j], q), j == |ops| - 1);
  }

  /** What is put on a queue is exactly what was dispatched for its query during its subscription, in order and once each,
      and it is subscribed exactly until that subscription ends. */
  lemma {:induction false} DeliversExactly<Q>(ops: seq<Op<Q>>, i: nat, j: nat, q: QueryId, u: Q)
    requires FreshQueues(ops) && i < |ops| && ops[i] == Subscribe(q, u) && Ends(ops, i, j, q, u)
    ensures Delivered(ops, i, j, q, u)
    decreases |ops|
  {
    var n := |ops| - 1;
    if i == n {
      DeliveredAtFirst(ops, q, u);
    } else {
      FreshInit(ops);
      EndsBefore(ops, i, j, q, u);
      DeliversExactly(ops[..n], i, if j == |ops| then n else j, q, u);
      if j == |ops| {
        DeliveredOn(ops, i, q, u);
      } else {
        DeliveredBefore(ops, i, j, q, u);
      }
    }
  }

  /** Once every subscription has been ended, the hub holds no key at all. */
  lemma UnsubscribingAllEmptiesTheHub<Q>(ops: seq<Op<Q>>)
    requires FreshQueues(ops)
    requires forall i :: 0 <= i < |ops| && ops[i].Subscribe? ==>
               exists j :: i < j < |ops| && ops[j] == Unsubscribe(ops[i].q, ops[i].u)
    ensures HubRun(ops).subs == map[]
  {
    ListsAreTidy(ops);
    var s := HubRun(ops);
    forall q | q in s.subs ensures false {
      var u := s.subs[q][0];
      assert Subscribe(q, u) in ops;
      var i :| 0 <= i < |ops| && ops[i] == Subscribe(q, u);
      var j :| i < j < |ops| && ops[j] == Unsubscribe(q, u);
      var first := FirstUnsubscribe(ops, i, j, q, u);
      DeliversExactly(ops, i, first, q, u);
    }
  }

  lemma {:induction false} FirstUnsubscribe<Q>(ops: seq<Op<Q>>, i: nat, j: nat, q: QueryId, u: Q) returns (first: nat)
    requires i < j < |ops| && ops[j] == Unsubscribe(q, u)
    ensures Ends(ops, i, first, q, u) && first <= j
    decreases j
  {
    if k :| i < k < j && ops[k] == Unsubscribe(q, u) {
      first := FirstUnsubscribe(ops, i, k, q, u);
    } else {
      first := j;
    }
  }

  /** Every queue ever subscribed is one whose puts are known. */
  lemma {:induction false} SubscribedIsPut<Q>(ops: seq<Op<Q>>, i: nat)
    requires i < |ops| && ops[i].Subscribe?
    ensures ops[i].u in HubRun(ops).put
    decreases |ops|
  {
    if i == |ops| - 1 {
    } else {
      SubscribedIsPut(ops[..|ops| - 1], i);
    }
  }

  /** The operations performed so far and the state they led to. */
  datatype Entries<Q> = Entries(ops: seq<Op<Q>>, state: HubState<Q>)

  ghost predicate Recorded<Q>(e: Entries<Q>) {
    FreshQueues(e.ops) && e.state == HubRun(e.ops)
  }

  type Journal<Q> = e: Entries<Q> | Recorded(e) witness Entries([], HubState(map[], map[]))

  ghost function Note<Q>(j: Journal<Q>, op: Op<Q>): (next: Journal<Q>)
    requires op.Subscribe? ==> op.u !in j.state.put
    ensures next.ops == j.ops + [op] && next.state == HubDo(j.state, op)
  {
    RecordedNext(j, op);
    Entries(j.ops + [op], HubDo(j.state, op))
  }

  lemma RecordedNext<Q>(e: Entries<Q>, op: Op<Q>)
    requires Recorded(e) && (op.Subscribe? ==> op.u !in e.state.put)
    ensures Recorded(Entries(e.ops + [op], HubDo(e.state, op)))
  {
    assert (e.ops + [op])[..|e.ops + [op]| - 1] == e.ops;
    forall i | 0 <= i < |e.ops| && e.ops[i].Subscribe? ensures e.ops[i].u in e.state.put {
      SubscribedIsPut(e.ops, i);
    }
  }

  // ----- The hub itself -----

  class EventQueue {
    var items: seq<Payload>
    ghost var put: seq<Payload>
    ghost const key: QueryId

    constructor (ghost key: QueryId)
      ensures items == [] && put == [] && this.key == key
    {
      items, put := [], [];
      this.key := key;
    }

    method PutNowait(p: Payload)
      modifies this
      ensures items == old(items) + [p] && put == old(put) + [p]
    {
      items, put := items + [p], put + [p];
    }

    method Get() returns (p: Payload)
      requires items != []
      modifies this`items
      ensures p == old(items)[0] && items == old(items)[1..]
    {
      p := items[0];
      items := items[1..];
    }
  }

  class QueryEventHub {
    var subscribers: map<QueryId, seq<EventQueue>>
    ghost var queues: set<EventQueue>
    ghost var journal: Journal<EventQueue>

    /** No list is empty or holds a queue twice or one made for another query. */
    ghost predicate Listed()
      reads this
    {
      && (forall q :: q in subscribers ==> subscribers[q] != [])
      && (forall q, i :: q in subscribers && 0 <= i < |subscribers[q]| ==>
            subscribers[q][i] in queues && subscribers[q][i].key == q)
      && (forall q, i, j :: q in subscribers && 0 <= i < j < |subscribers[q]| ==> subscribers[q][i] != subscribers[q][j])
    }

    /** ... and the hub is what the run of the operations performed on it so far gives. */
    ghost predicate Valid()
      reads this, queues
    {
      Listed() && View() == journal.state
    }

    ghost function View(): HubState<EventQueue>
      reads this, queues
    {
      HubState(subscribers, map u | u in queues :: u.put)
    }

    constructor ()
      ensures Valid() && journal.ops == [] && queues == {}
    {
      subscribers, queues, journal := map[], {}, Entries([], HubState(map[], map[]));
    }

    method Subscribe(q: QueryId) returns (u: EventQueue)
      requires Valid()
      modifies this
      ensures Valid() && fresh(u) && u.key == q && u.items == []
      ensures queues == old(queues) + {u}
      ensures journal.ops == old(journal).ops + [Op.Subscribe(q, u)] && View() == HubDo(old(View()), Op.Subscribe(q, u))
    {
      u := Append(q);
      journal := Note(journal, Op.Subscribe(q, u));
    }

    method Append(q: QueryId) returns (u: EventQueue)
      requires Listed()
      modifies this`subscribers, this`queues
      ensures Listed() && fresh(u) && u.key == q && u.items == []
      ensures queues == old(queues) + {u} && u !in old(queues)
      ensures View() == HubDo(old(View()), Op.Subscribe(q, u))
    {
      u := new EventQueue(q);
      subscribers := subscribers[q := (if q in subscribers then subscribers[q] else []) + [u]];
      queues := queues + {u};
    }

    method Unsubscribe(q: QueryId, u: EventQueue)
      requires Valid()
      modifies this`subscribers, this`journal
      ensures Valid()
      ensures journal.ops == old(journal).ops + [Op.Unsubscribe(q, u)] && View() == HubDo(old(View()), Op.Unsubscribe(q, u))
    {
      Remove(q, u);
      journal := Note(journal, Op.Unsubscribe(q, u));
    }

    method Remove(q: QueryId, u: EventQueue)
      requires Listed()
      modifies this`subscribers
      ensures Listed() && View() == HubDo(old(View()), Op.Unsubscribe(q, u))
    {
      if q !in subscribers || u !in subscribers[q] {
        return;
      }
      WithoutMeaning(subscribers[q], u);
      var rest := Without(subscribers[q], u);
      forall i | 0 <= i < |rest| ensures rest[i] in queues && rest[i].key == q {
        assert rest[i] in subscribers[q];
      }
      subscribers := if rest == [] then subscribers - {q} else subscribers[q := rest];
    }

    /** Put the payload on every queue of its query's list, each once. */
    method Dispatch(p: Payload)
      requires Valid()
      modifies this`journal, queues
      ensures Valid()
      ensures journal.ops == old(journal).ops + [Op.Dispatch(p)] && View() == HubDo(old(View()), Op.Dispatch(p))
      ensures forall u :: u in queues ==>
                u.items == old(u.items) +
                  if p.query.Some? && u in Subs(old(View()), p.query.value) then [p] else []
    {
      PutOnAll(p);
      journal := Note(journal, Op.Dispatch(p));
    }

    method PutOnAll(p: Payload)
      requires Listed()
      modifies queues
      ensures View() == HubDo(old(View()), Op.Dispatch(p))
      ensures forall u :: u in queues ==>
                u.items == old(u.items) +
                  if p.query.Some? && u in Subs(old(View()), p.query.value) then [p] else []
    {
      if p.query.None? || p.query.value !in subscribers {
        return;
      }
      var list := subscribers[p.query.value];
      for i := 0 to |list|
        invariant forall u :: u in queues ==>
                    u.items == old(u.items) + (if u in list[..i] then [p] else []) &&
                    u.put == old(u.put) + (if u in list[..i] then [p] else [])
      {
        assert list[..i + 1] == list[..i] + [list[i]] && list[i] !in list[..i];
        list[i].PutNowait(p);
      }
      assert list[..|list|] == list;
    }
  }

  /** Of the hub on the heap: a queue that was subscribed at some operation was given exactly what was dispatched for its
      query until its subscription ended, and is listed exactly as long. */
  lemma HeapHubDelivers(hub: QueryEventHub, i: nat, j: nat, q: QueryId, u: EventQueue)
    requires hub.Valid() && i < |hub.journal.ops| && hub.journal.ops[i] == Subscribe(q, u) && Ends(hub.journal.ops, i, j, q, u)
    ensures u in hub.queues && u.put == DispatchedFor(hub.journal.ops[i + 1..j], q)
    ensures q in hub.subscribers && u in hub.subscribers[q] <==> j == |hub.journal.ops|
  {
    DeliversExactly(hub.journal.ops, i, j, q, u);
    assert hub.View().put[u] == u.put;
  }
}
