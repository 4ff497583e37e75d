/** The server-sent event stream of one query: a snapshot, then what the hub delivers, up to the first terminal event. */
module Stream {
  import opened Model
  import opened Hub
  import Delivery

  datatype Frame = Status(p: Payload) | KeepAlive

  /** One round of the loop: is the client gone, and if not, what is dispatched before the wait ends. */
  datatype Turn = Turn(disconnected: bool, arrivals: seq<Payload>)

  predicate Final(p: Payload) {
    Terminal(p.notice.status)
  }

  function ForQuery(ps: seq<Payload>, q: QueryId): seq<Payload> {
    if ps == [] then [] else
    var last := ps[|ps| - 1];
    ForQuery(ps[..|ps| - 1], q) + if last.query == Some(q) then [last] else []
  }

  /** The frames of the loop when `waiting` is already queued; the script ends with the client gone. */
  function LoopFrames(script: seq<Turn>, q: QueryId, waiting: seq<Payload>): seq<Frame> {
    if script == [] || script[0].disconnected then [] else
    var queued := waiting + ForQuery(script[0].arrivals, q);
    if queued == [] then [KeepAlive] + LoopFrames(script[1..], q, [])
    else [Status(queued[0])] + if Final(queued[0]) then [] else LoopFrames(script[1..], q, queued[1..])
  }

  function Frames(snapshot: Payload, script: seq<Turn>, q: QueryId): seq<Frame> {
    [Status(snapshot)] + if Final(snapshot) then [] else LoopFrames(script, q, [])
  }

  lemma ForQueryNext(ps: seq<Payload>, i: nat, q: QueryId)
    requires i < |ps|
    ensures ForQuery(ps[..i + 1], q) == ForQuery(ps[..i], q) + if ps[i].query == Some(q) then [ps[i]] else []
  {
    assert ps[..i + 1][..i] == ps[..i];
  }

  method DispatchAll(hub: QueryEventHub, q: QueryId, queue: EventQueue, ps: seq<Payload>)
    requires hub.Valid() && q in hub.subscribers && queue in hub.subscribers[q]
    modifies hub`journal, hub.queues
    ensures hub.Valid()
    ensures queue.items == old(queue.items) + ForQuery(ps, q)
  {
    for i := 0 to |ps|
      invariant hub.Valid()
      invariant queue.items == old(queue.items) + ForQuery(ps[..i], q)
    {
      ghost var was := hub.View();
      assert forall k :: queue in Subs(was, k) ==> queue.key == k;
      assert queue in Subs(was, q) && queue in hub.queues;
      hub.Dispatch(ps[i]);
      ForQueryNext(ps, i, q);
    }
    assert ps[..|ps|] == ps;
  }

  /** A round takes the first of what is queued, or nothing. */
  predicate Taken(queued: seq<Payload>, frame: Frame, left: seq<Payload>) {
    if queued == [] then frame == KeepAlive && left == [] else frame == Status(queued[0]) && left == queued[1..]
  }

  predicate Last(frame: Frame) {
    frame.Status? && Final(frame.p)
  }

  /** One round: others dispatch, then the stream takes the next queued event or times out. */
  method StreamTurn(hub: QueryEventHub, q: QueryId, queue: EventQueue, arrivals: seq<Payload>) returns (frame: Frame)
    requires hub.Valid() && q in hub.subscribers && queue in hub.subscribers[q]
    modifies hub`journal, hub.queues
    ensures hub.Valid()
    ensures Taken(old(queue.items) + ForQuery(arrivals, q), frame, queue.items)
  {
    DispatchAll(hub, q, queue, arrivals);
    if queue.items == [] {
      frame := KeepAlive;
    } else {
      var event := queue.Get();
      frame := Status(event);
    }
  }

  /** The loop of the stream, from any state of its queue. */
  method StreamLoop(hub: QueryEventHub, q: QueryId, queue: EventQueue, script: seq<Turn>) returns (frames: seq<Frame>)
    requires hub.Valid() && q in hub.subscribers && queue in hub.subscribers[q]
    modifies hub`journal, hub.queues
    ensures hub.Valid()
    ensures frames == LoopFrames(script, q, old(queue.items))
  {
    frames := [];
    ghost var total := LoopFrames(script, q, queue.items);
    assert script[0..] == script;
    var i := 0;
    while i < |script| && !script[i].disconnected
      invariant 0 <= i <= |script| && hub.Valid()
      invariant total == frames + LoopFrames(script[i..], q, queue.items)
    {
      ghost var waiting := queue.items;
      var frame := StreamTurn(hub, q, queue, script[i].arrivals);
      RoundOfLoop(script, i, q, waiting, frame, queue.items, frames);
      frames := frames + [frame];
      i := i + 1;
      if Last(frame) {
        break;
      }
    }
  }

  /** One round adds its frame, and the rest of the loop's frames unless that was the last. */
  lemma RoundOfLoop(script: seq<Turn>, i: nat, q: QueryId, waiting: seq<Payload>, frame: Frame, left: seq<Payload>,
                    sent: seq<Frame>)
    requires i < |script| && !script[i].disconnected
    requires Taken(waiting + ForQuery(script[i].arrivals, q), frame, left)
    ensures sent + LoopFrames(script[i..], q, waiting) ==
            sent + [frame] + if Last(frame) then [] else LoopFrames(script[i + 1..], q, left)
  {
    assert script[i..][0] == script[i] && script[i..][1..] == script[i + 1..];
    var rest := if Last(frame) then [] else LoopFrames(script[i + 1..], q, left);
    assert sent + ([frame] + rest) == sent + [frame] + rest;
  }

  /** The stream sends exactly the specified frames and leaves the hub's subscriptions as it found them. */
  method EventStream(hub: QueryEventHub, q: QueryId, snapshot: Payload, script: seq<Turn>) returns (frames: seq<Frame>)
    requires hub.Valid()
    modifies hub, hub.queues
    ensures hub.Valid() && hub.subscribers == old(hub.subscribers)
    ensures frames == Frames(snapshot, script, q)
  {
    ghost var before := hub.View();
    var queue := hub.Subscribe(q);
    assert hub.subscribers[q][|Subs(before, q)|] == queue && queue in hub.subscribers[q];
    frames := [Status(snapshot)];
    if !Final(snapshot) {
      var events := StreamLoop(hub, q, queue, script);
      frames := frames + events;
    }
    UnsubscribingUndoes(before, hub.View(), q, queue);
    hub.Unsubscribe(q, queue);
  }

  lemma UnsubscribingUndoes<Q>(s: HubState<Q>, t: HubState<Q>, q: QueryId, u: Q)
    requires t.subs == Subscribed(s, q, u).subs && u !in Subs(s, q) && (q in s.subs ==> s.subs[q] != [])
    ensures Unsubscribed(t, q, u).subs == s.subs
  {
    var list := Subs(s, q);
    assert t.subs[q] == list + [u] && (list + [u])[|list|] == u;
    WithoutLast(list, u);
  }

  lemma {:induction false} WithoutLast<Q>(list: seq<Q>, u: Q)
    requires u !in list
    ensures Without(list + [u], u) == list
    decreases |list|
  {
    if list == [] {
    } else {
      assert (list + [u])[1..] == list[1..] + [u];
      WithoutLast(list[1..], u);
    }
  }

  // ----- What the frames mean -----

  function Arrivals(script: seq<Turn>): seq<Payload> {
    if script == [] then [] else script[0].arrivals + Arrivals(script[1..])
  }

  function Events(frames: seq<Frame>): seq<Payload> {
    if frames == [] then [] else (if frames[0].Status? then [frames[0].p] else []) + Events(frames[1..])
  }

  lemma {:induction false} ForQueryAppend(a: seq<Payload>, b: seq<Payload>, q: QueryId)
    ensures ForQuery(a + b, q) == ForQuery(a, q) + ForQuery(b, q)
    decreases |b|
  {
    if b == [] {
      assert a + b == a;
    } else {
      assert (a + b)[..|a + b| - 1] == a + b[..|b| - 1];
      ForQueryAppend(a, b[..|b| - 1], q);
    }
  }

  lemma PrefixCons(x: Payload, a: seq<Payload>, b: seq<Payload>)
    requires a <= b
    ensures [x] + a <= [x] + b
  {
  }

  lemma EventsCons(f: Frame, frames: seq<Frame>)
    ensures Events([f] + frames) == (if f.Status? then [f.p] else []) + Events(frames)
  {
    assert ([f] + frames)[1..] == frames;
  }

  lemma {:induction false} LoopSendsAPrefix(script: seq<Turn>, q: QueryId, waiting: seq<Payload>)
    ensures Events(LoopFrames(script, q, waiting)) <= waiting + ForQuery(Arrivals(script), q)
    decreases |script|
  {
    if script == [] || script[0].disconnected {
    } else {
      var queued := waiting + ForQuery(script[0].arrivals, q);
      var rest := ForQuery(Arrivals(script[1..]), q);
      AllQueued(script, q, waiting);
      if queued == [] {
        LoopSendsAPrefix(script[1..], q, []);
        EventsCons(KeepAlive, LoopFrames(script[1..], q, []));
        assert [] + rest == rest && queued + rest == rest;
      } else if Final(queued[0]) {
        FirstThenPrefix(queued, [], rest);
        assert [Status(queued[0])] + [] == [Status(queued[0])];
      } else {
        LoopSendsAPrefix(script[1..], q, queued[1..]);
        FirstThenPrefix(queued, LoopFrames(script[1..], q, queued[1..]), rest);
      }
    }
  }

  lemma AllQueued(script: seq<Turn>, q: QueryId, waiting: seq<Payload>)
    requires script != []
    ensures waiting + ForQuery(Arrivals(script), q) ==
            waiting + ForQuery(script[0].arrivals, q) + ForQuery(Arrivals(script[1..]), q)
  {
    ForQueryAppend(script[0].arrivals, Arrivals(script[1..]), q);
  }

  lemma FirstThenPrefix(queued: seq<Payload>, next: seq<Frame>, rest: seq<Payload>)
    requires queued != [] && Events(next) <= queued[1..] + rest
    ensures Events([Status(queued[0])] + next) <= queued + rest
  {
    EventsCons(Status(queued[0]), next);
    PrefixCons(queued[0], Events(next), queued[1..] + rest);
    assert queued + rest == [queued[0]] + (queued[1..] + rest);
  }

  /** The events sent are the snapshot followed by a prefix of what was dispatched for the query, in order. */
  lemma StreamSendsAPrefix(snapshot: Payload, script: seq<Turn>, q: QueryId)
    ensures Events(Frames(snapshot, script, q)) <= [snapshot] + ForQuery(Arrivals(script), q)
    ensures Events(Frames(snapshot, script, q)) != [] && Events(Frames(snapshot, script, q))[0] == snapshot
  {
    LoopSendsAPrefix(script, q, []);
    assert Frames(snapshot, script, q)[1..] == if Final(snapshot) then [] else LoopFrames(script, q, []);
    assert [] + ForQuery(Arrivals(script), q) == ForQuery(Arrivals(script), q);
  }

  lemma {:induction false} LoopStopsAtFinal(script: seq<Turn>, q: QueryId, waiting: seq<Payload>, k: nat)
    requires k < |LoopFrames(script, q, waiting)|
    requires LoopFrames(script, q, waiting)[k].Status? && Final(LoopFrames(script, q, waiting)[k].p)
    ensures k == |LoopFrames(script, q, waiting)| - 1
    decreases |script|
  {
    var queued := waiting + ForQuery(script[0].arrivals, q);
    if k == 0 {
    } else {
      LoopStopsAtFinal(script[1..], q, if queued == [] then [] else queued[1..], k - 1);
    }
  }

  /** Nothing follows the first terminal event. */
  lemma StreamStopsAtFinal(snapshot: Payload, script: seq<Turn>, q: QueryId, k: nat)
    requires k < |Frames(snapshot, script, q)|
    requires Frames(snapshot, script, q)[k].Status? && Final(Frames(snapshot, script, q)[k].p)
    ensures k == |Frames(snapshot, script, q)| - 1
  {
    if k > 0 {
      LoopStopsAtFinal(script, q, [], k - 1);
    }
  }

  lemma {:induction false} LoopKeepsAlive(script: seq<Turn>, q: QueryId, waiting: seq<Payload>, k: nat)
    requires k < |LoopFrames(script, q, waiting)|
    ensures k < |script|
    ensures LoopFrames(script, q, waiting)[k].KeepAlive? <==>
            Events(LoopFrames(script, q, waiting)[..k]) == waiting + ForQuery(Arrivals(script[..k + 1]), q)
    decreases |script|
  {
    var frames := LoopFrames(script, q, waiting);
    var queued := waiting + ForQuery(script[0].arrivals, q);
    if k == 0 {
      assert script[..1] == [script[0]] && [script[0]][1..] == [];
      assert script[0].arrivals + [] == script[0].arrivals;
    } else {
      var left := if queued == [] then [] else queued[1..];
      var rest := LoopFrames(script[1..], q, left);
      LoopKeepsAlive(script[1..], q, left, k - 1);
      assert frames == [frames[0]] + rest;
      assert frames[..k] == [frames[0]] + rest[..k - 1];
      EventsCons(frames[0], rest[..k - 1]);
      var later := ForQuery(Arrivals(script[1..][..k]), q);
      assert script[..k + 1][1..] == script[1..][..k];
      AllQueued(script[..k + 1], q, waiting);
      SentOrLeft(queued, left, Events(rest[..k - 1]), later);
    }
  }

  lemma SentOrLeft(queued: seq<Payload>, left: seq<Payload>, sent: seq<Payload>, later: seq<Payload>)
    requires left == if queued == [] then [] else queued[1..]
    ensures (if queued == [] then [] else [queued[0]]) + sent == queued + later <==> sent == left + later
  {
    if queued != [] {
      assert queued + later == [queued[0]] + (left + later);
      assert ([queued[0]] + sent)[1..] == sent && ([queued[0]] + (left + later))[1..] == left + later;
    }
  }

  /** A round sends a keep-alive exactly when all that was dispatched for the query by then has been sent. */
  lemma StreamKeepsAlive(snapshot: Payload, script: seq<Turn>, q: QueryId, k: nat)
    requires 1 <= k < |Frames(snapshot, script, q)|
    ensures k <= |script|
    ensures Frames(snapshot, script, q)[k].KeepAlive? <==>
            Events(Frames(snapshot, script, q)[..k]) == [snapshot] + ForQuery(Arrivals(script[..k]), q)
  {
    var rest := LoopFrames(script, q, []);
    LoopKeepsAlive(script, q, [], k - 1);
    assert Frames(snapshot, script, q)[..k] == [Status(snapshot)] + rest[..k - 1];
    EventsCons(Status(snapshot), rest[..k - 1]);
    SentOrLeft([snapshot], [], Events(rest[..k - 1]), ForQuery(Arrivals(script[..k]), q));
    var all := ForQuery(Arrivals(script[..k]), q);
    assert [] + all == all;
  }

  function GoneAt(script: seq<Turn>): nat {
    if script == [] || script[0].disconnected then 0 else 1 + GoneAt(script[1..])
  }

  ghost predicate NoneFinal(frames: seq<Frame>) {
    forall k :: 0 <= k < |frames| ==> !Last(frames[k])
  }

  lemma NoneFinalTail(frame: Frame, rest: seq<Frame>)
    requires NoneFinal([frame] + rest)
    ensures !Last(frame) && NoneFinal(rest)
  {
    var frames := [frame] + rest;
    assert frames[0] == frame;
    assert forall k :: 0 <= k < |rest| ==> rest[k] == frames[k + 1];
  }

  lemma {:induction false} LoopRunsUntilGone(script: seq<Turn>, q: QueryId, waiting: seq<Payload>)
    requires NoneFinal(LoopFrames(script, q, waiting))
    ensures |LoopFrames(script, q, waiting)| == GoneAt(script)
    decreases |script|
  {
    if script == [] || script[0].disconnected {
    } else {
      var queued := waiting + ForQuery(script[0].arrivals, q);
      if queued == [] {
        NoneFinalTail(KeepAlive, LoopFrames(script[1..], q, []));
        LoopRunsUntilGone(script[1..], q, []);
      } else {
        var rest := if Final(queued[0]) then [] else LoopFrames(script[1..], q, queued[1..]);
        NoneFinalTail(Status(queued[0]), rest);
        LoopRunsUntilGone(script[1..], q, queued[1..]);
      }
    }
  }

  /** A stream whose last frame is not terminal sent one frame per round until the client was gone. */
  lemma StreamRunsUntilGone(snapshot: Payload, script: seq<Turn>, q: QueryId)
    requires NoneFinal(Frames(snapshot, script, q))
    ensures |Frames(snapshot, script, q)| == 1 + GoneAt(script)
  {
    NoneFinalTail(Status(snapshot), if Final(snapshot) then [] else LoopFrames(script, q, []));
    LoopRunsUntilGone(script, q, []);
  }

  lemma {:induction false} EventsComeFrom(ps: seq<Payload>, q: QueryId)
    ensures forall k :: 0 <= k < |ForQuery(ps, q)| ==> ForQuery(ps, q)[k] in ps && ForQuery(ps, q)[k].query == Some(q)
    decreases |ps|
  {
    if ps == [] {
    } else {
      EventsComeFrom(ps[..|ps| - 1], q);
    }
  }

  /** A terminal event on the stream tells the truth: if what the hub dispatched was sent by the coordinator, in whatever
      order and however late, the row has that status from the moment of sending on. */
  lemma FinalEventIsTrue(now: int, steps: seq<Delivery.SplitStep>, snapshot: Payload, script: seq<Turn>, q: QueryId, e: Payload)
    requires forall p :: p in Arrivals(script) && p.query == Some(q) ==>
               exists i: nat :: Delivery.Sent(q, i, p.notice) in Delivery.SplitRun(now, steps).sent
    requires e in Events(Frames(snapshot, script, q))[1..] && Final(e)
    ensures q in Delivery.SplitRun(now, steps).db.queries
    ensures Delivery.SplitRun(now, steps).db.queries[q].status == e.notice.status
  {
    StreamSendsAPrefix(snapshot, script, q);
    EventsComeFrom(Arrivals(script), q);
    var events := Events(Frames(snapshot, script, q));
    var k :| 0 <= k < |events[1..]| && events[1..][k] == e;
    assert events[k + 1] == e && ([snapshot] + ForQuery(Arrivals(script), q))[k + 1] == e;
    Delivery.TerminalNoticesAreTrue(now, steps);
    var s := Delivery.SplitRun(now, steps);
    var at: nat :| Delivery.Sent(q, at, e.notice) in s.sent;
    var i :| 0 <= i < |s.sent| && s.sent[i] == Delivery.Sent(q, at, e.notice);
  }
}
