/** Key events deferred while a client owes a sync reply (src/lib/IMdkit/i18nPtHdr.c, src/lib/IMdkit/i18nMethod.c). */
module EventQueue {

  /** A forwarded event; back says whether its handler sends it back to the client. */
  datatype Event = Event(serial: int, back: bool)

  /** A sync reply answers an event sent back, or a sync request of the server's own. */
  datatype Message = ForwardEvent(e: Event) | SyncReply(toEvent: bool) | Other

  /** What a client's record stands for, and the events handled so far. */
  datatype View = View(sync: bool, queue: seq<Event>, handled: seq<Event>)

  /** The handler of one event; sending it back asks the client for a sync reply. */
  function Handle(v: View, e: Event): View {
    v.(sync := v.sync || e.back, handled := v.handled + [e])
  }

  /** ProcessQueue: deferred events in turn, until one is sent back. */
  function Drain(v: View): View
    decreases |v.queue|
  {
    if v.sync || v.queue == [] then v else Drain(Handle(v.(queue := v.queue[1..]), v.queue[0]))
  }

  /** The event in front handled, then taken away. */
  lemma DrainStep(v: View, w: View)
    requires !v.sync && v.queue != [] && w == Handle(v, v.queue[0]).(queue := v.queue[1..])
    ensures Drain(w) == Drain(v)
  {
  }

  function Step(v: View, m: Message): View {
    match m
    case ForwardEvent(e) => if v.sync then v.(queue := v.queue + [e]) else Handle(v, e)
    case SyncReply(_) => Drain(v.(sync := false))
    case Other => v
  }

  const START := View(false, [], [])

  /** The state after some messages, the last one last. */
  function After(ms: seq<Message>): View {
    if ms == [] then START else Step(After(ms[..|ms| - 1]), ms[|ms| - 1])
  }

  /** A node of the pending list. */
  class XIMPending {
    const p: Event
    var next: XIMPending?

    constructor (p: Event)
      ensures this.p == p && next == null
    {
      this.p := p;
      next := null;
    }
  }

  class Xi18nClient {
    var sync: bool
    var pending: XIMPending?
    ghost var nodes: seq<XIMPending>
    ghost var handled: seq<Event>

    /** The nodes are the list that starts at pending. */
    ghost predicate Valid()
      reads this, nodes
    {
      && Linked(nodes)
      && pending == NodeAt(nodes, 0)
    }

    ghost function Queue(): (q: seq<Event>)
      reads this
      ensures |q| == |nodes|
    {
      Events(nodes)
    }

    ghost function State(): View
      reads this
    {
      View(sync, Queue(), handled)
    }

    constructor ()
      ensures Valid() && State() == START && nodes == []
    {
      sync := false;
      pending := null;
      nodes := [];
      handled := [];
    }

    /** The loop of AddQueue: along the list to its last node. */
    static method LastOf(first: XIMPending, ghost nodes: seq<XIMPending>) returns (last: XIMPending)
      requires Linked(nodes) && first == NodeAt(nodes, 0)
      ensures nodes != [] && last == nodes[|nodes| - 1] && last.next == null
    {
      last := first;
      ghost var i := 0;
      while last.next != null
        invariant 0 <= i < |nodes| && last == nodes[i]
        decreases |nodes| - i
      {
        assert Followed(nodes, i);
        last := last.next;
        i := i + 1;
      }
      assert Followed(nodes, i);
    }

    /** AddQueue: a new node behind the last one. */
    method AddQueue(p: Event)
      requires Valid()
      modifies this, nodes
      ensures Valid() && forall n :: n in nodes ==> n in old(nodes) || fresh(n)
      ensures State() == old(State()).(queue := old(Queue()) + [p])
    {
      var new_ := new XIMPending(p);
      if pending == null {
        pending := new_;
        nodes := [new_];
      } else {
        var last := LastOf(pending, nodes);
        last.next := new_;
        LinkedMore(nodes, new_);
        nodes := nodes + [new_];
      }
      assert Queue() == old(Queue()) + [p];
    }

    /** ForwardEventMessageProc, as far as it concerns the client's record. */
    method ForwardEventMessageProc(e: Event)
      requires Valid()
      modifies this`sync, this`handled
      ensures Valid() && State() == Handle(old(State()), e)
    {
      handled := handled + [e];
      if e.back {
        sync := true;
      }
    }

    /** ProcessQueue: the event handled leaves the list after its handler. */
    method ProcessQueue()
      requires Valid()
      modifies this
      ensures Valid() && State() == Drain(old(State())) && forall n :: n in nodes ==> n in old(nodes)
    {
      while !sync && pending != null
        invariant Valid() && forall n :: n in nodes ==> n in old(nodes)
        invariant Drain(State()) == Drain(old(State()))
        decreases |nodes|
      {
        ghost var v := State();
        ForwardEventMessageProc(pending.p);
        LinkedTail(nodes);
        pending := pending.next;
        nodes := nodes[1..];
        DrainStep(v, State());
      }
    }

    /** The cases of _Xi18nMessageHandler that concern deferred events. */
    method MessageHandler(m: Message)
      requires Valid()
      modifies this, nodes
      ensures Valid() && forall n :: n in nodes ==> n in old(nodes) || fresh(n)
      ensures State() == Step(old(State()), m)
    {
      match m
      case ForwardEvent(e) =>
        if sync {
          AddQueue(e);
        } else {
          ForwardEventMessageProc(e);
        }
      case SyncReply(_) =>
        sync := false;
        assert State() == old(State()).(sync := false);
        ProcessQueue();
      case Other =>
    }
  }

  ghost function NodeAt(nodes: seq<XIMPending>, i: nat): XIMPending? {
    if i < |nodes| then nodes[i] else null
  }

  function Events(nodes: seq<XIMPending>): (q: seq<Event>)
    ensures |q| == |nodes| && forall i :: 0 <= i < |nodes| ==> q[i] == nodes[i].p
  {
    seq(|nodes|, i requires 0 <= i < |nodes| => nodes[i].p)
  }

  /** Each node is followed by the next, and the last by none. */
  ghost predicate Linked(nodes: seq<XIMPending>)
    reads nodes
  {
    && (forall i, j :: 0 <= i < j < |nodes| ==> nodes[i] != nodes[j])
    && forall i: nat :: i < |nodes| ==> Followed(nodes, i)
  }

  ghost predicate Followed(nodes: seq<XIMPending>, i: nat)
    requires i < |nodes|
    reads nodes
  {
    nodes[i].next == NodeAt(nodes, i + 1)
  }

  /** A new node behind the last one. */
  twostate lemma LinkedMore(nodes: seq<XIMPending>, new n: XIMPending)
    requires nodes != [] && n !in nodes && nodes[|nodes| - 1].next == n && n.next == null
    requires old(Linked(nodes)) && forall x :: x in nodes && x != nodes[|nodes| - 1] ==> x.next == old(x.next)
    ensures Linked(nodes + [n]) && NodeAt(nodes + [n], 0) == NodeAt(nodes, 0)
  {
    var more := nodes + [n];
    forall i: nat | i < |more| ensures Followed(more, i) {
      assert i < |nodes| ==> more[i] == nodes[i] && old(Followed(nodes, i));
    }
  }

  lemma LinkedTail(nodes: seq<XIMPending>)
    requires nodes != [] && Linked(nodes)
    ensures Linked(nodes[1..]) && nodes[0].next == NodeAt(nodes[1..], 0) && Events(nodes[1..]) == Events(nodes)[1..]
  {
    var tail := nodes[1..];
    assert Followed(nodes, 0);
    forall i: nat | i < |tail| ensures Followed(tail, i) {
      assert tail[i] == nodes[i + 1] && Followed(nodes, i + 1);
    }
  }

  // Every run

  /** The events that arrived. */
  function Arrived(ms: seq<Message>): seq<Event> {
    if ms == [] then []
    else
      var before := Arrived(ms[..|ms| - 1]);
      match ms[|ms| - 1] case ForwardEvent(e) => before + [e] case _ => before
  }

  function EventReplies(ms: seq<Message>): nat {
    if ms == [] then 0
    else EventReplies(ms[..|ms| - 1]) + if ms[|ms| - 1].SyncReply? && ms[|ms| - 1].toEvent then 1 else 0
  }

  /** How many of some events were sent back. */
  function SentBack(es: seq<Event>): nat {
    if es == [] then 0 else SentBack(es[..|es| - 1]) + if es[|es| - 1].back then 1 else 0
  }

  /** What draining keeps: the events and their order; it stops with an empty queue or one more event sent back. */
  lemma {:induction false} DrainKeeps(v: View)
    ensures var w := Drain(v);
      && w.handled + w.queue == v.handled + v.queue && |w.handled| >= |v.handled|
      && (w.sync || w.queue == [])
      && SentBack(w.handled) == SentBack(v.handled) + (if w.sync && !v.sync then 1 else 0)
      && (!v.sync && v.queue != [] ==> |w.queue| < |v.queue|)
    decreases |v.queue|
  {
    if !v.sync && v.queue != [] {
      var e := v.queue[0];
      var u := Handle(v.(queue := v.queue[1..]), e);
      DrainKeeps(u);
      assert v.queue == [e] + v.queue[1..];
      assert u.handled + u.queue == v.handled + v.queue;
      assert u.handled[..|v.handled|] == v.handled;
    }
  }

  /** In every run the events are handled in the order they arrived, none lost or repeated, and none waits without a reason. */
  lemma {:induction false} EventsInOrder(ms: seq<Message>)
    ensures var v := After(ms); v.handled + v.queue == Arrived(ms) && (!v.sync ==> v.queue == [])
  {
    if ms != [] {
      var v := After(ms[..|ms| - 1]);
      EventsInOrder(ms[..|ms| - 1]);
      match ms[|ms| - 1]
      case ForwardEvent(e) =>
        if v.sync {
          assert v.handled + (v.queue + [e]) == v.handled + v.queue + [e];
        } else {
          assert v.handled + [e] + [] == v.handled + v.queue + [e];
        }
      case SyncReply(_) =>
        DrainKeeps(v.(sync := false));
      case Other =>
    }
  }

  /** How many events sent back the client has not acknowledged. */
  function Unacknowledged(ms: seq<Message>): int {
    SentBack(After(ms).handled) - EventReplies(ms)
  }

  /** The client acknowledges only events it was sent and has not acknowledged yet. */
  predicate Answers(ms: seq<Message>) {
    ms == [] || (
      var before, m := ms[..|ms| - 1], ms[|ms| - 1];
      Answers(before) && (m.SyncReply? && m.toEvent ==> Unacknowledged(before) > 0))
  }

  /** A reply to a request of the server's own came while an event was out, and cleared sync; no acknowledgement came since. */
  predicate Loose(ms: seq<Message>) {
    ms != [] && (
      var before := ms[..|ms| - 1];
      match ms[|ms| - 1]
      case SyncReply(toEvent) => !toEvent && (Loose(before) || After(before).sync)
      case _ => Loose(before))
  }

  predicate HasBack(es: seq<Event>) {
    exists i :: 0 <= i < |es| && es[i].back
  }

  /** Whether a message may be handled: while sync was cleared too early, nothing that is sent back. */
  predicate Quiet(before: seq<Message>, m: Message) {
    match m
    case ForwardEvent(e) => Loose(before) && !After(before).sync ==> !e.back
    case SyncReply(toEvent) => !toEvent && After(before).sync ==> !HasBack(After(before).queue)
    case Other => true
  }

  predicate Calm(ms: seq<Message>) {
    ms == [] || (Calm(ms[..|ms| - 1]) && Quiet(ms[..|ms| - 1], ms[|ms| - 1]))
  }

  /** Draining sends an event back if and only if one that is sent back was deferred. */
  lemma {:induction false} DrainSends(v: View)
    requires !v.sync
    ensures Drain(v).sync == HasBack(v.queue)
    decreases |v.queue|
  {
    if v.queue != [] {
      var rest := v.queue[1..];
      if !v.queue[0].back {
        DrainSends(Handle(v.(queue := rest), v.queue[0]));
        if HasBack(v.queue) {
          var i :| 0 <= i < |v.queue| && v.queue[i].back;
          assert rest[i - 1].back;
        }
        if HasBack(rest) {
          var i :| 0 <= i < |rest| && rest[i].back;
          assert v.queue[i + 1].back;
        }
      }
    }
  }

  /** In a calm run an event is out exactly while sync is set or was cleared too early. */
  lemma {:induction false} CalmCounts(ms: seq<Message>)
    requires Answers(ms) && Calm(ms)
    ensures Unacknowledged(ms) == if After(ms).sync || Loose(ms) then 1 else 0
    ensures !(After(ms).sync && Loose(ms))
  {
    if ms != [] {
      var before, m := ms[..|ms| - 1], ms[|ms| - 1];
      CalmCounts(before);
      EventsInOrder(before);
      OneStep(before, m);
    }
  }

  /** The first message that is not quiet leaves two events out. */
  lemma LoudCounts(before: seq<Message>, m: Message)
    requires Answers(before) && Calm(before) && !Quiet(before, m)
    ensures Unacknowledged(before + [m]) == 2
  {
    CalmCounts(before);
    EventsInOrder(before);
    OneStep(before, m);
  }

  /** What one message does to the count. */
  lemma OneStep(before: seq<Message>, m: Message)
    ensures var v, ms := After(before), before + [m];
      match m
      case ForwardEvent(e) => Unacknowledged(ms) == Unacknowledged(before) + (if !v.sync && e.back then 1 else 0)
      case SyncReply(toEvent) =>
        && Unacknowledged(ms) == Unacknowledged(before) + (if HasBack(v.queue) then 1 else 0) - (if toEvent then 1 else 0)
        && After(ms).sync == HasBack(v.queue)
      case Other => Unacknowledged(ms) == Unacknowledged(before)
  {
    var v := After(before);
    OneMore(before, m);
    match m
    case ForwardEvent(e) =>
      assert (v.handled + [e])[..|v.handled|] == v.handled;
    case SyncReply(_) =>
      DrainKeeps(v.(sync := false));
      DrainSends(v.(sync := false));
    case Other =>
  }

  /** Never more than one event is out if and only if the run is calm. */
  lemma {:induction false} OneUnacknowledged(ms: seq<Message>)
    requires Answers(ms)
    ensures (forall k: nat :: k <= |ms| ==> Unacknowledged(ms[..k]) <= 1) <==> Calm(ms)
  {
    if ms == [] {
      assert ms[..0] == [];
    } else {
      var before, m := ms[..|ms| - 1], ms[|ms| - 1];
      OneUnacknowledged(before);
      assert ms[..|ms|] == ms == before + [m];
      forall k: nat | k <= |before| ensures before[..k] == ms[..k] {
      }
      if Calm(ms) {
        CalmCounts(ms);
        forall k: nat | k <= |ms| ensures Unacknowledged(ms[..k]) <= 1 {
          if k < |ms| {
            assert Unacknowledged(before[..k]) <= 1;
          }
        }
      } else if Calm(before) {
        LoudCounts(before, m);
      } else {
        var k: nat :| k <= |before| && Unacknowledged(before[..k]) > 1;
        assert Unacknowledged(ms[..k]) > 1;
      }
    }
  }

  /** The reply to a request of the server's own lets a second event go back before the first is acknowledged. */
  lemma StraySync(a: Event, b: Event) returns (ms: seq<Message>)
    requires a.back && b.back
    ensures Answers(ms) && !Calm(ms) && Arrived(ms) == [a, b] && EventReplies(ms) == 0 && Unacknowledged(ms) == 2
  {
    var one := [] + [ForwardEvent(a)];
    var two := one + [SyncReply(false)];
    ms := two + [ForwardEvent(b)];
    OneMore([], ForwardEvent(a));
    OneMore(one, SyncReply(false));
    OneMore(two, ForwardEvent(b));
    assert After(two) == View(false, [], [a]);
    assert SentBack([a] + [b]) == SentBack([a]) + 1 && SentBack([a]) == 1 by {
      assert ([a] + [b])[..1] == [a] && [a][..0] == [];
    }
  }

  lemma OneMore(ms: seq<Message>, m: Message)
    ensures var more := ms + [m];
      && After(more) == Step(After(ms), m)
      && EventReplies(more) == EventReplies(ms) + (if m.SyncReply? && m.toEvent then 1 else 0)
      && Arrived(more) == Arrived(ms) + (if m.ForwardEvent? then [m.e] else [])
      && (Answers(more) <==> Answers(ms) && (m.SyncReply? && m.toEvent ==> Unacknowledged(ms) > 0))
      && (Calm(more) <==> Calm(ms) && Quiet(ms, m))
      && (Loose(more) <==> if m.SyncReply? then !m.toEvent && (Loose(ms) || After(ms).sync) else Loose(ms))
  {
    assert (ms + [m])[..|ms|] == ms;
  }

  /** Without new events, as many replies as there are deferred events leave none deferred. */
  lemma {:induction false} RepliesDrain(v: View, n: nat)
    requires |v.queue| <= n
    ensures Replied(v, n).queue == []
    decreases n
  {
    if n > 0 {
      DrainKeeps(v.(sync := false));
      RepliesDrain(Step(v, SyncReply(true)), n - 1);
    }
  }

  function Replied(v: View, n: nat): View
    decreases n
  {
    if n == 0 then v else Replied(Step(v, SyncReply(true)), n - 1)
  }
}
