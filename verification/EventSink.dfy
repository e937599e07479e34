// agentorchestrator/events.go: the event sink of one run, with its bounded subscriber channels.
// Every locked method is one step; a consumer taking an event from its channel is a step too.
module EventSink {
  import opened Common
  import opened Sequences

  const BUFFER: nat := 64            // subscriberBufSize

  datatype Event = Event(sequence: int, body: string)

  /** A channel: all that was ever sent into it, and how much of that was taken out again. */
  datatype Chan = Chan(sent: seq<Event>, taken: nat, closed: bool)

  const NEW_CHAN := Chan([], 0, false)

  /** The sink.  Channels are numbered in order of creation; subscribers holds those numbers. */
  datatype Sink = Sink(events: seq<Event>, next: int, subscribers: seq<nat>, chans: seq<Chan>,
                       done: bool, dropped: nat)

  const NEW_SINK := Sink([], 0, [], [], false, 0)

  // ---- Channel operations; None is a panic ----

  predicate Full(c: Chan) {
    |c.sent| - c.taken >= BUFFER
  }

  /** The non-blocking send. */
  function Offer(c: Chan, e: Event): Chan {
    if Full(c) then c else c.(sent := c.sent + [e])
  }

  function Close(chans: seq<Chan>, c: nat): Option<seq<Chan>> {
    if c < |chans| && !chans[c].closed then Some(chans[c := chans[c].(closed := true)]) else None
  }

  // ---- The sink's steps ----

  datatype Op = Emit(body: string) | Subscribe | Unsubscribe(chan: nat) | Finish | Receive(chan: nat)

  /** notifySubscribers from position i on. */
  function Notify(chans: seq<Chan>, dropped: nat, subscribers: seq<nat>, i: nat, e: Event)
    : Option<(seq<Chan>, nat)>
    requires i <= |subscribers|
    decreases |subscribers| - i
  {
    if i == |subscribers| then Some((chans, dropped))
    else
      var c := subscribers[i];
      if c < |chans| && !chans[c].closed then
        Notify(chans[c := Offer(chans[c], e)], dropped + (if Full(chans[c]) then 1 else 0), subscribers, i + 1, e)
      else None
  }

  /** The closing loop of Done from position i on. */
  function CloseAll(chans: seq<Chan>, subscribers: seq<nat>, i: nat): Option<seq<Chan>>
    requires i <= |subscribers|
    decreases |subscribers| - i
  {
    if i == |subscribers| then Some(chans)
    else
      match Close(chans, subscribers[i])
      case None => None
      case Some(after) => CloseAll(after, subscribers, i + 1)
  }

  function EmitStep(s: Sink, body: string): Option<Sink> {
    var e := Event(s.next + 1, body);
    match Notify(s.chans, s.dropped, s.subscribers, 0, e)
    case None => None
    case Some(after) =>
      Some(s.(events := s.events + [e], next := s.next + 1, chans := after.0, dropped := after.1))
  }

  function SubscribeStep(s: Sink): Sink {
    s.(subscribers := s.subscribers + [|s.chans|], chans := s.chans + [NEW_CHAN])
  }

  function UnsubscribeStep(s: Sink, c: nat): Option<Sink> {
    if c !in s.subscribers then Some(s)
    else
      match Close(s.chans, c)
      case None => None
      case Some(after) => Some(s.(subscribers := Without(s.subscribers, c), chans := after))
  }

  function FinishStep(s: Sink): Option<Sink> {
    if s.done then Some(s)
    else
      match CloseAll(s.chans, s.subscribers, 0)
      case None => None
      case Some(after) => Some(s.(done := true, chans := after, subscribers := []))
  }

  /** A consumer takes the oldest waiting event, if there is one. */
  function ReceiveStep(s: Sink, c: nat): Sink {
    if c < |s.chans| && s.chans[c].taken < |s.chans[c].sent| then
      s.(chans := s.chans[c := s.chans[c].(taken := s.chans[c].taken + 1)])
    else s
  }

  function Step(s: Sink, op: Op): Option<Sink> {
    match op
    case Emit(body) => EmitStep(s, body)
    case Subscribe => Some(SubscribeStep(s))
    case Unsubscribe(c) => UnsubscribeStep(s, c)
    case Finish => FinishStep(s)
    case Receive(c) => Some(ReceiveStep(s, c))
  }

  // ---- Interleavings ----

  datatype History = Start | Later(past: History, op: Op)

  function Run(h: History): Option<Sink> {
    match h
    case Start => Some(NEW_SINK)
    case Later(past, op) =>
      match Run(past)
      case None => None
      case Some(s) => Step(s, op)
  }

  // What happened, read off the history alone.

  function Emits(h: History): nat {
    match h
    case Start => 0
    case Later(past, op) => Emits(past) + (if op.Emit? then 1 else 0)
  }

  function Emitted(h: History): seq<Event> {
    match h
    case Start => []
    case Later(past, op) =>
      if op.Emit? then Emitted(past) + [Event(Emits(past) + 1, op.body)] else Emitted(past)
  }

  function Opened(h: History): nat {
    match h
    case Start => 0
    case Later(past, op) => Opened(past) + (if op.Subscribe? then 1 else 0)
  }

  predicate Finished(h: History) {
    h.Later? && (h.op.Finish? || Finished(h.past))
  }

  /** Subscription c (the c-th Subscribe) is open: not unsubscribed, and not ended by the first Done. */
  predicate Live(h: History, c: nat) {
    match h
    case Start => false
    case Later(past, op) =>
      match op
      case Subscribe => c == Opened(past) || Live(past, c)
      case Unsubscribe(d) => c != d && Live(past, c)
      case Finish => Finished(past) && Live(past, c)
      case _ => Live(past, c)
  }

  /** The events emitted while subscription c was open. */
  function Offered(h: History, c: nat): seq<Event> {
    match h
    case Start => []
    case Later(past, op) =>
      if op.Emit? && Live(past, c) then Offered(past, c) + [Event(Emits(past) + 1, op.body)]
      else Offered(past, c)
  }

  // ---- Every run keeps the sink sound, and no step panics ----

  ghost predicate Numbered(events: seq<Event>) {
    forall i | 0 <= i < |events| :: events[i].sequence == i + 1
  }

  /** The subscribers are exactly the channels still open. */
  ghost predicate Matched(subscribers: seq<nat>, chans: seq<Chan>) {
    && (forall i | 0 <= i < |subscribers| :: subscribers[i] < |chans| && !chans[subscribers[i]].closed)
    && (forall c | 0 <= c < |chans| && !chans[c].closed :: c in subscribers)
  }

  ghost predicate Bounded(chans: seq<Chan>) {
    forall c | 0 <= c < |chans| :: chans[c].taken <= |chans[c].sent| <= chans[c].taken + BUFFER
  }

  ghost predicate WF(s: Sink) {
    && s.next == |s.events|
    && Numbered(s.events)
    && Distinct(s.subscribers)
    && Matched(s.subscribers, s.chans)
    && Bounded(s.chans)
  }

  /** What one emission does: each subscriber is offered the event once, nobody else is touched, and
      every offer is either a send or a drop. */
  lemma {:induction false} NotifyEach(chans: seq<Chan>, dropped: nat, subs: seq<nat>, i: nat, e: Event)
    requires i <= |subs| && Distinct(subs)
    requires forall j | i <= j < |subs| :: subs[j] < |chans| && !chans[subs[j]].closed
    ensures var r := Notify(chans, dropped, subs, i, e);
            r.Some? && |r.value.0| == |chans|
            && (forall c | 0 <= c < |chans| ::
                  r.value.0[c] == if c in subs[i..] then Offer(chans[c], e) else chans[c])
            && TotalSent(r.value.0, |chans|) + r.value.1 == TotalSent(chans, |chans|) + dropped + |subs| - i
    decreases |subs| - i
  {
    if i < |subs| {
      var c := subs[i];
      var after := chans[c := Offer(chans[c], e)];
      NotifyEach(after, dropped + (if Full(chans[c]) then 1 else 0), subs, i + 1, e);
      TotalSentUpdate(chans, |chans|, c, Offer(chans[c], e));
      Split(subs, i);
    }
  }

  lemma Split(subs: seq<nat>, i: nat)
    requires i < |subs| && Distinct(subs)
    ensures forall c :: c in subs[i..] <==> c == subs[i] || c in subs[i + 1..]
    ensures subs[i] !in subs[i + 1..]
  {
    assert subs[i..] == [subs[i]] + subs[i + 1..];
  }

  /** Events sent, over the first n channels. */
  function TotalSent(chans: seq<Chan>, n: nat): nat
    requires n <= |chans|
  {
    if n == 0 then 0 else TotalSent(chans, n - 1) + |chans[n - 1].sent|
  }

  lemma {:induction false} TotalSentUpdate(chans: seq<Chan>, n: nat, c: nat, x: Chan)
    requires c < n <= |chans|
    ensures TotalSent(chans[c := x], n) == TotalSent(chans, n) - |chans[c].sent| + |x.sent|
  {
    if c == n - 1 {
      TotalSentSame(chans, chans[c := x], n - 1);
    } else {
      TotalSentUpdate(chans, n - 1, c, x);
    }
  }

  lemma {:induction false} TotalSentSame(a: seq<Chan>, b: seq<Chan>, n: nat)
    requires n <= |a| && n <= |b| && forall c | 0 <= c < n :: |a[c].sent| == |b[c].sent|
    ensures TotalSent(a, n) == TotalSent(b, n)
  {
    if n > 0 { TotalSentSame(a, b, n - 1); }
  }

  /** What Done does to the channels: closes each subscriber's, and only those. */
  lemma {:induction false} CloseEach(chans: seq<Chan>, subs: seq<nat>, i: nat)
    requires i <= |subs| && Distinct(subs)
    requires forall j | i <= j < |subs| :: subs[j] < |chans| && !chans[subs[j]].closed
    ensures var r := CloseAll(chans, subs, i);
            r.Some? && |r.value| == |chans|
            && (forall c | 0 <= c < |chans| ::
                  r.value[c] == if c in subs[i..] then chans[c].(closed := true) else chans[c])
    decreases |subs| - i
  {
    if i < |subs| {
      CloseEach(Close(chans, subs[i]).value, subs, i + 1);
      Split(subs, i);
    }
  }

  lemma EmitKeeps(s: Sink, body: string)
    requires WF(s)
    ensures EmitStep(s, body).Some? && WF(EmitStep(s, body).value)
    ensures var t := EmitStep(s, body).value;
            && t.events == s.events + [Event(s.next + 1, body)] && |t.chans| == |s.chans| && t.done == s.done
            && (forall c | 0 <= c < |s.chans| :: t.chans[c] ==
                  if s.chans[c].closed then s.chans[c] else Offer(s.chans[c], Event(s.next + 1, body)))
            && TotalSent(t.chans, |t.chans|) + t.dropped
               == TotalSent(s.chans, |s.chans|) + s.dropped + |s.subscribers|
  {
    NotifyEach(s.chans, s.dropped, s.subscribers, 0, Event(s.next + 1, body));
    assert s.subscribers[0..] == s.subscribers;
  }

  lemma SubscribeKeeps(s: Sink)
    requires WF(s)
    ensures WF(SubscribeStep(s))
  {
    var t := SubscribeStep(s);
    assert t.subscribers[|s.subscribers|] == |s.chans|;
    forall c | 0 <= c < |t.chans| && !t.chans[c].closed
      ensures c in t.subscribers
    {
      if c < |s.chans| { assert c in s.subscribers; }
    }
  }

  lemma UnsubscribeKeeps(s: Sink, c: nat)
    requires WF(s)
    ensures UnsubscribeStep(s, c).Some? && WF(UnsubscribeStep(s, c).value)
    ensures var t := UnsubscribeStep(s, c).value;
            && |t.chans| == |s.chans| && t.done == s.done && t.events == s.events && t.dropped == s.dropped
            && (forall d | 0 <= d < |s.chans| ::
                  t.chans[d] == if d == c then s.chans[d].(closed := true) else s.chans[d])
  {
    if c in s.subscribers {
      WithoutOne(s.subscribers, c);
      var t := UnsubscribeStep(s, c).value;
      assert forall i | 0 <= i < |t.subscribers| :: t.subscribers[i] in s.subscribers && t.subscribers[i] != c;
    } else {
      assert forall d | 0 <= d < |s.chans| && !s.chans[d].closed :: d != c;
    }
  }

  lemma FinishKeeps(s: Sink)
    requires WF(s)
    ensures FinishStep(s).Some? && WF(FinishStep(s).value)
    ensures var t := FinishStep(s).value;
            && |t.chans| == |s.chans| && t.done && t.events == s.events && t.dropped == s.dropped
            && (forall d | 0 <= d < |s.chans| ::
                  t.chans[d] == if s.done then s.chans[d] else s.chans[d].(closed := true))
  {
    if !s.done {
      CloseEach(s.chans, s.subscribers, 0);
      assert s.subscribers[0..] == s.subscribers;
    }
  }

  lemma StepSound(s: Sink, op: Op)
    requires WF(s)
    ensures Step(s, op).Some? && WF(Step(s, op).value)
    ensures var t := Step(s, op).value;
            && |t.events| == |s.events| + (if op.Emit? then 1 else 0)
            && |t.chans| == |s.chans| + (if op.Subscribe? then 1 else 0)
            && t.done == (s.done || op.Finish?)
  {
    match op
    case Emit(body) => EmitKeeps(s, body);
    case Subscribe => SubscribeKeeps(s);
    case Unsubscribe(c) => UnsubscribeKeeps(s, c);
    case Finish => FinishKeeps(s);
    case Receive(c) =>
  }

  /** No interleaving panics: nothing is sent into a closed channel, and no channel closes twice.
      Sequences are exactly 1..n in every state. */
  lemma {:induction false} RunSound(h: History)
    ensures Run(h).Some? && WF(Run(h).value)
    ensures var s := Run(h).value; |s.events| == Emits(h) && |s.chans| == Opened(h) && s.done == Finished(h)
  {
    if h.Later? {
      RunSound(h.past);
      StepSound(Run(h.past).value, h.op);
    }
  }

  lemma StepLog(s: Sink, op: Op)
    requires WF(s)
    ensures Step(s, op).Some?
    ensures Step(s, op).value.events == if op.Emit? then s.events + [Event(|s.events| + 1, op.body)] else s.events
  {
    match op
    case Emit(body) => EmitKeeps(s, body);
    case Subscribe =>
    case Unsubscribe(c) => UnsubscribeKeeps(s, c);
    case Finish => FinishKeeps(s);
    case Receive(c) =>
  }

  /** The log holds exactly what was emitted, in order. */
  lemma {:induction false} LogComplete(h: History)
    ensures Run(h).Some? && Run(h).value.events == Emitted(h)
  {
    RunSound(h);
    if h.Later? {
      LogComplete(h.past);
      RunSound(h.past);
      StepLog(Run(h.past).value, h.op);
    }
  }

  // ---- What one subscriber gets ----

  /** a can be had from b by leaving events out. */
  ghost predicate Subsequence(a: seq<Event>, b: seq<Event>) {
    if b == [] then a == []
    else
      || Subsequence(a, b[..|b| - 1])
      || (a != [] && a[|a| - 1] == b[|b| - 1] && Subsequence(a[..|a| - 1], b[..|b| - 1]))
  }

  /** Nothing is missing from the first BUFFER events. */
  ghost predicate Intact(a: seq<Event>, b: seq<Event>) {
    && |a| <= |b|
    && (|a| < |b| ==> |a| >= BUFFER)
    && (forall k | 0 <= k < |a| && k < BUFFER :: a[k] == b[k])
    && (|b| <= BUFFER ==> a == b)
  }

  lemma SubsequenceMore(a: seq<Event>, b: seq<Event>, e: Event)
    requires Subsequence(a, b)
    ensures Subsequence(a, b + [e]) && Subsequence(a + [e], b + [e])
  {
    Front(b, e);
    Front(a, e);
  }

  lemma OfferKeeps(ch: Chan, b: seq<Event>, e: Event)
    requires Subsequence(ch.sent, b) && Intact(ch.sent, b) && ch.taken <= |ch.sent|
    ensures Subsequence(Offer(ch, e).sent, b + [e]) && Intact(Offer(ch, e).sent, b + [e])
  {
    SubsequenceMore(ch.sent, b, e);
  }

  /** One step, as channel c sees it. */
  lemma StepChannel(s: Sink, op: Op, c: nat)
    requires WF(s) && c < |s.chans|
    ensures Step(s, op).Some? && c < |Step(s, op).value.chans|
    ensures var ch, after := s.chans[c], Step(s, op).value.chans[c];
            && after.sent == (if op.Emit? && !ch.closed then Offer(ch, Event(s.next + 1, op.body)).sent else ch.sent)
            && (after.closed <==> ch.closed || op == Unsubscribe(c) || (op.Finish? && !s.done))
            && after.taken == ch.taken + (if op == Receive(c) && ch.taken < |ch.sent| then 1 else 0)
  {
    match op
    case Emit(body) => EmitKeeps(s, body);
    case Subscribe =>
    case Unsubscribe(d) => UnsubscribeKeeps(s, d);
    case Finish => FinishKeeps(s);
    case Receive(d) =>
  }

  /** A subscriber's channel is open exactly while it is subscribed, holds at most BUFFER unread
      events, and has been sent a subsequence of the events emitted in that time, complete for the
      first BUFFER of them. */
  lemma {:induction false} SubscriberSees(h: History, c: nat)
    ensures Run(h).Some?
    ensures c >= |Run(h).value.chans| ==> !Live(h, c) && Offered(h, c) == []
    ensures c < |Run(h).value.chans| ==> Sees(Run(h).value.chans[c], Live(h, c), Offered(h, c))
  {
    RunSound(h);
    if h.Later? {
      RunSound(h.past);
      SubscriberSees(h.past, c);
      var s := Run(h.past).value;
      if c < |s.chans| {
        StepChannel(s, h.op, c);
        if h.op.Emit? && !s.chans[c].closed {
          OfferKeeps(s.chans[c], Offered(h.past, c), Event(s.next + 1, h.op.body));
        }
      }
    }
  }

  ghost predicate Sees(ch: Chan, live: bool, offered: seq<Event>) {
    && ch.taken <= |ch.sent| <= ch.taken + BUFFER
    && (ch.closed <==> !live)
    && Subsequence(ch.sent, offered)
    && Intact(ch.sent, offered)
  }

  // ---- Each subscription as a mailbox ----

  /** An event emitted to an open subscription joins those waiting unless 64 are waiting already; the
      consumer takes the oldest. */
  function Posted(w: seq<Event>, live: bool, op: Op, c: nat, n: int): seq<Event> {
    if op.Emit? && live && |w| < 64 then w + [Event(n, op.body)]
    else if op == Receive(c) && w != [] then w[1..]
    else w
  }

  /** The events waiting for subscription c. */
  function Waiting(h: History, c: nat): seq<Event> {
    match h
    case Start => []
    case Later(past, op) => Posted(Waiting(past, c), Live(past, c), op, c, Emits(past) + 1)
  }

  /** The events its consumer has taken. */
  function Got(h: History, c: nat): seq<Event> {
    match h
    case Start => []
    case Later(past, op) =>
      if op == Receive(c) && Waiting(past, c) != [] then Got(past, c) + [Waiting(past, c)[0]] else Got(past, c)
  }

  ghost predicate Holds(ch: Chan, got: seq<Event>, waiting: seq<Event>) {
    ch.sent == got + waiting && ch.taken == |got|
  }

  lemma TakeNext(got: seq<Event>, waiting: seq<Event>)
    requires waiting != []
    ensures got + [waiting[0]] + waiting[1..] == got + waiting
  {
  }

  lemma MailboxStep(ch: Chan, after: Chan, got: seq<Event>, w: seq<Event>, live: bool, op: Op, c: nat, n: int)
    requires Holds(ch, got, w) && live == !ch.closed
    requires after.sent == if op.Emit? && !ch.closed then Offer(ch, Event(n, op.body)).sent else ch.sent
    requires after.taken == ch.taken + (if op == Receive(c) && ch.taken < |ch.sent| then 1 else 0)
    ensures Holds(after, if op == Receive(c) && w != [] then got + [w[0]] else got, Posted(w, live, op, c, n))
  {
    if op.Emit? {
      Assoc(got, w, [Event(n, op.body)]);
    } else if op == Receive(c) && w != [] {
      TakeNext(got, w);
    }
  }

  /** Every channel is exactly its mailbox: an event is dropped only when 64 are waiting, and is received in
      order after those. */
  lemma {:induction false} MailboxExact(h: History, c: nat)
    ensures Run(h).Some?
    ensures c < |Run(h).value.chans| ==> Holds(Run(h).value.chans[c], Got(h, c), Waiting(h, c))
    ensures c >= |Run(h).value.chans| ==> Got(h, c) == [] && Waiting(h, c) == []
  {
    RunSound(h);
    if h.Later? {
      RunSound(h.past);
      MailboxExact(h.past, c);
      SubscriberSees(h.past, c);
      var s := Run(h.past).value;
      if c < |s.chans| {
        StepChannel(s, h.op, c);
        MailboxStep(s.chans[c], Run(h).value.chans[c], Got(h.past, c), Waiting(h.past, c), Live(h.past, c), h.op, c,
                    s.next + 1);
      }
    }
  }

  // ---- Conservation ----

  /** Events emitted, summed over the first n subscriptions while each was open. */
  function TotalOffered(h: History, n: nat): nat {
    if n == 0 then 0 else TotalOffered(h, n - 1) + |Offered(h, n - 1)|
  }

  function LiveAmong(h: History, n: nat): nat {
    if n == 0 then 0 else LiveAmong(h, n - 1) + (if Live(h, n - 1) then 1 else 0)
  }

  function OpenAmong(chans: seq<Chan>, n: nat): nat
    requires n <= |chans|
  {
    if n == 0 then 0 else OpenAmong(chans, n - 1) + (if chans[n - 1].closed then 0 else 1)
  }

  lemma {:induction false} LiveIsOpen(h: History, n: nat)
    requires Run(h).Some? && n <= |Run(h).value.chans|
    ensures LiveAmong(h, n) == OpenAmong(Run(h).value.chans, n)
  {
    if n > 0 {
      LiveIsOpen(h, n - 1);
      SubscriberSees(h, n - 1);
    }
  }

  ghost function OpenSet(chans: seq<Chan>, n: nat): set<nat>
    requires n <= |chans|
  {
    set c: nat | c < n && !chans[c].closed
  }

  lemma {:induction false} OpenSetSize(chans: seq<Chan>, n: nat)
    requires n <= |chans|
    ensures |OpenSet(chans, n)| == OpenAmong(chans, n)
  {
    if n == 0 {
      assert OpenSet(chans, 0) == {};
    } else {
      OpenSetSize(chans, n - 1);
      assert OpenSet(chans, n) == OpenSet(chans, n - 1) + (if chans[n - 1].closed then {} else {n - 1});
    }
  }

  lemma OpenIsSubscribed(s: Sink)
    requires WF(s)
    ensures OpenAmong(s.chans, |s.chans|) == |s.subscribers|
  {
    OpenSetSize(s.chans, |s.chans|);
    DistinctSize(s.subscribers);
    assert OpenSet(s.chans, |s.chans|) == Elems(s.subscribers);
  }

  lemma {:induction false} TotalOfferedStep(past: History, op: Op, n: nat)
    ensures TotalOffered(Later(past, op), n) == TotalOffered(past, n) + (if op.Emit? then LiveAmong(past, n) else 0)
  {
    if n > 0 { TotalOfferedStep(past, op, n - 1); }
  }

  lemma StepAccounts(s: Sink, op: Op)
    requires WF(s)
    ensures Step(s, op).Some?
    ensures var t := Step(s, op).value;
            TotalSent(t.chans, |t.chans|) + t.dropped
            == TotalSent(s.chans, |s.chans|) + s.dropped + (if op.Emit? then |s.subscribers| else 0)
  {
    match op
    case Emit(body) =>
      EmitKeeps(s, body);
    case Subscribe =>
      TotalSentSame(s.chans, SubscribeStep(s).chans, |s.chans|);
    case Unsubscribe(c) =>
      UnsubscribeKeeps(s, c);
      TotalSentSame(s.chans, UnsubscribeStep(s, c).value.chans, |s.chans|);
    case Finish =>
      FinishKeeps(s);
      TotalSentSame(s.chans, FinishStep(s).value.chans, |s.chans|);
    case Receive(c) =>
      TotalSentSame(s.chans, ReceiveStep(s, c).chans, |s.chans|);
  }

  /** Sends plus drops account for every event of every open subscription. */
  lemma {:induction false} Conserved(h: History)
    ensures Run(h).Some?
    ensures var s := Run(h).value; TotalSent(s.chans, |s.chans|) + s.dropped == TotalOffered(h, Opened(h))
  {
    RunSound(h);
    if h.Later? {
      Conserved(h.past);
      RunSound(h.past);
      var s := Run(h.past).value;
      StepAccounts(s, h.op);
      TotalOfferedStep(h.past, h.op, Opened(h.past));
      if h.op.Emit? {
        LiveIsOpen(h.past, |s.chans|);
        OpenIsSubscribed(s);
      } else if h.op.Subscribe? {
        SubscriberSees(h.past, |s.chans|);
      }
    }
  }

  lemma {:induction false} SentWithinOffered(h: History, chans: seq<Chan>, n: nat)
    requires n <= |chans| && forall c | 0 <= c < n :: |chans[c].sent| <= |Offered(h, c)|
    ensures TotalSent(chans, n) <= TotalOffered(h, n)
    ensures TotalSent(chans, n) == TotalOffered(h, n) <==>
            forall c | 0 <= c < n :: |chans[c].sent| == |Offered(h, c)|
  {
    if n > 0 { SentWithinOffered(h, chans, n - 1); }
  }

  lemma {:induction false} SubsequenceWhole(a: seq<Event>, b: seq<Event>)
    requires Subsequence(a, b)
    ensures |a| <= |b| && (|a| == |b| ==> a == b)
  {
    if b != [] {
      var front := b[..|b| - 1];
      assert b == front + [b[|b| - 1]];
      if Subsequence(a, front) {
        SubsequenceWhole(a, front);
      } else {
        SubsequenceWhole(a[..|a| - 1], front);
        assert a == a[..|a| - 1] + [a[|a| - 1]];
      }
    }
  }

  /** The drop counter detects gaps exactly: it is zero if and only if every subscriber was sent
      every event emitted while it was subscribed. */
  lemma DropCounterExact(h: History)
    ensures Run(h).Some?
    ensures var s := Run(h).value;
            s.dropped == 0 <==> forall c | 0 <= c < |s.chans| :: s.chans[c].sent == Offered(h, c)
  {
    Conserved(h);
    RunSound(h);
    var s := Run(h).value;
    forall c | 0 <= c < |s.chans|
      ensures |s.chans[c].sent| <= |Offered(h, c)|
      ensures |s.chans[c].sent| == |Offered(h, c)| <==> s.chans[c].sent == Offered(h, c)
    {
      SubscriberSees(h, c);
      SubsequenceWhole(s.chans[c].sent, Offered(h, c));
    }
    SentWithinOffered(h, s.chans, |s.chans|);
  }

  // ---- Resuming ----

  /** Those of the first n recorded events whose sequence is above k. */
  function After(events: seq<Event>, n: nat, k: int): seq<Event>
    requires n <= |events|
  {
    if n == 0 then []
    else After(events, n - 1, k) + (if events[n - 1].sequence > k then [events[n - 1]] else [])
  }

  function Suffix(events: seq<Event>, k: int): seq<Event> {
    if k < 0 then events else if k <= |events| then events[k..] else []
  }

  lemma {:induction false} AfterIsSuffix(events: seq<Event>, n: nat, k: int)
    requires Numbered(events) && n <= |events|
    ensures After(events, n, k) == Suffix(events[..n], k)
  {
    if n > 0 {
      AfterIsSuffix(events, n - 1, k);
      SuffixMore(events[..n - 1], events[n - 1], k);
      assert events[..n] == events[..n - 1] + [events[n - 1]];
      Unit(After(events, n - 1, k));
    }
  }

  lemma SuffixMore(front: seq<Event>, e: Event, k: int)
    requires e.sequence == |front| + 1
    ensures Suffix(front + [e], k) == if e.sequence > k then Suffix(front, k) + [e] else Suffix(front, k)
  {
  }

  /** In every reachable state, resuming after sequence k returns the suffix after position k. */
  lemma ResumeIsSuffix(h: History, k: int)
    ensures Run(h).Some?
    ensures var events := Run(h).value.events; After(events, |events|, k) == Suffix(events, k)
  {
    RunSound(h);
    var events := Run(h).value.events;
    AfterIsSuffix(events, |events|, k);
    assert events[..|events|] == events;
  }

  // ---- The sink object ----

  class EventSink {
    var events: seq<Event>
    var next: int
    var subscribers: seq<nat>
    var chans: seq<Chan>
    var done: bool
    var dropped: nat

    ghost function View(): Sink
      reads this
    {
      Sink(events, next, subscribers, chans, done, dropped)
    }

    constructor ()
      ensures View() == NEW_SINK
    {
      events, next, subscribers, chans, done, dropped := [], 0, [], [], false, 0;
    }

    method EmitEvent(body: string)
      requires WF(View())
      modifies this
      ensures WF(View()) && Some(View()) == Step(old(View()), Emit(body))
    {
      EmitKeeps(View(), body);
      next := next + 1;
      var e := Event(next, body);
      events := events + [e];
      NotifySubscribers(e);
    }

    method NotifySubscribers(e: Event)
      requires Distinct(subscribers)
      requires forall j | 0 <= j < |subscribers| :: subscribers[j] < |chans| && !chans[subscribers[j]].closed
      modifies this`chans, this`dropped
      ensures Notify(old(chans), old(dropped), subscribers, 0, e) == Some((chans, dropped))
    {
      for i := 0 to |subscribers|
        invariant Notify(chans, dropped, subscribers, i, e) == Notify(old(chans), old(dropped), subscribers, 0, e)
        invariant forall j | i <= j < |subscribers| :: subscribers[j] < |chans| && !chans[subscribers[j]].closed
      {
        var c := subscribers[i];
        if Full(chans[c]) {
          dropped := dropped + 1;
          assert chans[c := chans[c]] == chans;
        } else {
          chans := chans[c := chans[c].(sent := chans[c].sent + [e])];
        }
      }
    }

    method EventsFromSequence(k: int) returns (out: seq<Event>)
      ensures out == After(events, |events|, k)
      ensures Numbered(events) ==> out == Suffix(events, k)
    {
      out := [];
      for i := 0 to |events|
        invariant out == After(events, i, k)
      {
        if events[i].sequence > k {
          out := out + [events[i]];
        } else {
          Unit(out);
        }
      }
      if Numbered(events) {
        AfterIsSuffix(events, |events|, k);
        assert events[..|events|] == events;
      }
    }

    method SubscribeChannel() returns (c: nat)
      requires WF(View())
      modifies this
      ensures WF(View()) && Some(View()) == Step(old(View()), Subscribe) && c == |old(chans)|
    {
      SubscribeKeeps(View());
      c := |chans|;
      chans := chans + [NEW_CHAN];
      subscribers := subscribers + [c];
    }

    method CloseChannel(c: nat)
      requires c < |chans| && !chans[c].closed
      modifies this`chans
      ensures Close(old(chans), c) == Some(chans)
    {
      chans := chans[c := chans[c].(closed := true)];
    }

    method UnsubscribeChannel(c: nat)
      requires WF(View())
      modifies this
      ensures WF(View()) && Some(View()) == Step(old(View()), Unsubscribe(c))
    {
      UnsubscribeKeeps(View(), c);
      RemoveSubscriber(c);
    }

    method RemoveSubscriber(c: nat)
      requires c in subscribers ==> c < |chans| && !chans[c].closed
      modifies this`subscribers, this`chans
      ensures Some(View()) == UnsubscribeStep(old(View()), c)
    {
      var i := 0;
      while i < |subscribers| && subscribers[i] != c
        invariant i <= |subscribers| && c !in subscribers[..i]
      {
        i := i + 1;
      }
      if i < |subscribers| {
        WithoutAt(subscribers, i);
        subscribers := subscribers[..i] + subscribers[i + 1..];
        CloseChannel(c);
      } else {
        assert subscribers[..i] == subscribers;
      }
    }

    method CloseAllChannels()
      requires WF(View())
      modifies this
      ensures WF(View()) && Some(View()) == Step(old(View()), Finish)
    {
      FinishKeeps(View());
      if done { return; }
      done := true;
      for i := 0 to |subscribers|
        invariant events == old(events) && next == old(next) && subscribers == old(subscribers)
        invariant CloseAll(chans, subscribers, i) == CloseAll(old(chans), subscribers, 0)
        invariant done && dropped == old(dropped)
        invariant forall j | i <= j < |subscribers| :: subscribers[j] < |chans| && !chans[subscribers[j]].closed
      {
        CloseChannel(subscribers[i]);
      }
      subscribers := [];
    }
  }

  lemma {:induction false} WithoutAt(subs: seq<nat>, i: nat)
    requires i < |subs| && subs[i] !in subs[..i]
    ensures Without(subs, subs[i]) == subs[..i] + subs[i + 1..]
  {
    if i > 0 {
      assert subs[1..][..i - 1] == subs[1..i];
      assert forall x | x in subs[1..i] :: x in subs[..i];
      WithoutAt(subs[1..], i - 1);
      assert subs[..i] == [subs[0]] + subs[1..i];
      assert subs[1..][i..] == subs[i + 1..];
    }
  }
}
