/** Clients waiting for a GTID set (river/sync.go): nobody is answered twice, or too early, or left waiting. */
module SyncWaiters {
  import opened Types
  import opened Batch
  import opened Master
  import opened Sync

  /** Each pending entry is filed under what it asked for, and nothing was sent on its channel yet. */
  ghost predicate FiledFits(subs: Subscribers, inbox: Inbox, asked: map<nat, GTIDSet>) {
    forall t :: t in Tickets(subs) ==>
      && Holder(subs, t).channel in asked && asked[Holder(subs, t).channel] == t.gtid
      && Sent(inbox, Holder(subs, t).channel) == []
  }

  ghost predicate OwnChannels(subs: Subscribers) {
    forall t, u :: t in Tickets(subs) && u in Tickets(subs) && Holder(subs, t).channel == Holder(subs, u).channel ==> t == u
  }

  /** At most one value per channel, and only a set that covers what was asked for. */
  ghost predicate AnswersFit(inbox: Inbox, asked: map<nat, GTIDSet>) {
    forall c :: c in inbox ==>
      |inbox[c]| <= 1 && (|inbox[c]| == 1 ==> c in asked && asked[c] <= inbox[c][0])
  }

  /** No pending subscriber waits for something the published checkpoint already covers. */
  ghost predicate NobodyOverdue(subs: Subscribers, current: Option<GTIDSet>) {
    forall t :: t in Tickets(subs) ==> current.Some? && !(t.gtid <= current.value)
  }

  ghost predicate Served(c: Clients, current: Option<GTIDSet>) {
    && FiledFits(c.pending, c.inbox, c.asked) && OwnChannels(c.pending)
    && AnswersFit(c.inbox, c.asked) && NobodyOverdue(c.pending, current)
  }

  ghost predicate WaitersInv(s: State) {
    Served(s.clients, s.master.gtid)
  }

  /* ---------- the nested maps ---------- */

  lemma AddedTicket(subs: Subscribers, gtid: GTIDSet, sub: Subscriber)
    ensures var t := Ticket(sub.peer, gtid, |WaitersFor(subs, sub.peer, gtid)|);
            var next := WithSubscriber(subs, gtid, sub);
            && Tickets(next) == Tickets(subs) + {t} && t !in Tickets(subs)
            && Holder(next, t) == sub
            && forall u :: u in Tickets(subs) ==> Holder(next, u) == Holder(subs, u)
  {
    var t := Ticket(sub.peer, gtid, |WaitersFor(subs, sub.peer, gtid)|);
    var next := WithSubscriber(subs, gtid, sub);
    forall u ensures u in Tickets(next) <==> u in Tickets(subs) || u == t {
    }
  }

  /** Cancelling removes the subscribers of one peer and no others. */
  lemma RemovedPeer(subs: Subscribers, peer: string)
    ensures Tickets(subs - {peer}) == set t | t in Tickets(subs) && t.peer != peer
    ensures forall t :: t in Tickets(subs - {peer}) ==> Holder(subs - {peer}, t) == Holder(subs, t)
  {
  }

  lemma RemainingTickets(subs: Subscribers, gtid: GTIDSet)
    ensures Tickets(StillWaiting(subs, gtid)) == set t | t in Tickets(subs) && !(t.gtid <= gtid)
    ensures forall t :: t in Tickets(StillWaiting(subs, gtid)) ==> Holder(StillWaiting(subs, gtid), t) == Holder(subs, t)
  {
    forall t ensures t in Tickets(StillWaiting(subs, gtid)) <==> t in Tickets(subs) && !(t.gtid <= gtid) {
    }
  }

  lemma AtMostOneSatisfied(subs: Subscribers, gtid: GTIDSet, channel: nat)
    requires OwnChannels(subs)
    ensures |Satisfied(subs, gtid, channel)| == if channel in SatisfiedChannels(subs, gtid) then 1 else 0
  {
    var all := Satisfied(subs, gtid, channel);
    hide Tickets, Holder;
    if channel in SatisfiedChannels(subs, gtid) {
      var t :| t in Tickets(subs) && t.gtid <= gtid && Holder(subs, t).channel == channel;
      assert all == {t};
    } else {
      assert all == {};
    }
  }

  /* ---------- steps ---------- */

  lemma FilingKeepsOwnChannels(c: Clients, gtid: GTIDSet, sub: Subscriber)
    requires FiledFits(c.pending, c.inbox, c.asked) && OwnChannels(c.pending) && sub.channel !in c.asked
    ensures OwnChannels(WithSubscriber(c.pending, gtid, sub))
  {
    AddedTicket(c.pending, gtid, sub);
    hide Tickets, Holder, WithSubscriber;
  }

  lemma FilingKeepsServed(c: Clients, current: Option<GTIDSet>, sub: Subscriber)
    requires Served(c, current) && sub.gtid.Some? && sub.channel !in c.asked
    requires current.Some? && !(sub.gtid.value <= current.value)
    ensures Served(Subscribe(c, current, sub), current)
  {
    FilingKeepsOwnChannels(c, sub.gtid.value, sub);
    AddedTicket(c.pending, sub.gtid.value, sub);
    hide Tickets, Holder, WithSubscriber, OwnChannels;
  }

  lemma AnsweringKeepsServed(c: Clients, current: Option<GTIDSet>, sub: Subscriber)
    requires Served(c, current) && sub.gtid.Some? && sub.channel !in c.asked
    requires current.Some? ==> sub.gtid.value <= current.value
    ensures Served(Subscribe(c, current, sub), current)
  {
    hide Tickets, Holder, WithSubscriber;
  }

  lemma SubscribeKeepsServed(c: Clients, current: Option<GTIDSet>, sub: Subscriber)
    requires Served(c, current)
    requires sub.gtid.Some? ==> sub.channel !in c.asked
    ensures Served(Subscribe(c, current, sub), current)
  {
    hide Served;
    if sub.gtid.Some? {
      if current.Some? && !(sub.gtid.value <= current.value) {
        FilingKeepsServed(c, current, sub);
      } else {
        AnsweringKeepsServed(c, current, sub);
      }
    }
  }

  lemma CancelKeepsServed(c: Clients, current: Option<GTIDSet>, peer: string)
    requires Served(c, current)
    ensures Served(c.(pending := c.pending - {peer}), current)
  {
    RemovedPeer(c.pending, peer);
    hide Tickets, Holder;
  }

  lemma AcceptKeepsWaiters(s: State, msg: Message)
    requires WaitersInv(s)
    requires msg.SubscribeMsg? && msg.subscriber.gtid.Some? ==> msg.subscriber.channel !in s.clients.asked
    ensures WaitersInv(Accept(s, msg))
  {
    hide Served;
    match msg
    case PositionMsg(_) =>
    case RowMsg(_) =>
    case SubscribeMsg(sub) => SubscribeKeepsServed(s.clients, s.master.gtid, sub);
    case CancelMsg(peer) => CancelKeepsServed(s.clients, s.master.gtid, peer);
  }

  /** What a channel holds after everyone a set covers was answered. */
  lemma AnsweredOnce(subs: Subscribers, inbox: Inbox, gtid: GTIDSet, channel: nat)
    requires OwnChannels(subs)
    ensures Sent(NotifiedInbox(subs, inbox, gtid), channel)
         == Sent(inbox, channel) + if channel in SatisfiedChannels(subs, gtid) then [gtid] else []
  {
    AtMostOneSatisfied(subs, gtid, channel);
    hide SatisfiedChannels, Satisfied;
  }

  lemma AnswersStayFit(subs: Subscribers, inbox: Inbox, asked: map<nat, GTIDSet>, gtid: GTIDSet)
    requires FiledFits(subs, inbox, asked) && OwnChannels(subs) && AnswersFit(inbox, asked)
    ensures AnswersFit(NotifiedInbox(subs, inbox, gtid), asked)
  {
    var next := NotifiedInbox(subs, inbox, gtid);
    hide Tickets, Holder, OwnChannels;
    forall c | c in next ensures |next[c]| <= 1 && (|next[c]| == 1 ==> c in asked && asked[c] <= next[c][0]) {
      AnsweredOnce(subs, inbox, gtid, c);
      assert next[c] == Sent(next, c);
      if c in SatisfiedChannels(subs, gtid) {
        var t :| t in Tickets(subs) && t.gtid <= gtid && Holder(subs, t).channel == c;
        assert next[c] == [gtid];
      }
    }
  }

  lemma WaitersStayFiled(subs: Subscribers, inbox: Inbox, asked: map<nat, GTIDSet>, gtid: GTIDSet)
    requires FiledFits(subs, inbox, asked) && OwnChannels(subs)
    ensures FiledFits(StillWaiting(subs, gtid), NotifiedInbox(subs, inbox, gtid), asked)
    ensures OwnChannels(StillWaiting(subs, gtid))
  {
    RemainingTickets(subs, gtid);
    var left := StillWaiting(subs, gtid);
    hide Tickets, Holder, StillWaiting, NotifiedInbox;
    forall t | t in Tickets(left) ensures Sent(NotifiedInbox(subs, inbox, gtid), Holder(subs, t).channel) == [] {
      AnsweredOnce(subs, inbox, gtid, Holder(subs, t).channel);
      assert Holder(subs, t).channel !in SatisfiedChannels(subs, gtid);
    }
  }

  /** Answering everyone a new set covers: each of them gets exactly one value, the others keep waiting. */
  lemma NotifyServes(c: Clients, current: Option<GTIDSet>, gtid: GTIDSet)
    requires Served(c, current)
    ensures Served(Notify(c, Some(gtid)), Some(gtid))
    ensures forall t :: t in Tickets(c.pending) && t.gtid <= gtid ==>
              Sent(Notify(c, Some(gtid)).inbox, Holder(c.pending, t).channel) == [gtid]
  {
    WaitersStayFiled(c.pending, c.inbox, c.asked, gtid);
    AnswersStayFit(c.pending, c.inbox, c.asked, gtid);
    RemainingTickets(c.pending, gtid);
    hide Tickets, Holder, StillWaiting, NotifiedInbox;
    forall t | t in Tickets(c.pending) && t.gtid <= gtid
      ensures Sent(NotifiedInbox(c.pending, c.inbox, gtid), Holder(c.pending, t).channel) == [gtid]
    {
      AnsweredOnce(c.pending, c.inbox, gtid, Holder(c.pending, t).channel);
      assert Holder(c.pending, t).channel in SatisfiedChannels(c.pending, gtid);
    }
  }

  /** A position that does not count as a change may still replace the GTID set, but only by a smaller one. */
  lemma UnchangedKeepsServed(c: Clients, m: Checkpoint, head: PositionEvent)
    requires Served(c, m.gtid) && !Differs(m, head)
    ensures Served(c, Moved(m, head).gtid)
  {
    hide Tickets, Holder;
  }

  lemma PublishKeepsWaiters(s: State, savedAt: int)
    requires WaitersInv(s)
    ensures WaitersInv(Publish(s, savedAt))
  {
    if savedAt - s.timing.lastSaved > SAVE_INTERVAL && s.q.window != [] {
      var head := s.q.window[0];
      if !Differs(s.master, head) {
        UnchangedKeepsServed(s.clients, s.master, head);
      } else if head.gtid.Some? {
        NotifyServes(s.clients, s.master.gtid, head.gtid.value);
      }
      hide Served, Notify;
    }
  }

  lemma FlushKeepsWaiters(cfg: Config, s: State, env: FlushEnv)
    requires WaitersInv(s)
    ensures WaitersInv(Flush(cfg, s, env))
  {
    hide Served, Publish, Offset, Part;
    var split := Split(s.q, ReadyAt(cfg, env.now));
    if env.result.BatchApplied? && Offset(split) <= |split.window| {
      PublishKeepsWaiters(s.(log := ApplyBatch(s.log, split.staged), timing := Rearm(cfg, s.timing, split.queue, env),
                             q := Advance(split)), env.savedAt);
    }
  }

  lemma StepKeepsWaiters(cfg: Config, s: State, input: Input)
    requires WaitersInv(s)
    requires input.Receive? && input.msg.SubscribeMsg? && input.msg.subscriber.gtid.Some? ==>
               input.msg.subscriber.channel !in s.clients.asked
    ensures WaitersInv(Step(cfg, s, input))
  {
    hide Flush, Accept, Served;
    if s.status == Running {
      match input
      case Quit =>
      case Tick(env) => FlushKeepsWaiters(cfg, Fired(cfg, s), env);
      case Receive(msg, env) =>
        AcceptKeepsWaiters(s, msg);
        FlushKeepsWaiters(cfg, Accept(s, msg), env);
    }
  }

  /* ---------- every run ---------- */

  predicate Asks(input: Input, channel: nat) {
    input.Receive? && input.msg.SubscribeMsg? && input.msg.subscriber.gtid.Some? && input.msg.subscriber.channel == channel
  }

  /** Every request brings its own channel, as the HTTP handler makes one per request. */
  ghost predicate OwnRequests(inputs: seq<Input>) {
    forall j, k, c :: 0 <= j < k < |inputs| && Asks(inputs[j], c) ==> !Asks(inputs[k], c)
  }

  lemma FlushAsksNothing(cfg: Config, s: State, env: FlushEnv)
    ensures Flush(cfg, s, env).clients.asked == s.clients.asked
  {
    hide Offset, Part, NotifiedInbox, StillWaiting, FirstSeen;
  }

  lemma AskedGrows(cfg: Config, s: State, input: Input, c: nat)
    requires c in Step(cfg, s, input).clients.asked
    ensures c in s.clients.asked || Asks(input, c)
  {
    hide Flush, WithSubscriber, AddEvent, AddRow;
    match input
    case Quit =>
    case Tick(env) => FlushAsksNothing(cfg, Fired(cfg, s), env);
    case Receive(msg, env) => FlushAsksNothing(cfg, Accept(s, msg), env);
  }

  /** Over every run each subscriber is sent at most one value, so a channel of capacity one never blocks the
      loop; the value covers what was asked for; and at every loop head nobody who is still pending waits for
      a set the checkpoint already covers. */
  lemma {:induction false} WaitersAreServed(cfg: Config, m: Checkpoint, startedAt: int, inputs: seq<Input>)
    requires OwnRequests(inputs)
    ensures WaitersInv(Run(cfg, Init(m, startedAt), inputs))
    ensures forall c :: c in Run(cfg, Init(m, startedAt), inputs).clients.asked ==> AskedIn(inputs, c)
  {
    if inputs == [] {
      assert Tickets(map[]) == {};
    } else {
      var prior, input := Front(inputs), Last(inputs);
      WaitersAreServed(cfg, m, startedAt, prior);
      hide Step, WaitersInv;
      var s := Run(cfg, Init(m, startedAt), prior);
      assert input == inputs[|inputs| - 1] && forall k :: 0 <= k < |prior| ==> prior[k] == inputs[k];
      StepKeepsWaiters(cfg, s, input);
      forall c | c in Step(cfg, s, input).clients.asked ensures AskedIn(inputs, c) {
        AskedGrows(cfg, s, input, c);
      }
    }
  }

  ghost predicate AskedIn(inputs: seq<Input>, c: nat) {
    exists k :: 0 <= k < |inputs| && Asks(inputs[k], c)
  }

  /* ---------- every request ---------- */

  ghost predicate IsPending(subs: Subscribers, sub: Subscriber) {
    exists t :: IsTicketOf(subs, sub, t)
  }

  ghost predicate IsTicketOf(subs: Subscribers, sub: Subscriber, t: Ticket) {
    t in Tickets(subs) && t.peer == sub.peer && Some(t.gtid) == sub.gtid && Holder(subs, t) == sub
  }

  /** The subscriber has its answer, or waits for it. */
  ghost predicate Reached(c: Clients, sub: Subscriber) {
    |Sent(c.inbox, sub.channel)| == 1 || IsPending(c.pending, sub)
  }

  /** A request is answered when it is covered, and filed when it is not. */
  lemma SubscribeReaches(c: Clients, current: Option<GTIDSet>, sub: Subscriber)
    requires Served(c, current) && current.Some? && sub.gtid.Some? && sub.channel !in c.asked
    ensures Reached(Subscribe(c, current, sub), sub)
    ensures sub.gtid.value <= current.value ==> Sent(Subscribe(c, current, sub).inbox, sub.channel) == [current.value]
    ensures !(sub.gtid.value <= current.value) ==> IsPending(Subscribe(c, current, sub).pending, sub)
  {
    NothingSentYet(c, current, sub.channel);
    AddedTicket(c.pending, sub.gtid.value, sub);
    hide Tickets, Holder, WithSubscriber, Served;
    if !(sub.gtid.value <= current.value) {
      var t := Ticket(sub.peer, sub.gtid.value, |WaitersFor(c.pending, sub.peer, sub.gtid.value)|);
      assert IsTicketOf(WithSubscriber(c.pending, sub.gtid.value, sub), sub, t);
    }
  }

  lemma NothingSentYet(c: Clients, current: Option<GTIDSet>, channel: nat)
    requires Served(c, current) && channel !in c.asked
    ensures Sent(c.inbox, channel) == []
  {
    hide FiledFits, OwnChannels, NobodyOverdue;
  }

  lemma SubscribeKeepsReached(c: Clients, current: Option<GTIDSet>, other: Subscriber, sub: Subscriber)
    requires Reached(c, sub) && (other.gtid.Some? ==> other.channel != sub.channel)
    ensures Reached(Subscribe(c, current, other), sub)
  {
    if other.gtid.Some? {
      AddedTicket(c.pending, other.gtid.value, other);
      hide Tickets, Holder, WithSubscriber;
      if IsPending(c.pending, sub) {
        var t :| IsTicketOf(c.pending, sub, t);
        assert IsTicketOf(WithSubscriber(c.pending, other.gtid.value, other), sub, t);
        assert IsPending(Subscribe(c, current, other).pending, sub);
      }
    }
  }

  lemma CancelKeepsReached(c: Clients, peer: string, sub: Subscriber)
    requires Reached(c, sub) && peer != sub.peer
    ensures Reached(c.(pending := c.pending - {peer}), sub)
  {
    RemovedPeer(c.pending, peer);
    hide Tickets, Holder;
    if IsPending(c.pending, sub) {
      var t :| IsTicketOf(c.pending, sub, t);
      assert IsTicketOf(c.pending - {peer}, sub, t);
    }
  }

  /** Notifying answers whoever is covered, keeps the others, and takes no answer back. */
  lemma NotifyKeepsReached(c: Clients, current: Option<GTIDSet>, gtid: Option<GTIDSet>, sub: Subscriber)
    requires Served(c, current) && Reached(c, sub)
    ensures Reached(Notify(c, gtid), sub)
  {
    if gtid.Some? {
      NotifyServes(c, current, gtid.value);
      RemainingTickets(c.pending, gtid.value);
      AnsweredOnce(c.pending, c.inbox, gtid.value, sub.channel);
      hide Tickets, Holder, StillWaiting, NotifiedInbox, OwnChannels, AnswersFit, NobodyOverdue;
      if IsPending(c.pending, sub) {
        var t :| IsTicketOf(c.pending, sub, t);
        if !(t.gtid <= gtid.value) {
          assert IsTicketOf(StillWaiting(c.pending, gtid.value), sub, t);
        }
      } else {
        assert sub.channel !in SatisfiedChannels(c.pending, gtid.value);
      }
    }
  }

  lemma PublishKeepsReached(s: State, savedAt: int, sub: Subscriber)
    requires WaitersInv(s) && Reached(s.clients, sub)
    ensures Reached(Publish(s, savedAt).clients, sub)
  {
    if s.q.window != [] {
      NotifyKeepsReached(s.clients, s.master.gtid, s.q.window[0].gtid, sub);
    }
    hide Notify, Reached, Served;
  }

  lemma FlushKeepsReached(cfg: Config, s: State, env: FlushEnv, sub: Subscriber)
    requires WaitersInv(s) && Reached(s.clients, sub)
    ensures Reached(Flush(cfg, s, env).clients, sub)
  {
    hide Served, Publish, Offset, Part, Reached;
    var split := Split(s.q, ReadyAt(cfg, env.now));
    if env.result.BatchApplied? && Offset(split) <= |split.window| {
      PublishKeepsReached(s.(log := ApplyBatch(s.log, split.staged), timing := Rearm(cfg, s.timing, split.queue, env),
                             q := Advance(split)), env.savedAt, sub);
    }
  }

  predicate Cancels(input: Input, peer: string) {
    input.Receive? && input.msg == CancelMsg(peer)
  }

  lemma StepKeepsReached(cfg: Config, s: State, input: Input, sub: Subscriber)
    requires WaitersInv(s) && Reached(s.clients, sub) && !Asks(input, sub.channel)
    requires input.Receive? && input.msg.SubscribeMsg? && input.msg.subscriber.gtid.Some? ==>
               input.msg.subscriber.channel !in s.clients.asked
    ensures s.status != Running || !Cancels(input, sub.peer) ==> Reached(Step(cfg, s, input).clients, sub)
  {
    hide Flush, Served, Reached;
    if s.status == Running && !Cancels(input, sub.peer) {
      match input
      case Quit =>
      case Tick(env) => FlushKeepsReached(cfg, Fired(cfg, s), env, sub);
      case Receive(msg, env) =>
        AcceptKeepsWaiters(s, msg);
        AcceptKeepsReached(s, msg, sub);
        hide Accept;
        FlushKeepsReached(cfg, Accept(s, msg), env, sub);
    }
  }

  lemma AcceptKeepsReached(s: State, msg: Message, sub: Subscriber)
    requires Reached(s.clients, sub) && msg != CancelMsg(sub.peer)
    requires msg.SubscribeMsg? && msg.subscriber.gtid.Some? ==> msg.subscriber.channel != sub.channel
    ensures Reached(Accept(s, msg).clients, sub)
  {
    match msg
    case PositionMsg(_) =>
    case RowMsg(_) =>
    case SubscribeMsg(other) => SubscribeKeepsReached(s.clients, s.master.gtid, other, sub);
    case CancelMsg(peer) => CancelKeepsReached(s.clients, peer, sub);
    hide Reached, Subscribe;
  }

  /** A cancelled peer has no pending request any more; nobody else is touched, and nothing is sent. A request for no set is
      ignored. */
  lemma CancelCancels(s: State, peer: string, sub: Subscriber)
    ensures var after := Accept(s, CancelMsg(peer));
            && Tickets(after.clients.pending) == (set t | t in Tickets(s.clients.pending) && t.peer != peer)
            && after.clients.inbox == s.clients.inbox
    ensures sub.gtid.None? ==> Accept(s, SubscribeMsg(sub)) == s
  {
    RemovedPeer(s.clients.pending, peer);
    hide Tickets;
  }

  /** The request is taken while the loop runs and the checkpoint has a set. */
  ghost predicate IsRequest(cfg: Config, start: State, inputs: seq<Input>, k: nat, sub: Subscriber)
    requires k < |inputs|
  {
    && inputs[k].Receive? && inputs[k].msg == SubscribeMsg(sub) && sub.gtid.Some?
    && Run(cfg, start, inputs[..k]).status == Running && Run(cfg, start, inputs[..k]).master.gtid.Some?
  }

  /** The peer was cancelled after the request. */
  ghost predicate CancelledAt(cfg: Config, start: State, inputs: seq<Input>, k: nat, peer: string, j: nat)
    requires j < |inputs|
  {
    k < j && Cancels(inputs[j], peer) && Run(cfg, start, inputs[..j]).status == Running
  }

  ghost predicate IsCancelled(cfg: Config, start: State, inputs: seq<Input>, k: nat, peer: string) {
    exists j :: 0 <= j < |inputs| && CancelledAt(cfg, start, inputs, k, peer, j)
  }

  lemma CancelledEarlier(cfg: Config, start: State, inputs: seq<Input>, k: nat, peer: string)
    requires inputs != []
    ensures IsCancelled(cfg, start, inputs, k, peer) <==>
              IsCancelled(cfg, start, Front(inputs), k, peer) ||
              CancelledAt(cfg, start, inputs, k, peer, |inputs| - 1)
  {
    hide Run, Cancels;
    var prior := Front(inputs);
    forall j | 0 <= j < |prior|
      ensures CancelledAt(cfg, start, inputs, k, peer, j) == CancelledAt(cfg, start, prior, k, peer, j)
    {
      assert inputs[..j] == prior[..j];
    }
    hide CancelledAt;
  }

  lemma FirstOf(inputs: seq<Input>, k: nat)
    requires k < |inputs| - 1
    ensures Front(inputs)[..k] == inputs[..k] && Front(inputs)[k] == inputs[k]
  {
  }

  /** Over every run each request taken while the checkpoint has a set has been sent exactly one value, or is pending, or its
      peer was cancelled afterwards. */
  lemma {:induction false} RequestIsReached(cfg: Config, m: Checkpoint, startedAt: int, inputs: seq<Input>, k: nat,
                                            sub: Subscriber)
    requires OwnRequests(inputs) && k < |inputs| && IsRequest(cfg, Init(m, startedAt), inputs, k, sub)
    ensures Reached(Run(cfg, Init(m, startedAt), inputs).clients, sub) ||
            IsCancelled(cfg, Init(m, startedAt), inputs, k, sub.peer)
  {
    var prior, input, start := Front(inputs), Last(inputs), Init(m, startedAt);
    var s := Run(cfg, start, prior);
    OwnRequestsBefore(inputs);
    WaitersAreServed(cfg, m, startedAt, prior);
    NewChannel(inputs, s.clients.asked);
    hide Step, WaitersInv, Reached, OwnRequests, Init;
    if k == |inputs| - 1 {
      assert inputs[..k] == prior;
      RequestReaches(cfg, s, input, sub);
    } else {
      FirstOf(inputs, k);
      CancelledEarlier(cfg, start, inputs, k, sub.peer);
      RequestIsReached(cfg, m, startedAt, prior, k, sub);
      if Reached(s.clients, sub) {
        NotAskedAgain(inputs, k, sub);
        StepKeepsReached(cfg, s, input, sub);
        assert inputs[..|inputs| - 1] == prior;
      }
    }
  }

  lemma OwnRequestsBefore(inputs: seq<Input>)
    requires inputs != [] && OwnRequests(inputs)
    ensures OwnRequests(Front(inputs))
  {
  }

  lemma NewChannel(inputs: seq<Input>, asked: map<nat, GTIDSet>)
    requires inputs != [] && OwnRequests(inputs) && forall c :: c in asked ==> AskedIn(Front(inputs), c)
    ensures var input := Last(inputs);
            input.Receive? && input.msg.SubscribeMsg? && input.msg.subscriber.gtid.Some? ==>
              input.msg.subscriber.channel !in asked
  {
    var input := Last(inputs);
    if input.Receive? && input.msg.SubscribeMsg? && input.msg.subscriber.gtid.Some? {
      AskedOnce(inputs, input.msg.subscriber.channel);
    }
  }

  lemma AskedOnce(inputs: seq<Input>, c: nat)
    requires inputs != [] && OwnRequests(inputs) && Asks(Last(inputs), c)
    ensures !AskedIn(Front(inputs), c)
  {
    assert Asks(inputs[|inputs| - 1], c);
    forall j | 0 <= j < |inputs| - 1 ensures !Asks(Front(inputs)[j], c) {
      assert Front(inputs)[j] == inputs[j];
    }
  }

  lemma NotAskedAgain(inputs: seq<Input>, k: nat, sub: Subscriber)
    requires OwnRequests(inputs) && k < |inputs| - 1
    requires inputs[k].Receive? && inputs[k].msg == SubscribeMsg(sub) && sub.gtid.Some?
    ensures !Asks(Last(inputs), sub.channel)
  {
    assert Asks(inputs[k], sub.channel);
    assert Last(inputs) == inputs[|inputs| - 1];
  }

  lemma RequestReaches(cfg: Config, s: State, input: Input, sub: Subscriber)
    requires WaitersInv(s) && s.status == Running && s.master.gtid.Some? && sub.gtid.Some? && sub.channel !in s.clients.asked
    requires input.Receive? && input.msg == SubscribeMsg(sub)
    ensures Reached(Step(cfg, s, input).clients, sub)
  {
    SubscribeReaches(s.clients, s.master.gtid, sub);
    hide Served, Reached, Subscribe;
  }

  /** A request that was not cancelled and whose set the checkpoint covers has been sent exactly one value, which covers it. */
  lemma CoveredRequestIsAnswered(cfg: Config, m: Checkpoint, startedAt: int, inputs: seq<Input>, k: nat, sub: Subscriber)
    requires OwnRequests(inputs) && k < |inputs| && IsRequest(cfg, Init(m, startedAt), inputs, k, sub)
    requires !IsCancelled(cfg, Init(m, startedAt), inputs, k, sub.peer)
    requires var current := Run(cfg, Init(m, startedAt), inputs).master.gtid; current.Some? && sub.gtid.value <= current.value
    ensures |Sent(Run(cfg, Init(m, startedAt), inputs).clients.inbox, sub.channel)| == 1
  {
    hide Run, Tickets, Holder, IsCancelled, IsRequest, OwnRequests;
    RequestIsReached(cfg, m, startedAt, inputs, k, sub);
    WaitersAreServed(cfg, m, startedAt, inputs);
    var c := Run(cfg, Init(m, startedAt), inputs).clients;
    forall t ensures !IsTicketOf(c.pending, sub, t) {
    }
  }
}
