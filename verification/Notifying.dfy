/** The nested loops that notify waiting clients (river/sync.go, `processGTIDSubscribers`), peer by peer and set by
    set in no particular order, tied to the function of `Sync`. */
module Notifying {
  import opened Master
  import opened Sync

  ghost function ChannelOf(subs: Subscribers, t: Ticket): nat {
    if t in Tickets(subs) then Holder(subs, t).channel else 0
  }

  ghost function OnChannel(subs: Subscribers, notified: set<Ticket>, channel: nat): set<Ticket> {
    set t | t in notified && ChannelOf(subs, t) == channel
  }

  ghost function ChannelsOf(subs: Subscribers, notified: set<Ticket>): set<nat> {
    set t | t in notified :: ChannelOf(subs, t)
  }

  function Copies(gtid: GTIDSet, n: nat): seq<GTIDSet> {
    seq(n, _ => gtid)
  }

  ghost predicate SentTo(subs: Subscribers, start: Inbox, gtid: GTIDSet, notified: set<Ticket>, inbox: Inbox, channel: nat) {
    Sent(inbox, channel) == Sent(start, channel) + Copies(gtid, |OnChannel(subs, notified, channel)|)
  }

  /** What is on the channels once these subscribers are notified. */
  ghost predicate Notified(subs: Subscribers, start: Inbox, gtid: GTIDSet, notified: set<Ticket>, inbox: Inbox) {
    && inbox.Keys == start.Keys + ChannelsOf(subs, notified)
    && forall c :: SentTo(subs, start, gtid, notified, inbox, c)
  }

  lemma NobodyNotified(subs: Subscribers, inbox: Inbox, gtid: GTIDSet)
    ensures Notified(subs, inbox, gtid, {}, inbox)
  {
    hide ChannelOf, Sent;
    assert ChannelsOf(subs, {}) == {};
    forall c ensures SentTo(subs, inbox, gtid, {}, inbox, c) {
      assert OnChannel(subs, {}, c) == {};
      assert Copies(gtid, 0) == [];
      hide OnChannel, Copies;
    }
    hide SentTo, ChannelsOf;
  }

  lemma OneMoreOnChannel(subs: Subscribers, notified: set<Ticket>, t: Ticket, channel: nat)
    requires t !in notified
    ensures |OnChannel(subs, notified + {t}, channel)|
         == |OnChannel(subs, notified, channel)| + if ChannelOf(subs, t) == channel then 1 else 0
  {
    hide ChannelOf;
    var prior := OnChannel(subs, notified, channel);
    assert OnChannel(subs, notified + {t}, channel) == if ChannelOf(subs, t) == channel then prior + {t} else prior;
  }

  lemma OneMoreSent(subs: Subscribers, start: Inbox, gtid: GTIDSet, notified: set<Ticket>, inbox: Inbox, t: Ticket, channel: nat)
    requires SentTo(subs, start, gtid, notified, inbox, channel) && t !in notified
    ensures var c := ChannelOf(subs, t);
            SentTo(subs, start, gtid, notified + {t}, inbox[c := Sent(inbox, c) + [gtid]], channel)
  {
    OneMoreOnChannel(subs, notified, t, channel);
    var n := |OnChannel(subs, notified, channel)|;
    assert Copies(gtid, n + 1) == Copies(gtid, n) + [gtid];
    hide ChannelOf, OnChannel;
  }

  lemma OneMoreNotified(subs: Subscribers, start: Inbox, gtid: GTIDSet, notified: set<Ticket>, inbox: Inbox, t: Ticket)
    requires Notified(subs, start, gtid, notified, inbox) && t !in notified
    ensures var c := ChannelOf(subs, t);
            Notified(subs, start, gtid, notified + {t}, inbox[c := Sent(inbox, c) + [gtid]])
  {
    var c := ChannelOf(subs, t);
    var next := inbox[c := Sent(inbox, c) + [gtid]];
    hide ChannelOf, SentTo;
    assert ChannelsOf(subs, notified + {t}) == ChannelsOf(subs, notified) + {c};
    forall channel ensures SentTo(subs, start, gtid, notified + {t}, next, channel) {
      OneMoreSent(subs, start, gtid, notified, inbox, t, channel);
    }
  }

  /* ---------- which subscribers ---------- */

  /** The first subscribers of one peer waiting for one set. */
  ghost function TicketsAt(peer: string, gtid: GTIDSet, n: nat): (tickets: set<Ticket>)
    ensures forall t :: t in tickets <==> t.peer == peer && t.gtid == gtid && t.k < n
  {
    if n == 0 then {} else TicketsAt(peer, gtid, n - 1) + {Ticket(peer, gtid, n - 1)}
  }

  /** The subscribers of some peers that the new set satisfies. */
  ghost function SatisfiedTickets(subs: Subscribers, peers: set<string>, current: GTIDSet): set<Ticket> {
    set t | t in Tickets(subs) && t.peer in peers && t.gtid <= current
  }

  /** The subscribers of one peer that the new set satisfies, among those who asked for one of the given sets. */
  ghost function TicketsOf(subs: Subscribers, peer: string, gtids: set<GTIDSet>, current: GTIDSet): set<Ticket> {
    set t | t in Tickets(subs) && t.peer == peer && t.gtid in gtids && t.gtid <= current
  }

  lemma TicketFor(subs: Subscribers, peer: string, gtid: GTIDSet, k: nat)
    requires peer in subs && gtid in subs[peer] && k < |subs[peer][gtid]|
    ensures ChannelOf(subs, Ticket(peer, gtid, k)) == subs[peer][gtid][k].channel
  {
  }

  lemma OneMoreSet(subs: Subscribers, notified: set<Ticket>, peer: string, gtids: set<GTIDSet>, gtid: GTIDSet, current: GTIDSet)
    requires peer in subs && gtid in subs[peer] && gtid !in gtids
    ensures notified + TicketsOf(subs, peer, gtids + {gtid}, current) == notified + TicketsOf(subs, peer, gtids, current)
              + if gtid <= current then TicketsAt(peer, gtid, |subs[peer][gtid]|) else {}
  {
    var more := if gtid <= current then TicketsAt(peer, gtid, |subs[peer][gtid]|) else {};
    forall t ensures t in TicketsOf(subs, peer, gtids + {gtid}, current) <==> t in TicketsOf(subs, peer, gtids, current) + more {
    }
    hide TicketsOf, TicketsAt;
  }

  lemma NotYetVisited(subs: Subscribers, notified: set<Ticket>, peer: string, gtids: set<GTIDSet>, gtid: GTIDSet,
                      current: GTIDSet)
    requires gtid !in gtids && forall t :: t in notified ==> t.peer != peer
    ensures forall t :: t in notified + TicketsOf(subs, peer, gtids, current) ==> t.peer != peer || t.gtid != gtid
  {
    hide Tickets;
  }

  lemma OneMorePeer(subs: Subscribers, peers: set<string>, peer: string, current: GTIDSet)
    requires peer in subs && peer !in peers
    ensures SatisfiedTickets(subs, peers + {peer}, current)
         == SatisfiedTickets(subs, peers, current) + TicketsOf(subs, peer, subs[peer].Keys, current)
    ensures forall t :: t in SatisfiedTickets(subs, peers, current) ==> t.peer != peer
  {
  }

  lemma AllSatisfied(subs: Subscribers, gtid: GTIDSet)
    ensures forall t :: t in SatisfiedTickets(subs, subs.Keys, gtid) <==> t in Tickets(subs) && t.gtid <= gtid
  {
  }

  lemma SatisfiedOn(subs: Subscribers, gtid: GTIDSet, channel: nat)
    ensures OnChannel(subs, SatisfiedTickets(subs, subs.Keys, gtid), channel) == Satisfied(subs, gtid, channel)
  {
    AllSatisfied(subs, gtid);
    hide Tickets, Holder, SatisfiedTickets;
  }

  lemma SatisfiedReach(subs: Subscribers, gtid: GTIDSet)
    ensures ChannelsOf(subs, SatisfiedTickets(subs, subs.Keys, gtid)) == SatisfiedChannels(subs, gtid)
  {
    AllSatisfied(subs, gtid);
    hide Tickets, Holder, SatisfiedTickets;
    var all := SatisfiedTickets(subs, subs.Keys, gtid);
    forall c ensures c in ChannelsOf(subs, all) <==> c in SatisfiedChannels(subs, gtid) {
      if c in SatisfiedChannels(subs, gtid) {
        var t :| t in Tickets(subs) && t.gtid <= gtid && Holder(subs, t).channel == c;
        assert t in all && ChannelOf(subs, t) == c;
      }
    }
  }

  lemma NotifiedOn(subs: Subscribers, inbox: Inbox, gtid: GTIDSet, channel: nat)
    ensures NotifiedInbox(subs, inbox, gtid).Keys == inbox.Keys + SatisfiedChannels(subs, gtid)
    ensures channel in NotifiedInbox(subs, inbox, gtid) ==>
              NotifiedInbox(subs, inbox, gtid)[channel] == Sent(inbox, channel) + Copies(gtid, |Satisfied(subs, gtid, channel)|)
  {
    hide Satisfied, SatisfiedChannels;
  }

  /** Once every peer was visited, the channels hold what the specification says. */
  lemma EveryoneNotified(subs: Subscribers, start: Inbox, gtid: GTIDSet, inbox: Inbox)
    requires Notified(subs, start, gtid, SatisfiedTickets(subs, subs.Keys, gtid), inbox)
    ensures inbox == NotifiedInbox(subs, start, gtid)
  {
    var all := SatisfiedTickets(subs, subs.Keys, gtid);
    SatisfiedReach(subs, gtid);
    NotifiedOn(subs, start, gtid, 0);
    forall c | c in inbox ensures inbox[c] == NotifiedInbox(subs, start, gtid)[c] {
      assert SentTo(subs, start, gtid, all, inbox, c);
      SatisfiedOn(subs, gtid, c);
      NotifiedOn(subs, start, gtid, c);
      hide Satisfied, OnChannel, SatisfiedTickets, SatisfiedChannels, NotifiedInbox, ChannelsOf, Copies;
    }
    hide NotifiedInbox, SatisfiedChannels, ChannelsOf, SatisfiedTickets, Copies;
  }

  function Uncovered(peerSubs: map<GTIDSet, seq<Subscriber>>, gtid: GTIDSet): map<GTIDSet, seq<Subscriber>> {
    map x | x in peerSubs && !(x <= gtid) :: peerSubs[x]
  }

  ghost function Covered(gtids: set<GTIDSet>, gtid: GTIDSet): set<GTIDSet> {
    set x | x in gtids && x <= gtid
  }

  lemma CoveredAreDropped(peerSubs: map<GTIDSet, seq<Subscriber>>, gtid: GTIDSet)
    ensures peerSubs - Covered(peerSubs.Keys, gtid) == Uncovered(peerSubs, gtid)
  {
  }

  /* ---------- the loops ---------- */

  /** Sends the new set to everyone of one peer who waited for one particular set. */
  method NotifyWaiters(waiters: seq<Subscriber>, newGTID: GTIDSet, inbox0: Inbox, ghost all: Subscribers, ghost start: Inbox,
                       ghost peer: string, ghost gtid: GTIDSet, ghost notified: set<Ticket>) returns (inbox: Inbox)
    requires peer in all && gtid in all[peer] && waiters == all[peer][gtid]
    requires forall t :: t in notified ==> t.peer != peer || t.gtid != gtid
    requires Notified(all, start, newGTID, notified, inbox0)
    ensures Notified(all, start, newGTID, notified + TicketsAt(peer, gtid, |waiters|), inbox)
  {
    inbox := inbox0;
    hide Notified, ChannelOf;
    assert notified + TicketsAt(peer, gtid, 0) == notified;
    for k := 0 to |waiters|
      invariant Notified(all, start, newGTID, notified + TicketsAt(peer, gtid, k), inbox)
    {
      var channel := waiters[k].channel;
      TicketFor(all, peer, gtid, k);
      OneMoreNotified(all, start, newGTID, notified + TicketsAt(peer, gtid, k), inbox, Ticket(peer, gtid, k));
      assert notified + TicketsAt(peer, gtid, k + 1) == notified + TicketsAt(peer, gtid, k) + {Ticket(peer, gtid, k)};
      inbox := inbox[channel := Sent(inbox, channel) + [newGTID]];
    }
  }

  /** Visits the sets one peer waits for; those that are covered are notified and dropped. */
  method NotifyPeer(peerSubs: map<GTIDSet, seq<Subscriber>>, newGTID: GTIDSet, inbox0: Inbox, ghost all: Subscribers,
                    ghost start: Inbox, ghost peer: string, ghost notified: set<Ticket>)
    returns (left: map<GTIDSet, seq<Subscriber>>, inbox: Inbox)
    requires peer in all && peerSubs == all[peer]
    requires forall t :: t in notified ==> t.peer != peer
    requires Notified(all, start, newGTID, notified, inbox0)
    ensures Notified(all, start, newGTID, notified + TicketsOf(all, peer, peerSubs.Keys, newGTID), inbox)
    ensures left == Uncovered(peerSubs, newGTID)
  {
    inbox := inbox0;
    var done: set<GTIDSet> := {};
    var rest := peerSubs.Keys;
    ghost var seen: set<GTIDSet> := {};
    ghost var reached := notified + TicketsOf(all, peer, {}, newGTID);
    assert reached == notified;
    hide Notified, Tickets, TicketsOf;
    while rest != {}
      invariant rest !! seen && rest + seen == peerSubs.Keys && done == Covered(seen, newGTID)
      invariant reached == notified + TicketsOf(all, peer, seen, newGTID)
      invariant Notified(all, start, newGTID, reached, inbox)
      decreases rest
    {
      var gtid :| gtid in rest;
      OneMoreSet(all, notified, peer, seen, gtid, newGTID);
      NotYetVisited(all, notified, peer, seen, gtid, newGTID);
      OneMoreCovered(seen, gtid, newGTID);
      hide TicketsAt, Covered;
      if gtid <= newGTID {
        inbox := NotifyWaiters(peerSubs[gtid], newGTID, inbox, all, start, peer, gtid, reached);
        done := done + {gtid};
        reached := reached + TicketsAt(peer, gtid, |peerSubs[gtid]|);
      }
      rest, seen := rest - {gtid}, seen + {gtid};
    }
    assert seen == peerSubs.Keys;
    CoveredAreDropped(peerSubs, newGTID);
    left := peerSubs - done;
  }

  lemma OneMoreCovered(gtids: set<GTIDSet>, gtid: GTIDSet, current: GTIDSet)
    ensures Covered(gtids + {gtid}, current) == Covered(gtids, current) + if gtid <= current then {gtid} else {}
  {
  }

  /** Visits all peers. */
  method NotifyAll(subs: Subscribers, newGTID: GTIDSet, inbox0: Inbox) returns (left: Subscribers, inbox: Inbox)
    ensures left == StillWaiting(subs, newGTID) && inbox == NotifiedInbox(subs, inbox0, newGTID)
  {
    left, inbox := subs, inbox0;
    var rest := subs.Keys;
    ghost var seen: set<string> := {};
    NobodyNotified(subs, inbox0, newGTID);
    assert SatisfiedTickets(subs, {}, newGTID) == {};
    while rest != {}
      invariant rest !! seen && rest + seen == subs.Keys == left.Keys
      invariant forall p :: p in rest ==> left[p] == subs[p]
      invariant forall p :: p in seen ==> left[p] == Uncovered(subs[p], newGTID)
      invariant Notified(subs, inbox0, newGTID, SatisfiedTickets(subs, seen, newGTID), inbox)
      decreases rest
    {
      hide Notified, SatisfiedTickets, TicketsOf, Uncovered;
      var peer :| peer in rest;
      OneMorePeer(subs, seen, peer, newGTID);
      var peerSubs;
      peerSubs, inbox := NotifyPeer(left[peer], newGTID, inbox, subs, inbox0, peer, SatisfiedTickets(subs, seen, newGTID));
      left := left[peer := peerSubs];
      rest, seen := rest - {peer}, seen + {peer};
    }
    assert seen == subs.Keys;
    EveryoneNotified(subs, inbox0, newGTID, inbox);
  }
}
