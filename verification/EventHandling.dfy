/** The replication event handler as an object (river/sync.go): each callback updates its fields and sends messages, and
    leaves it in the state that `Handler.Called` names. */
module EventHandling {
  import opened Types
  import opened Rule
  import opened Routing
  import opened Master
  import opened Handler

  class EventHandler {
    const setup: Setup
    var activeGTID: Option<GTIDSet>
    var completedGTID: Option<GTIDSet>
    var pos: Position
    /** The set the last GTID event announced: kept to say which rows belong to it, not used by the handler. */
    var announced: GTIDSet
    /** The channel to the synchronisation loop, as everything ever sent on it. */
    var syncC: seq<SentMessage>
    /** A callback returned an error or panicked: replication has stopped. */
    var failed: bool

    constructor (setup: Setup, master: MasterState)
      ensures this.setup == setup && View() == StartProducer(master.View())
    {
      this.setup := setup;
      activeGTID, completedGTID := master.gtid, master.gtid;
      pos := PositionOf(master.View());
      announced, syncC, failed := {}, [], false;
    }

    ghost function View(): Producer
      reads this
    {
      Producer(activeGTID, completedGTID, announced, pos, syncC, failed)
    }

    method OnRotate(next: Position)
      requires !failed
      modifies this
      ensures View() == Called(setup, old(View()), Call.OnRotate(next))
    {
      pos := next;
      SendPositionEvent(true, None);
    }

    method OnDDL(nextPos: Position, gtid: Option<GTIDSet>)
      requires !failed
      modifies this
      ensures View() == Called(setup, old(View()), Call.OnDDL(nextPos, gtid))
    {
      var ok := UpdateGTID(gtid);
      if !ok {
        return;
      }
      pos := nextPos;
      SendPositionEvent(true, gtid);
    }

    method OnXID(nextPos: Position)
      requires !failed
      modifies this
      ensures View() == Called(setup, old(View()), Call.OnXID(nextPos))
    {
      pos := nextPos;
      if activeGTID.None? {
        failed := true;
        return;
      }
      completedGTID := activeGTID;
      SendPositionEvent(setup.flushBulkTime == 0, None);
    }

    method OnGTID(gtid: Option<GTIDSet>)
      requires !failed
      modifies this
      ensures View() == Called(setup, old(View()), Call.OnGTID(gtid))
    {
      var ok := UpdateGTID(gtid);
      if !ok {
        return;
      }
      if gtid.Some? {
        announced := gtid.value;
      }
      SendPositionEvent(false, gtid);
    }

    method OnRow(at: Position, event: RowsEvent, now: int)
      requires !failed && EventShape(event)
      modifies this
      ensures View() == Called(setup, old(View()), Call.OnRow(at, event, now))
    {
      hide EmitRules;
      var changes, ok := ApplyRuleSet(setup.rules, event, now);
      ghost var before := syncC;
      for k := 0 to |changes|
        invariant View() == old(View()).(sent := before + SentRows(changes[..k], at, announced))
      {
        assert SentRows(changes[..k + 1], at, announced)
            == SentRows(changes[..k], at, announced) + [SentRow(changes[k], at, announced)];
        syncC := syncC + [SentRow(changes[k], at, announced)];
      }
      assert changes[..|changes|] == changes;
      failed := !ok;
    }

    method OnPosSynced(newPos: Position, gtid: Option<GTIDSet>, force: bool)
      requires !failed
      modifies this
      ensures View() == Called(setup, old(View()), Call.OnPosSynced(newPos, gtid, force))
    {
      var ok := UpdateGTID(gtid);
      if !ok {
        return;
      }
      pos := newPos;
      SendPositionEvent(force, gtid);
    }

    method SendPositionEvent(forceFlush: bool, gtid: Option<GTIDSet>)
      modifies this`syncC
      ensures View() == SendPosition(old(View()), forceFlush, gtid)
    {
      var covered := gtid;
      if gtid.None? && completedGTID.Some? {
        covered := completedGTID;
      }
      syncC := syncC + [SentPosition(PositionEvent(covered, pos, forceFlush))];
    }

    /** A MariaDB set is added to the active one, transaction by transaction; any other replaces it. */
    method UpdateGTID(gtid: Option<GTIDSet>) returns (ok: bool)
      requires !failed
      modifies this`activeGTID, this`failed
      ensures View() == WithGTID(setup, old(View()), gtid) && ok == !failed
    {
      ok := true;
      if gtid.None? {
        return;
      }
      if !setup.isMariaDB {
        activeGTID := gtid;
        return;
      }
      var rest := gtid.value;
      if rest != {} && activeGTID.None? {
        failed, ok := true, false;
        return;
      }
      ghost var before := activeGTID;
      assert before.Some? ==> before.value + (gtid.value - rest) == before.value;
      while rest != {}
        invariant rest <= gtid.value && !failed && ok
        invariant before.Some? ==> activeGTID == Some(before.value + (gtid.value - rest))
        invariant before.None? ==> activeGTID == None && rest == {}
        decreases rest
      {
        var subset :| subset in rest;
        assert before.value + (gtid.value - (rest - {subset})) == (before.value + (gtid.value - rest)) + {subset};
        activeGTID := Some(activeGTID.value + {subset});
        rest := rest - {subset};
      }
      if before.Some? {
        assert before.value + (gtid.value - {}) == before.value + gtid.value;
        assert gtid.value == {} ==> before.value + gtid.value == before.value;
      }
    }
  }
}
