/** The saved checkpoint (river/master.go). */
module Master {
  import opened Types

  /** A GTID set is the set of transactions it covers. */
  type GTIDSet = set<nat>

  /** A binlog coordinate: the number of the log file, then the offset in it. File 0 stands for no file. */
  datatype Position = Position(file: nat, offset: nat)

  const NO_POSITION := Position(0, 0)

  predicate Before(a: Position, b: Position) {
    a.file < b.file || (a.file == b.file && a.offset < b.offset)
  }

  predicate AtOrBefore(a: Position, b: Position) {
    a == b || Before(a, b)
  }

  datatype PositionEvent = PositionEvent(gtid: Option<GTIDSet>, pos: Position, force: bool)

  datatype Checkpoint = Checkpoint(gtid: Option<GTIDSet>, pos: Option<Position>)

  function PositionOf(m: Checkpoint): Position {
    if m.pos.Some? then m.pos.value else NO_POSITION
  }

  function Moved(m: Checkpoint, event: PositionEvent): Checkpoint {
    Checkpoint(if event.gtid.Some? then event.gtid else m.gtid, Some(event.pos))
  }

  /** A GTID set that is already covered does not count as a change, although it still replaces the old one. */
  predicate Differs(m: Checkpoint, event: PositionEvent) {
    || m.pos != Some(event.pos)
    || (event.gtid.Some? && (m.gtid.None? || !(event.gtid.value <= m.gtid.value)))
  }

  class MasterState {
    var gtid: Option<GTIDSet>
    var pos: Option<Position>

    constructor (m: Checkpoint)
      ensures View() == m
    {
      gtid, pos := m.gtid, m.pos;
    }

    function View(): Checkpoint
      reads this
    {
      Checkpoint(gtid, pos)
    }

    method UpdatePosition(posEvent: PositionEvent) returns (hasChanged: bool)
      modifies this
      ensures View() == Moved(old(View()), posEvent)
      ensures hasChanged == Differs(old(View()), posEvent)
    {
      hasChanged := false;
      if pos.None? {
        hasChanged := true;
      } else if pos.value != posEvent.pos {
        hasChanged := true;
      }
      pos := Some(posEvent.pos);
      if posEvent.gtid.Some? {
        if gtid.None? {
          hasChanged := true;
        } else if !(posEvent.gtid.value <= gtid.value) {
          hasChanged := true;
        }
        gtid := posEvent.gtid;
      }
    }
  }
}
