/** Repository connections (app/domain/repository/service.py, app/domain/repository/events.py).
    A connection carries a generation; the work accepted under one generation must not be able to
    act once the connection has been closed, even if it is opened again. */
module Connections {
  import opened Options

  datatype Status = Active | Suspended | Disconnected

  /** `syncedAt`: when its pull requests were last brought up to date. */
  datatype Conn = Conn(status: Status, generation: nat, syncedAt: Option<int>)

  /** The connection is ACTIVE in exactly this generation: what `authorized` and `require` ask for. */
  predicate Open(c: Conn, generation: nat) { c.status.Active? && c.generation == generation }

  const FRESH := Conn(Active, 1, None)

  /** `connect` on an existing row: refused unless it is DISCONNECTED. */
  function Reconnected(c: Conn): Conn {
    if c.status.Disconnected? then c.(status := Active, generation := c.generation + 1) else c
  }

  function Closed(c: Conn): Conn { c.(status := Disconnected) }

  function Halted(c: Conn): Conn { if c.status.Active? then c.(status := Suspended) else c }

  function Synced(c: Conn, at: int): Conn { c.(syncedAt := Some(at)) }

  class RepositoryConnection {
    var status: Status
    var generation: nat
    var syncedAt: Option<int>

    ghost function View(): Conn
      reads this
    {
      Conn(status, generation, syncedAt)
    }

    constructor ()
      ensures View() == FRESH
    {
      status, generation, syncedAt := Active, 1, None;
    }

    method Connect() returns (ok: bool)
      modifies this
      ensures ok == old(status).Disconnected? && View() == Reconnected(old(View()))
    {
      if status != Disconnected {
        return false;
      }
      generation := generation + 1;
      status := Active;
      ok := true;
    }

    method Disconnect()
      modifies this
      ensures View() == Closed(old(View()))
    {
      status := Disconnected;
    }

    method Suspend()
      modifies this
      ensures View() == Halted(old(View()))
    {
      if status == Active {
        status := Suspended;
      }
    }

    method SyncSuccess(at: int)
      modifies this
      ensures View() == Synced(old(View()), at)
    {
      syncedAt := Some(at);
    }
  }

  /** One step of any kind, or none. */
  ghost predicate Moves(c: Conn, d: Conn) {
    || d == c || d == Reconnected(c) || d == Closed(c) || d == Halted(c)
    || (d.syncedAt.Some? && d == Synced(c, d.syncedAt.value))
  }

  /** How far a connection has moved past generation `g`: it only grows, and being open in `g` is
      its unique state for one value. */
  ghost predicate Past(c: Conn, g: nat) { g < c.generation || (c.generation == g && !c.status.Active?) }

  lemma MovesKeepPast(c: Conn, d: Conn, g: nat)
    requires Moves(c, d)
    ensures c.generation <= d.generation
    ensures Past(c, g) ==> Past(d, g)
    ensures Open(c, g) && !Open(d, g) ==> Past(d, g)
    ensures !c.status.Active? && d.status.Active? ==> c.generation < d.generation
  {}
}
