/**
 The client's session cell: written by connects, disconnects and the handler
 that runs when a session's dispatch loop ends.
 */
module ClientCell {
  import opened Words

  type Id = nat

  /** A pointer behind a mutex; each method is one critical section. */
  class SynchronizedPtr {
    var ptr: Option<Id>

    constructor ()
      ensures ptr == None
    {
      ptr := None;
    }

    method Load() returns (v: Option<Id>)
      ensures v == ptr
    {
      v := ptr;
    }

    method Store(v: Option<Id>)
      modifies this
      ensures ptr == v
    {
      ptr := v;
    }

    method Exchange(v: Option<Id>) returns (previous: Option<Id>)
      modifies this
      ensures ptr == v && previous == old(ptr)
    {
      previous := ptr;
      ptr := v;
    }

    method CompareExchange(expected: Option<Id>, desired: Option<Id>) returns (ok: bool, seen: Option<Id>)
      modifies this
      ensures ok == (old(ptr) == expected)
      ensures ok ==> ptr == desired && seen == expected
      ensures !ok ==> ptr == old(ptr) && seen == old(ptr)
    {
      if ptr == expected {
        ptr := desired;
        return true, expected;
      }
      return false, ptr;
    }
  }

  /** `published`, `spawned`, `completed` and `closed` record what has happened to each session. */
  datatype Client = Client(
    cell: Option<Id>,
    published: set<Id>,
    spawned: set<Id>,
    completed: set<Id>,
    closed: set<Id>)

  const Start := Client(None, {}, {}, {}, {})

  datatype Step =
    | Publish(id: Id)      // connect, after the handshake: store the new session
    | Spawn(id: Id)        // connect: start its dispatch loop
    | SpawnFails(id: Id)   // connect: an exception after the store; the session is dropped
    | ConnectFails         // connect: any failure before the store
    | Disconnect           // exchange with null, close what was there
    | Complete(id: Id)     // the dispatch loop ended: compare-exchange with null

  predicate Enabled(c: Client, step: Step) {
    match step
    case Publish(id) => id !in c.published
    case Spawn(id) => id in c.published && id !in c.spawned
    case SpawnFails(id) => id in c.published && id !in c.spawned
    case ConnectFails => true
    case Disconnect => true
    case Complete(id) => id in c.spawned && id !in c.completed
  }

  function Apply(c: Client, step: Step): Client {
    match step
    case Publish(id) => c.(cell := Some(id), published := c.published + {id})
    case Spawn(id) => c.(spawned := c.spawned + {id})
    case SpawnFails(id) => c.(cell := None, spawned := c.spawned + {id}, completed := c.completed + {id})
    case ConnectFails => c.(cell := None)
    case Disconnect => c.(cell := None, closed := if c.cell.Some? then c.closed + {c.cell.value} else c.closed)
    case Complete(id) => c.(cell := if c.cell == Some(id) then None else c.cell, completed := c.completed + {id})
  }

  function After(steps: seq<Step>): Client {
    if steps == [] then Start else Apply(After(steps[..|steps| - 1]), steps[|steps| - 1])
  }

  ghost predicate Run(steps: seq<Step>) {
    forall i :: 0 <= i < |steps| ==> Enabled(After(steps[..i]), steps[i])
  }

  ghost predicate Safe(c: Client) {
    && c.completed <= c.spawned <= c.published
    && (c.cell.Some? ==> c.cell.value in c.published && c.cell.value !in c.completed && c.cell.value !in c.closed)
    && c.closed <= c.published
  }

  /** In every run the cell is null or a published session that has neither completed nor been closed. */
  lemma {:induction false} CellSafe(steps: seq<Step>)
    requires Run(steps)
    ensures Safe(After(steps))
  {
    if steps != [] {
      var n := |steps| - 1;
      forall i | 0 <= i < n ensures Enabled(After(steps[..n][..i]), steps[..n][i]) {
        assert steps[..n][..i] == steps[..i];
      }
      CellSafe(steps[..n]);
      assert Enabled(After(steps[..n]), steps[n]);
    }
  }

  /** A session that is running and that nobody asked to end. */
  predicate Live(c: Client, id: Id) {
    id in c.published && id !in c.completed && id !in c.closed
  }

  /** A completion changes the cell exactly when it holds the completing session itself. */
  lemma CompletionIsPrecise(steps: seq<Step>, id: Id)
    requires Run(steps) && Enabled(After(steps), Complete(id))
    ensures var c := After(steps);
            && (Apply(c, Complete(id)).cell != c.cell <==> c.cell == Some(id))
            && (forall other :: other != id && c.cell == Some(other) ==> Live(Apply(c, Complete(id)), other))
  {
    CellSafe(steps);
  }

  /**
   The cell does not always hold the live session: a step leaves one running but
   out of the cell exactly when it is a connect, succeeding or failing, that
   finds the cell occupied.
   */
  lemma OrphanedIff(steps: seq<Step>, step: Step, id: Id)
    requires Run(steps) && Enabled(After(steps), step)
    ensures var c := After(steps); var c' := Apply(c, step);
            (Live(c', id) && c'.cell != Some(id) && (Live(c, id) ==> c.cell == Some(id)))
            <==> (c.cell == Some(id) && (step.Publish? || step.ConnectFails? || (step.SpawnFails? && step.id != id)))
  {
    CellSafe(steps);
  }

  /** A run in which a failing connect clears the cell under a session another connect published. */
  lemma {:induction false} FailedConnectOrphans()
    ensures var steps := [Publish(0), Spawn(0), ConnectFails];
            Run(steps) && After(steps).cell == None && Live(After(steps), 0)
  {
    var steps := [Publish(0), Spawn(0), ConnectFails];
    assert steps[..0] == [];
    assert steps[..1] == [Publish(0)] && steps[..1][..0] == [];
    assert steps[..2] == [Publish(0), Spawn(0)] && steps[..2][..1] == steps[..1];
    assert After(steps[..1]) == Apply(Start, Publish(0));
    assert After(steps[..2]) == Apply(After(steps[..1]), Spawn(0));
    assert After(steps) == Apply(After(steps[..2]), ConnectFails);
  }

  /** The client's use of the cell; `state` is the step-level view, and the cell always agrees with it. */
  class ClientObject {
    const cell: SynchronizedPtr
    ghost var state: Client

    ghost predicate Valid()
      reads this, cell
    {
      cell.ptr == state.cell
    }

    constructor ()
      ensures Valid() && state == Start && fresh(cell)
    {
      cell := new SynchronizedPtr();
      state := Start;
    }

    /** connect: the handshake succeeded. */
    method Publish(id: Id)
      requires Valid() && Enabled(state, Step.Publish(id))
      modifies this, cell
      ensures Valid() && state == Apply(old(state), Step.Publish(id))
    {
      cell.Store(Some(id));
      state := Apply(state, Step.Publish(id));
    }

    /** connect: no session, or an exception before one was published. */
    method ConnectFailed()
      requires Valid()
      modifies this, cell
      ensures Valid() && state == Apply(old(state), ConnectFails)
    {
      cell.Store(None);
      state := Apply(state, ConnectFails);
    }

    method Disconnect() returns (toClose: Option<Id>)
      requires Valid()
      modifies this, cell
      ensures Valid() && state == Apply(old(state), Step.Disconnect) && toClose == old(state).cell
    {
      toClose := cell.Exchange(None);
      state := Apply(state, Step.Disconnect);
    }

    /** The dispatch-completion handler; `alive` is whether the weak reference could be locked. */
    method OnComplete(id: Id, alive: bool)
      requires Valid() && Enabled(state, Complete(id)) && (state.cell == Some(id) ==> alive)
      modifies this, cell
      ensures Valid() && state == Apply(old(state), Complete(id))
    {
      if alive {
        var _, _ := cell.CompareExchange(Some(id), None);
      }
      state := Apply(state, Complete(id));
    }
  }
}
