/**
 * `syncLutron` as objects: one `SyncSession` per controller, each holding a
 * reference to the SAME `CommandQueue`, whose `Shift` consumes the batch in
 * place. Each event method is proved against `Delivery.Step`.
 */
module OneShot {
  import opened Wrappers
  import opened Delivery

  /** The `commands` array. Every connection of a sync shares this one object. */
  class CommandQueue {
    var items: seq<string>

    constructor (commands: seq<string>)
      ensures items == commands
    {
      items := commands;
    }

    /** `Array.prototype.shift`: removes and returns the front, `undefined` when empty. */
    method Shift() returns (head: Option<string>)
      modifies this
      ensures head == Front(old(items)) && items == Rest(old(items))
      ensures old(items) != [] ==> [head.value] + items == old(items)
    {
      if |items| > 0 {
        head := Some(items[0]);
        items := items[1..];
      } else {
        head := None;
      }
    }
  }

  /** The closure state of one `syncLutron` call: its client, `synced` and its promise. */
  class SyncSession {
    const queue: CommandQueue
    var sent: seq<Option<string>>
    var synced: bool
    var endCalls: nat
    var outcome: Option<bool>

    /** What belongs to this connection alone. */
    function Own(): Link
      reads this
    {
      Link(sent, synced, endCalls, outcome)
    }

    /** This connection together with the shared array. */
    function Snapshot(): State
      reads this, queue
    {
      State(queue.items, Own())
    }

    constructor (queue: CommandQueue)
      ensures this.queue == queue && Own() == Fresh
    {
      this.queue := queue;
      sent, synced, endCalls, outcome := [], false, 0, None;
    }

    /** `ready`: logged in; send the front of the shared array. */
    method OnReady()
      modifies this, queue
      ensures Snapshot() == Step(old(Snapshot()), Ready)
      ensures sent == old(sent) + [Front(old(queue.items))] && outcome == old(outcome)
    {
      var command := queue.Shift();
      sent := sent + [command];
    }

    /** `data`: an acknowledgement; send the next command, or finish and resolve `true`. */
    method OnData()
      modifies this, queue
      ensures Snapshot() == Step(old(Snapshot()), Data)
      ensures old(queue.items) == [] ==> synced && outcome.Some? && (old(outcome).None? ==> outcome == Some(true))
    {
      if |queue.items| > 0 {
        var command := queue.Shift();
        sent := sent + [command];
      } else {
        endCalls := endCalls + 1;
        synced := true;
        outcome := Resolve(outcome, true);
      }
    }

    /** The sync deadline: unless drained, end the client and resolve `false`. */
    method OnDeadline()
      modifies this
      ensures Snapshot() == Step(old(Snapshot()), Deadline)
      ensures old(synced) ==> Own() == old(Own())
      ensures !old(synced) && old(outcome).None? ==> outcome == Some(false)
    {
      if !synced {
        endCalls := endCalls + 1;
        outcome := Resolve(outcome, false);
      }
    }
  }

  /**
   * `LUTRON_SERVERS.map(server => syncLutron(..., commands))`: one session
   * per server, every one of them holding the same array object.
   */
  method StartSync(commands: seq<string>, servers: nat) returns (queue: CommandQueue, sessions: seq<SyncSession>)
    ensures fresh(queue) && queue.items == commands
    ensures |sessions| == servers
    ensures forall i :: 0 <= i < servers ==> fresh(sessions[i]) && sessions[i].queue == queue
    ensures forall i :: 0 <= i < servers ==> sessions[i].Own() == Fresh
    ensures forall i, j :: 0 <= i < j < servers ==> sessions[i] != sessions[j]
  {
    queue := new CommandQueue(commands);
    sessions := [];
    while |sessions| < servers
      invariant |sessions| <= servers
      invariant queue.items == commands
      invariant forall i :: 0 <= i < |sessions| ==> fresh(sessions[i]) && sessions[i].queue == queue
      invariant forall i :: 0 <= i < |sessions| ==> sessions[i].Own() == Fresh
      invariant forall i, j :: 0 <= i < j < |sessions| ==> sessions[i] != sessions[j]
    {
      var session := new SyncSession(queue);
      sessions := sessions + [session];
    }
  }

  /** With two sessions on one array, what the first sends is gone for the second. */
  method ReadyConsumesForAll(a: SyncSession, b: SyncSession)
    requires a != b && a.queue == b.queue && |a.queue.items| >= 1
    modifies a, a.queue
    ensures b.queue.items == old(b.queue.items)[1..]
    ensures a.sent == old(a.sent) + [Some(old(a.queue.items)[0])]
  {
    a.OnReady();
  }
}
