/**
 * The one-shot delivery of a command batch to one controller, as a pure
 * state machine. `pending` is the contents of the shared command array;
 * `link` is what belongs to this one connection.
 */
module Delivery {
  import opened Wrappers

  /**
   * `sent`: what was passed to `client.send`, `None` where `shift()` on an
   * empty array gave `undefined`; `synced`: the batch was drained;
   * `endCalls`: calls of `client.end()`; `outcome`: the promise's value once
   * it is resolved (a promise keeps its first value).
   */
  datatype Link = Link(sent: seq<Option<string>>, synced: bool, endCalls: nat, outcome: Option<bool>)

  datatype State = State(pending: seq<string>, link: Link)

  /** Events of the telnet client and the deadline timer that change anything. */
  datatype Event = Ready | Data | Deadline

  const Fresh: Link := Link([], false, 0, None)

  function Start(commands: seq<string>): State { State(commands, Fresh) }

  /** `resolve(v)`: only the first call settles the promise. */
  function Resolve(outcome: Option<bool>, v: bool): (r: Option<bool>)
    ensures r.Some?
    ensures outcome.Some? ==> r == outcome
    ensures outcome.None? ==> r == Some(v)
  {
    if outcome.None? then Some(v) else outcome
  }

  /** `commands.shift()`: the front element, or `undefined` on an empty array. */
  function Front(pending: seq<string>): (head: Option<string>)
    ensures head.None? <==> pending == []
    ensures head.Some? ==> [head.value] + Rest(pending) == pending
  {
    if pending == [] then None else Some(pending[0])
  }

  /** What `shift()` leaves in the array: one element fewer, none on an empty array. */
  function Rest(pending: seq<string>): (rest: seq<string>)
    ensures |rest| == if pending == [] then 0 else |pending| - 1
    ensures rest == pending[|pending| - |rest|..]
  {
    if pending == [] then [] else pending[1..]
  }

  /** One event of a connection; sends are only ever appended and a settled result stays. */
  function Step(s: State, e: Event): (r: State)
    ensures s.link.sent <= r.link.sent && |r.link.sent| <= |s.link.sent| + 1
    ensures s.link.outcome.Some? ==> r.link.outcome == s.link.outcome
  {
    match e
    case Ready =>
      State(Rest(s.pending), s.link.(sent := s.link.sent + [Front(s.pending)]))
    case Data =>
      if |s.pending| > 0 then
        State(s.pending[1..], s.link.(sent := s.link.sent + [Some(s.pending[0])]))
      else
        State(s.pending, s.link.(endCalls := s.link.endCalls + 1, synced := true,
                                 outcome := Resolve(s.link.outcome, true)))
    case Deadline =>
      if !s.link.synced then
        State(s.pending, s.link.(endCalls := s.link.endCalls + 1, outcome := Resolve(s.link.outcome, false)))
      else s
  }

  /** The state after `events`, oldest first. */
  function Run(s: State, events: seq<Event>): State
    decreases |events|
  {
    if events == [] then s else Step(Run(s, events[..|events| - 1]), events[|events| - 1])
  }

  /** `n` acknowledgements from the controller. */
  function Acks(n: nat): (r: seq<Event>)
    ensures |r| == n
  {
    if n == 0 then [] else Acks(n - 1) + [Data]
  }

  /** The values handed to `client.send` when the commands go out in order. */
  function Sends(commands: seq<string>): (r: seq<Option<string>>)
    ensures |r| == |commands|
  {
    if commands == [] then [] else [Some(commands[0])] + Sends(commands[1..])
  }

  lemma {:induction false} SendsAt(commands: seq<string>, i: nat)
    requires i < |commands|
    ensures Sends(commands)[i] == Some(commands[i])
  {
    if i > 0 {
      SendsAt(commands[1..], i - 1);
    }
  }

  lemma {:induction false} SendsSnoc(commands: seq<string>, c: string)
    ensures Sends(commands + [c]) == Sends(commands) + [Some(c)]
  {
    if commands != [] {
      assert (commands + [c])[1..] == commands[1..] + [c];
      SendsSnoc(commands[1..], c);
    } else {
      assert Sends([c]) == [Some(c)] + Sends([]);
    }
  }

  lemma RunSnoc(s: State, events: seq<Event>, e: Event)
    ensures Run(s, events + [e]) == Step(Run(s, events), e)
  {
    assert (events + [e])[..|events|] == events;
  }

  lemma {:induction false} RunAppend(s: State, a: seq<Event>, b: seq<Event>)
    ensures Run(s, a + b) == Run(Run(s, a), b)
    decreases |b|
  {
    if b == [] {
      assert a + b == a;
    } else {
      var front, e := b[..|b| - 1], b[|b| - 1];
      assert b == front + [e];
      assert a + b == (a + front) + [e];
      RunAppend(s, a, front);
      RunSnoc(s, a + front, e);
      RunSnoc(Run(s, a), front, e);
    }
  }

  /**
   * While commands remain, each acknowledgement sends the next one and
   * nothing is resolved: after `ready` and k < N acknowledgements, the first
   * k + 1 commands went out, front to back.
   */
  lemma {:induction false} DeliveryInProgress(commands: seq<string>, k: nat)
    requires k < |commands|
    ensures Run(Start(commands), [Ready] + Acks(k))
            == State(commands[k + 1..], Link(Sends(commands[..k + 1]), false, 0, None))
  {
    if k == 0 {
      assert commands[..1] == [commands[0]];
      assert Sends(commands[..1]) == [Some(commands[0])] + Sends([]);
      assert [Ready] + Acks(0) == [] + [Ready];
      RunSnoc(Start(commands), [], Ready);
    } else {
      DeliveryInProgress(commands, k - 1);
      assert [Ready] + Acks(k) == [Ready] + Acks(k - 1) + [Data];
      RunSnoc(Start(commands), [Ready] + Acks(k - 1), Data);
      assert commands[..k + 1] == commands[..k] + [commands[k]];
      SendsSnoc(commands[..k], commands[k]);
      assert commands[k..][1..] == commands[k + 1..];
    }
  }

  /**
   * A controller that acknowledges every command: N commands give exactly N
   * sends, in order, and the N-th acknowledgement finds the array empty,
   * ends the client and resolves `true`.
   */
  lemma DeliveryCompletes(commands: seq<string>)
    requires |commands| >= 1
    ensures Run(Start(commands), [Ready] + Acks(|commands|))
            == State([], Link(Sends(commands), true, 1, Some(true)))
  {
    var n := |commands|;
    var prior := [Ready] + Acks(n - 1);
    var t := Run(Start(commands), prior);
    assert t == State([], Link(Sends(commands), false, 0, None)) by {
      DeliveryInProgress(commands, n - 1);
      assert commands[n..] == [] && commands[..n] == commands;
    }
    calc {
      Run(Start(commands), [Ready] + Acks(n));
      { assert [Ready] + Acks(n) == prior + [Data]; }
      Run(Start(commands), prior + [Data]);
      { RunSnoc(Start(commands), prior, Data); }
      Step(t, Data);
      { DrainedAck(Sends(commands)); }
      State([], Link(Sends(commands), true, 1, Some(true)));
    }
  }

  /** An acknowledgement that finds the array empty ends the client and resolves `true`. */
  lemma DrainedAck(sent: seq<Option<string>>)
    ensures Step(State([], Link(sent, false, 0, None)), Data) == State([], Link(sent, true, 1, Some(true)))
  {
  }

  /**
   * The deadline before the batch drains: after `ready` and k < N
   * acknowledgements, k + 1 commands went out and the result is `false`.
   */
  lemma DeadlineBeforeDrain(commands: seq<string>, k: nat)
    requires k < |commands|
    ensures Run(Start(commands), [Ready] + Acks(k) + [Deadline]).link
            == Link(Sends(commands[..k + 1]), false, 1, Some(false))
  {
    DeliveryInProgress(commands, k);
    RunSnoc(Start(commands), [Ready] + Acks(k), Deadline);
  }

  /** Once the batch is drained the deadline does nothing. */
  lemma DeadlineAfterSyncInert(s: State)
    requires s.link.synced
    ensures Step(s, Deadline) == s
  {
  }

  /** The first resolution wins: no later event changes a settled outcome. */
  lemma {:induction false} FirstResolutionWins(s: State, events: seq<Event>)
    requires s.link.outcome.Some?
    ensures Run(s, events).link.outcome == s.link.outcome
    decreases |events|
  {
    if events != [] {
      FirstResolutionWins(s, events[..|events| - 1]);
    }
  }

  /** So a deadline that fired first keeps the result `false` whatever the controller sends later. */
  lemma LateAcksAfterDeadline(commands: seq<string>, k: nat, later: nat)
    requires k < |commands|
    ensures Run(Start(commands), [Ready] + Acks(k) + [Deadline] + Acks(later)).link.outcome == Some(false)
  {
    DeadlineBeforeDrain(commands, k);
    RunAppend(Start(commands), [Ready] + Acks(k) + [Deadline], Acks(later));
    FirstResolutionWins(Run(Start(commands), [Ready] + Acks(k) + [Deadline]), Acks(later));
  }

  /**
   * The same array is handed to every server. Once one connection drained it,
   * the next one sends `undefined` on `ready`, and its first acknowledgement
   * resolves `true` although none of the batch reached that controller.
   */
  lemma SharedBatchDrainedByFirst(commands: seq<string>)
    requires |commands| >= 1
    ensures var first := Run(Start(commands), [Ready] + Acks(|commands|));
            var second := Run(State(first.pending, Fresh), [Ready, Data]);
            first.pending == [] && second.link.sent == [None] && second.link.outcome == Some(true)
  {
    DeliveryCompletes(commands);
    var s := State([], Fresh);
    assert [Ready, Data] == [] + [Ready] + [Data];
    RunSnoc(s, [], Ready);
    RunSnoc(s, [Ready], Data);
  }
}
