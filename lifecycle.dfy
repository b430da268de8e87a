/**
 * The life of one fiber as a sequence of protocol operations, and what holds
 * of every state such a sequence reaches.
 */
module FiberLifecycle {
  import opened Lua
  import opened RayFiber

  /**
   * The control block after `ops`, applied in order. Every state reached is
   * settled (so an open fiber is never left ACTIVE between operations),
   * START once set stays set, and CLOSED is permanent: a closed fiber's
   * flags and mailbox never change again.
   */
  function Run(c: Control, self: Fiber, ops: seq<Op>): (d: Control)
    requires Settled(c, self)
    ensures Settled(d, self)
    ensures c.flags.started ==> d.flags.started
    ensures c.flags.closed ==> d.flags == c.flags && d.mailbox == c.mailbox
    decreases |ops|
  {
    if ops == [] then c else Run(Apply(c, self, ops[0]), self, ops[1..])
  }

  /** Running two sequences one after the other is running their concatenation. */
  lemma {:induction false} RunConcat(c: Control, self: Fiber, a: seq<Op>, b: seq<Op>)
    requires Settled(c, self)
    ensures Run(c, self, a + b) == Run(Run(c, self, a), self, b)
    decreases |a|
  {
    if a == [] {
      assert a + b == b;
    } else {
      assert (a + b)[0] == a[0];
      assert (a + b)[1..] == a[1..] + b;
      RunConcat(Apply(c, self, a[0]), self, a[1..], b);
    }
  }

  /**
   * Only the first resume skips the entry function: once a fiber has been
   * resumed (by the scheduler's self-send or by free), every later resume
   * passes its whole stack.
   */
  lemma LaterResumesPassWholeStack(c: Control, self: Fiber, before: seq<Op>, op: Op, after: seq<Op>)
    requires Settled(c, self)
    requires (op.Sent? && op.from == Peer(self)) || op.Freed?
    ensures var d := Run(c, self, before + [op] + after);
      d.flags.started && Arity(d) == |d.stack|
  {
    var m := Run(c, self, before);
    RunConcat(c, self, before + [op], after);
    RunConcat(c, self, before, [op]);
    assert Run(m, self, [op]) == Apply(m, self, op) by {
      assert [op][1..] == [];
    }
    assert Apply(m, self, op).flags.started;
  }

  /**
   * Sending to a closed fiber, any number of times and from anyone, leaves
   * its control block exactly as it was.
   */
  lemma {:induction false} ClosedIgnoresSends(c: Control, self: Fiber, ops: seq<Op>)
    requires Settled(c, self) && c.flags.closed
    requires forall i :: 0 <= i < |ops| ==> ops[i].Sent?
    ensures Run(c, self, ops) == c
    decreases |ops|
  {
    if ops != [] {
      assert Apply(c, self, ops[0]) == c;
      ClosedIgnoresSends(c, self, ops[1..]);
    }
  }

  /**
   * The mailbox is never cleared: after any sequence of operations it holds
   * what it held at the start, or the sender of one of the external sends.
   */
  lemma {:induction false} MailboxHoldsAnExternalSender(c: Control, self: Fiber, ops: seq<Op>)
    requires Settled(c, self)
    ensures var d := Run(c, self, ops);
      || d.mailbox == c.mailbox
      || exists i :: 0 <= i < |ops| && ops[i].Sent? && ops[i].from != Peer(self) && d.mailbox == Some(ops[i].from)
    decreases |ops|
  {
    if ops != [] {
      var next := Apply(c, self, ops[0]);
      MailboxHoldsAnExternalSender(next, self, ops[1..]);
      var d := Run(next, self, ops[1..]);
      if d.mailbox != next.mailbox {
        var i :| 0 <= i < |ops[1..]| && ops[1..][i].Sent? && ops[1..][i].from != Peer(self) && d.mailbox == Some(ops[1..][i].from);
        assert ops[i + 1] == ops[1..][i];
      } else if next.mailbox != c.mailbox {
        assert d.mailbox == Some(ops[0].from);
      }
    }
  }

  /** A fiber whose entry returns at once, with nobody waiting, is closed and hands its results to a later join. */
  method ImmediateReturn()
  {
    var main := new Scheduler();
    var created := Create(main, [Function(1)]);
    var a := created.value;
    assert main.queue == [a];
    var reply := a.Send(Peer(a), 0, Finished([Number(42)]), false);
    assert reply == Returned(0) && a.flags.closed;
    var joined := a.Join(Main);
    assert joined == Ready([Number(42)]);
  }

  /**
   * A fiber that calls recv once and then returns: a join from another fiber
   * blocks, a send from the main actor queues the fiber, and the next resume
   * finishes it and notifies the waiter.
   */
  method RecvThenReturn()
  {
    var main := new Scheduler();
    var created := Spawn(main, Main, [Function(1)]);
    var a := created.value;
    assert main.queue == [a, a];
    var first := a.Send(Peer(a), 0, Suspended(true, []), false);
    assert first == Returned(LUA_YIELD) && !a.flags.active && !a.flags.closed;
    assert main.queue == [a, a];

    var other := Create(main, [Function(2)]);
    var b := other.value;
    var waiting := a.Join(Peer(b));
    assert waiting == Blocked;

    var posted := a.Send(Main, 0, Suspended(false, []), false);
    assert posted == Returned(0) && a.mailbox == Some(Main);
    var last := a.Send(Peer(a), 0, Finished([Number(7)]), true);
    assert last == Returned(0) && a.flags.closed && a.stack == [];
    // the waiter is told the count the last resume passed in (none), not the one result
    assert main.notices == [Notice(a, 0)];
  }

  /** An error in a fiber started by another fiber is sent on to that fiber, which is queued, and raised there. */
  method ErrorForwarded()
  {
    var main := new Scheduler();
    var made := Create(main, [Function(1)]);
    var parent := made.value;
    var spawned := Spawn(main, Peer(parent), [Function(2)]);
    var child := spawned.value;
    assert main.queue == [parent, child, child];
    var reply := child.Send(Peer(child), 0, Failed(Text("boom")), false);
    assert reply == Raised(Peer(parent), Text("boom"));
    assert child.flags.closed;
    assert parent.mailbox == Some(Peer(child));
    // the raised value is the one on top of the parent's stack
    assert parent.stack == [Function(1), Text("boom")] && child.stack == [];
    assert main.queue == [parent, child, child, parent];
  }
}
