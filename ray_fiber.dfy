/**
 * The fiber actor of src/ray_fiber.c: a Lua coroutine wrapped in an actor
 * control block with three flag bits (START, ACTIVE, CLOSED), a one-slot
 * mailbox (`u.data`) and a Lua stack, scheduled through the ready-queue of
 * the main actor.
 *
 * The first half states each protocol step on values (`Control`); the
 * classes `Scheduler` and `Fiber` then perform the steps in place and are
 * proved to agree with those functions.
 */
module RayFiber {
  import opened Lua

  /** The bits of `self->flags` the fiber code reads and writes. */
  datatype Flags = Flags(started: bool, active: bool, closed: bool)

  /** The flags of a freshly created actor. */
  const NO_FLAGS: Flags := Flags(false, false, false)

  /** An actor that can send to a fiber: the main actor or another fiber. */
  datatype Party = Main | Peer(fiber: Fiber)

  /** One fiber's control block as a value: flags, mailbox and Lua stack. */
  datatype Control = Control(flags: Flags, mailbox: Option<Party>, stack: seq<Value>)

  /**
   * What `lua_resume` reports. `Suspended` is LUA_YIELD: `throughRecv` says
   * whether the body yielded by calling the actor's recv, and `values` is
   * what the yield left on the stack. `Finished` is status 0 with the body's
   * results; `Failed` is any error status with the error value.
   */
  datatype Resumption =
    | Suspended(throughRecv: bool, values: seq<Value>)
    | Finished(values: seq<Value>)
    | Failed(error: Value)

  /** What send does for its caller: return a count, or raise `error` in the actor `at` (`lua_error`). */
  datatype Reply = Returned(code: int) | Raised(at: Party, error: Value)

  /** One call of `ray_notify(target, count)`. */
  datatype Notice = Notice(target: Fiber, count: int)

  /** The outcome of a send that does not resume: new control block, appends to the ready-queue, notifications, return code. */
  datatype Delivery = Delivery(ctl: Control, wake: seq<Fiber>, notices: seq<Notice>, code: int)

  /**
   * The outcome of a resume in place: new control block, the count handed
   * to `lua_resume`, whether the fiber goes back on the ready-queue, the reply.
   */
  datatype Resumed = Resumed(ctl: Control, arity: int, requeue: bool, reply: Reply)

  /**
   * What holds of a fiber between protocol operations: CLOSED only after
   * START; an open fiber is not ACTIVE; before the first resume the entry
   * function sits at the bottom of the stack; a fiber never records itself
   * as its own sender.
   */
  predicate Settled(c: Control, self: Fiber)
  {
    && (c.flags.closed ==> c.flags.started)
    && (!c.flags.closed ==> !c.flags.active)
    && (!c.flags.started ==> |c.stack| >= 1 && c.stack[0].Function?)
    && c.mailbox != Some(Peer(self))
  }

  /** The actor a resume in place acts for: the recorded sender, or the main actor when none was recorded. */
  function Sender(c: Control): Party
  {
    if c.mailbox.Some? then c.mailbox.value else Main
  }

  /**
   * The number of values a resume in place passes to `lua_resume`: on the
   * first resume everything above the entry function, afterwards the whole
   * stack. It is negative only for an unstarted fiber with an empty stack,
   * which a settled fiber never is.
   */
  function Arity(c: Control): (n: int)
    ensures c.flags.started ==> n == |c.stack|
    ensures !c.flags.started ==> n == |c.stack| - 1
    ensures n >= 0 <==> c.flags.started || |c.stack| >= 1
  {
    if c.flags.started then |c.stack| else |c.stack| - 1
  }

  /** recv's flag update: ACTIVE cleared, nothing else. */
  function Suspend(c: Control): Control
  {
    c.(flags := c.flags.(active := false))
  }

  /** The close step: CLOSED set, nothing else. */
  function Shut(c: Control): Control
  {
    c.(flags := c.flags.(closed := true))
  }

  /** The branches of send that never resume: the target is closed, or the sender is someone else. */
  function Deliver(c: Control, self: Fiber, from: Party, narg: int): (d: Delivery)
    requires c.flags.closed || from != Peer(self)
    ensures d.ctl.flags == c.flags && d.ctl.stack == c.stack
    ensures |d.wake| + |d.notices| == 1
    ensures d.wake == [self] <==> !c.flags.closed
  {
    if c.flags.closed then Delivery(c, [], [Notice(self, LUA_MULTRET)], narg)
    else Delivery(c.(mailbox := Some(from)), [self], [], 0)
  }

  /**
   * A resume in place. START and ACTIVE are set, the body runs with the
   * given outcome, and the outcome is interpreted. The ready-queue decision
   * tests the ACTIVE bit after the body ran, as `rayM_fiber_send` does; a body that
   * went through recv has cleared it. On an error, `ray_send` moves the
   * error value off this fiber's stack to the sender before it is raised
   * there, so the stack is left without it.
   */
  function Resume(c: Control, out: Resumption, waiters: bool): (r: Resumed)
    requires !c.flags.closed
    ensures r.arity == Arity(c)
    ensures r.ctl.flags.started
    ensures r.ctl.mailbox == c.mailbox
    ensures r.ctl.flags.closed <==> !out.Suspended?
    ensures !r.ctl.flags.active || r.ctl.flags.closed
    ensures r.requeue <==> out.Suspended? && !out.throughRecv
    ensures out.Suspended? ==> r.ctl.stack == out.values && r.reply == Returned(LUA_YIELD)
    ensures out.Finished? ==> r.reply == Returned(0)
    ensures out.Finished? ==> (r.ctl.stack == [] <==> waiters || out.values == [])
    ensures out.Finished? && !waiters ==> r.ctl.stack == out.values
    ensures out.Failed? ==> r.ctl.stack == []
    ensures out.Failed? ==> r.reply.Raised? && r.reply.error == out.error
    ensures out.Failed? ==> r.reply.at == (if c.mailbox.None? then Main else c.mailbox.value)
  {
    var n := Arity(c);
    var entered := c.(flags := c.flags.(started := true, active := true));
    match out
    case Suspended(throughRecv, values) =>
      var yielded := (if throughRecv then Suspend(entered) else entered).(stack := values);
      if yielded.flags.active then Resumed(Suspend(yielded), n, true, Returned(LUA_YIELD))
      else Resumed(yielded, n, false, Returned(LUA_YIELD))
    case Finished(results) =>
      Resumed(Shut(entered.(stack := if waiters then [] else results)), n, false, Returned(0))
    case Failed(error) =>
      Resumed(Shut(entered.(stack := [])), n, false, Raised(Sender(c), error))
  }

  /**
   * The normal-exit pop as written: `lua_pop(L, narg)` removes `narg`
   * values, where `narg` is the count the resume passed in, not the count
   * of results. `None` stands for popping more values than the stack holds.
   */
  function PopAsWritten(results: seq<Value>, narg: int, waiters: bool): (s: Option<seq<Value>>)
    requires narg >= 0
    ensures s.None? <==> waiters && narg > |results|
    ensures s.Some? ==> |s.value| == if waiters then |results| - narg else |results|
  {
    if !waiters then Some(results)
    else if narg <= |results| then Some(results[..|results| - narg])
    else None
  }

  /**
   * A fiber created with no arguments (so its first resume passes none)
   * whose body returns one value while someone waits: the pop as written
   * leaves the value on the stack, where the corrected step has popped it.
   */
  lemma PopAsWrittenKeepsResult()
    ensures var c := Control(NO_FLAGS, None, [Function(0)]);
      && Arity(c) == 0
      && PopAsWritten([Number(42)], Arity(c), true) == Some([Number(42)])
      && Resume(c, Finished([Number(42)]), true).ctl.stack == []
  {
    assert [Number(42)][..1] == [Number(42)];
  }

  /** A fiber resumed with two values whose body returns none, while someone waits: the pop as written underflows. */
  lemma PopAsWrittenUnderflows()
    ensures var c := Control(Flags(true, false, false), None, [Number(1), Number(2)]);
      && Arity(c) == 2
      && PopAsWritten([], Arity(c), true) == None
  {
  }

  /** The operations that change a settled fiber's control block. */
  datatype Op =
    | Sent(from: Party, narg: int, out: Resumption, waiters: bool)  // rayM_fiber_send
    | Joined                                                       // fiber_join by another actor
    | Freed(out: Resumption, waiters: bool)                        // fiber_free

  /**
   * One operation on a settled fiber. It keeps the fiber settled, never
   * clears START, leaves the flags and mailbox of a closed fiber alone, and
   * changes the mailbox only to record the sender of an external send.
   */
  function Apply(c: Control, self: Fiber, op: Op): (d: Control)
    requires Settled(c, self)
    ensures Settled(d, self)
    ensures c.flags.started ==> d.flags.started
    ensures c.flags.closed ==> d.flags == c.flags && d.mailbox == c.mailbox
    ensures d.mailbox != c.mailbox ==> op.Sent? && op.from != Peer(self) && d.mailbox == Some(op.from)
  {
    match op
    case Sent(from, narg, out, waiters) =>
      if c.flags.closed || from != Peer(self) then Deliver(c, self, from, narg).ctl
      else Resume(c, out, waiters).ctl
    case Joined =>
      if c.flags.closed then c.(stack := []) else c
    case Freed(out, waiters) =>
      if c.flags.closed then c.(stack := [])
      else
        var s := Resume(c, out, waiters);
        if s.reply.Raised? then s.ctl else s.ctl.(stack := [])
  }

  /** What `fiber_join` gives its caller. */
  datatype JoinReply = Ready(values: seq<Value>) | Blocked

  /**
   * The main actor, as far as the fiber uses it: the ready-queue that
   * `ray_enqueue` appends to, and a record of the `ray_notify` calls.
   */
  class Scheduler {
    var queue: seq<Fiber>
    var notices: seq<Notice>

    constructor ()
      ensures queue == [] && notices == []
    {
      queue := [];
      notices := [];
    }

    /** `ray_enqueue(main, f)`, assumed to append. */
    method Enqueue(f: Fiber)
      modifies this
      ensures queue == old(queue) + [f]
      ensures notices == old(notices)
    {
      queue := queue + [f];
    }

    /** `ray_notify(f, count)`; whether it found waiters is the caller's `waiters` parameter. */
    method Notify(f: Fiber, count: int)
      modifies this
      ensures notices == old(notices) + [Notice(f, count)]
      ensures queue == old(queue)
    {
      notices := notices + [Notice(f, count)];
    }
  }

  /** A fiber actor: `ray_actor_t` with the fiber vtable. */
  class Fiber {
    const main: Scheduler
    var flags: Flags
    var mailbox: Option<Party>
    var stack: seq<Value>

    function State(): Control
      reads this
    {
      Control(flags, mailbox, stack)
    }

    ghost predicate Valid()
      reads this
    {
      && Settled(State(), this)
      && (mailbox.Some? && mailbox.value.Peer? ==> mailbox.value.fiber.main == main)
    }

    /** The fiber a resume in place may forward an error to. */
    function SenderFrame(): set<object>
      reads this
    {
      if mailbox.Some? && mailbox.value.Peer? then {mailbox.value.fiber} else {}
    }

    /** `ray_fiber_new` followed by the move of the entry function and its arguments. */
    constructor (main: Scheduler, args: seq<Value>)
      requires |args| >= 1 && args[0].Function?
      ensures Valid() && this.main == main
      ensures State() == Control(NO_FLAGS, None, args)
    {
      this.main := main;
      flags := NO_FLAGS;
      mailbox := None;
      stack := args;
    }

    /**
     * `rayM_fiber_recv`: clear ACTIVE and yield everything on the stack;
     * returns how many values are yielded. `from` is only traced.
     */
    method Recv(from: Party) returns (n: nat)
      modifies this
      ensures State() == Suspend(old(State()))
      ensures n == |stack|
    {
      flags := flags.(active := false);
      n := |stack|;
    }

    /** `ray_close` (assumed to set CLOSED) and `rayM_fiber_close`, whose registry update is not modelled. */
    method Close()
      modifies this
      ensures State() == Shut(old(State()))
    {
      flags := flags.(closed := true);
    }

    /**
     * The move half of `ray_send(this, from, n)`, assumed: the `n` values
     * taken from the top of the sending actor's stack land, in order, on top
     * of this fiber's stack.
     */
    method Receive(values: seq<Value>)
      modifies this
      ensures State() == old(State()).(stack := old(stack) + values)
      ensures old(Valid()) ==> Valid()
    {
      stack := stack + values;
    }

    /** The non-resuming branches of `rayM_fiber_send`. */
    method Post(from: Party, narg: int) returns (code: int)
      requires flags.closed || from != Peer(this)
      modifies this, main
      ensures var d := Deliver(old(State()), this, from, narg);
        && State() == d.ctl && code == d.code
        && main.queue == old(main.queue) + d.wake
        && main.notices == old(main.notices) + d.notices
      ensures old(Valid()) && (from.Peer? ==> from.fiber.main == main) ==> Valid()
    {
      if flags.closed {
        main.Notify(this, LUA_MULTRET);
        code := narg;
        return;
      }
      mailbox := Some(from);
      main.Enqueue(this);
      code := 0;
    }

    /**
     * `rayM_fiber_send(self, from, narg)`. `out` is what `lua_resume`
     * reports if the fiber is resumed, and `waiters` what `ray_notify`
     * answers on a normal exit. As in `rayM_fiber_send`, `ray_notify` is told the
     * count the resume passed in; the pop that follows removes all results.
     */
    method Send(from: Party, narg: int, out: Resumption, waiters: bool) returns (r: Reply)
      requires Valid()
      requires from.Peer? ==> from.fiber.main == main
      modifies this, main, SenderFrame()
      ensures Valid()
      ensures State() == Apply(old(State()), this, Sent(from, narg, out, waiters))
      // a closed fiber: only notify, return narg
      ensures old(flags.closed) ==>
        && State() == old(State()) && r == Returned(narg)
        && main.queue == old(main.queue)
        && main.notices == old(main.notices) + [Notice(this, LUA_MULTRET)]
      // someone else's send: record the sender and enqueue
      ensures !old(flags.closed) && from != Peer(this) ==>
        && State() == old(State()).(mailbox := Some(from)) && r == Returned(0)
        && main.queue == old(main.queue) + [this]
        && main.notices == old(main.notices)
      // the scheduler's own send: resume in place
      ensures !old(flags.closed) && from == Peer(this) ==>
        var s := Resume(old(State()), out, waiters);
        State() == s.ctl && r == s.reply
      ensures !old(flags.closed) && from == Peer(this) && out.Suspended? ==>
        && main.queue == old(main.queue) + (if out.throughRecv then [] else [this])
        && main.notices == old(main.notices)
      ensures !old(flags.closed) && from == Peer(this) && out.Finished? ==>
        && main.queue == old(main.queue)
        && main.notices == old(main.notices) + [Notice(this, Arity(old(State())))]
      ensures !old(flags.closed) && from == Peer(this) && out.Failed? && old(mailbox) in {None, Some(Main)} ==>
        main.queue == old(main.queue) && main.notices == old(main.notices)
      // an error is sent on, as one value, to the sender fiber, whose stack top it becomes
      ensures !old(flags.closed) && from == Peer(this) && out.Failed? && old(Sender(State())).Peer? ==>
        var f := old(Sender(State())).fiber;
        var d := old(Deliver(f.State(), f, Peer(this), 1));
        && f.State() == d.ctl.(stack := old(f.stack) + [out.error])
        && main.queue == old(main.queue) + d.wake
        && main.notices == old(main.notices) + d.notices
        && (old(f.Valid()) ==> f.Valid())
      ensures old(flags.closed) || from != Peer(this) || !out.Failed? ==> unchanged(old(SenderFrame()))
    {
      if flags.closed || from != Peer(this) {
        var code := Post(from, narg);
        r := Returned(code);
        return;
      }
      var sender := if mailbox.Some? then mailbox.value else Main;
      var count := if flags.started then |stack| else |stack| - 1;
      flags := flags.(started := true);
      flags := flags.(active := true);
      match out {
        case Suspended(throughRecv, values) =>
          if throughRecv {
            var _ := Recv(Peer(this));
          }
          stack := values;
          if flags.active {
            flags := flags.(active := false);
            main.Enqueue(this);
          }
          r := Returned(LUA_YIELD);
        case Finished(results) =>
          stack := results;
          main.Notify(this, count);
          if waiters {
            stack := [];
          }
          Close();
          r := Returned(0);
        case Failed(error) =>
          // ray_send(from, self, 1) moves the error off this stack
          stack := [];
          if sender.Peer? {
            sender.fiber.Receive([error]);
            var _ := sender.fiber.Post(Peer(this), 1);
          }
          Close();
          r := Raised(sender, error);
      }
    }

    /**
     * `fiber_join` called by `caller`: a closed fiber hands over its whole
     * stack at once; otherwise the caller suspends through its recv.
     */
    method Join(caller: Party) returns (r: JoinReply)
      requires Valid()
      modifies this, if caller.Peer? then {caller.fiber} else {}
      ensures Valid()
      ensures State() == Apply(old(State()), this, Joined)
      ensures old(flags.closed) ==> r == Ready(old(stack)) && stack == []
      ensures old(flags.closed) && caller.Peer? && caller.fiber != this ==> unchanged(caller.fiber)
      ensures !old(flags.closed) ==> r == Blocked
      ensures !old(flags.closed) && caller.Peer? ==> caller.fiber.State() == Suspend(old(caller.fiber.State()))
    {
      if flags.closed {
        r := Ready(stack);
        stack := [];
        return;
      }
      if caller.Peer? {
        var _ := caller.fiber.Recv(Peer(this));
      }
      r := Blocked;
    }

    /**
     * `fiber_free`: an open fiber first gets one self-send with no
     * arguments; then its stack is emptied. An error raised by that send
     * leaves `fiber_free` before the stack is emptied.
     */
    method Free(out: Resumption, waiters: bool) returns (r: Reply)
      requires Valid()
      modifies this, main, SenderFrame()
      ensures Valid()
      ensures State() == Apply(old(State()), this, Freed(out, waiters))
      ensures old(flags.closed) ==>
        && r == Returned(1) && stack == []
        && main.queue == old(main.queue) && main.notices == old(main.notices)
      ensures !old(flags.closed) ==>
        var s := Resume(old(State()), out, waiters);
        && r == (if s.reply.Raised? then s.reply else Returned(1))
        && flags == s.ctl.flags
      ensures !old(flags.closed) && !out.Failed? ==>
        && stack == []
        && main.queue == old(main.queue) + (if out.Suspended? && !out.throughRecv then [this] else [])
        && main.notices == old(main.notices) + (if out.Finished? then [Notice(this, Arity(old(State())))] else [])
      ensures !old(flags.closed) && out.Failed? && old(mailbox) in {None, Some(Main)} ==>
        main.queue == old(main.queue) && main.notices == old(main.notices)
      // the error of the self-send is sent on, as one value, to the sender fiber, whose stack top it becomes
      ensures !old(flags.closed) && out.Failed? && old(Sender(State())).Peer? ==>
        var f := old(Sender(State())).fiber;
        var d := old(Deliver(f.State(), f, Peer(this), 1));
        && f.State() == d.ctl.(stack := old(f.stack) + [out.error])
        && main.queue == old(main.queue) + d.wake
        && main.notices == old(main.notices) + d.notices
        && (old(f.Valid()) ==> f.Valid())
      ensures old(flags.closed) || !out.Failed? ==> unchanged(old(SenderFrame()))
    {
      if !flags.closed {
        var sent := Send(Peer(this), 0, out, waiters);
        if sent.Raised? {
          r := sent;
          return;
        }
      }
      stack := [];
      r := Returned(1);
    }
  }

  /**
   * `fiber_new`: the first argument must be a function; the new fiber
   * holds all the arguments and is put on the ready-queue.
   */
  method Create(main: Scheduler, args: seq<Value>) returns (r: Result<Fiber>)
    modifies main
    ensures r.Error? <==> |args| == 0 || !args[0].Function?
    ensures r.Error? ==> main.queue == old(main.queue)
    ensures r.Ok? ==>
      && fresh(r.value) && r.value.Valid() && r.value.main == main
      && r.value.State() == Control(NO_FLAGS, None, args)
      && main.queue == old(main.queue) + [r.value]
    ensures main.notices == old(main.notices)
  {
    if |args| == 0 || !args[0].Function? {
      r := Error(Text("bad argument #1 (function expected)"));
      return;
    }
    var f := new Fiber(main, args);
    main.Enqueue(f);
    r := Ok(f);
  }

  /**
   * `fiber_spawn`: `fiber_new`, then a send from the calling actor, which
   * records the caller in the mailbox and enqueues the fiber a second time.
   */
  method Spawn(main: Scheduler, caller: Party, args: seq<Value>) returns (r: Result<Fiber>)
    requires caller.Peer? ==> caller.fiber.main == main
    modifies main
    ensures r.Error? <==> |args| == 0 || !args[0].Function?
    ensures r.Error? ==> main.queue == old(main.queue)
    ensures r.Ok? ==>
      && fresh(r.value) && r.value.Valid() && r.value.main == main
      && r.value.State() == Control(NO_FLAGS, Some(caller), args)
      && main.queue == old(main.queue) + [r.value, r.value]
    ensures main.notices == old(main.notices)
  {
    r := Create(main, args);
    if r.Ok? {
      var _ := r.value.Post(caller, LUA_MULTRET);
    }
  }
}
