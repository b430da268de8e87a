# Fiber actor control protocol

This project models the fiber actor in `src/ray_fiber.c`. A fiber is a Lua coroutine wrapped in an actor control block (`ray_actor_t`). The block has three flag bits (START, ACTIVE, CLOSED), a one-slot mailbox (`u.data`) that holds the last external sender, and the coroutine's Lua stack. A fiber is run by the main actor, which owns a FIFO ready-queue.

`rayM_fiber_send(self, from, narg)` chooses one of three behaviours:

- If the fiber is closed, it only calls `ray_notify` and returns `narg`.
- If the send comes from any actor other than the fiber itself, it stores `from` in the mailbox, enqueues the fiber and returns 0.
- If the fiber sends to itself (the scheduler's deferred resume), it resumes the coroutine in place. First it takes the sender from the mailbox, or the main actor if the mailbox is empty. It sets START on the first resume only and sets ACTIVE. Then it interprets the outcome:
  - **Yield:** if ACTIVE is still set, the yield did not go through recv. ACTIVE is cleared and the fiber is enqueued again.
  - **Normal exit:** waiters are notified and the fiber is closed.
  - **Error:** the error is sent on to the sender, the fiber is closed, and the error is raised in the sender.

Around `send` sit:

- `recv`, which clears ACTIVE and yields.
- `join`, which takes a closed fiber's whole stack, and otherwise suspends the caller through its recv.
- `free`, which gives an open fiber one self-send with no arguments and then empties its stack.
- `create`, which enqueues the new fiber.
- `spawn`, which creates the fiber and then sends to it.

The model has three files:

- `lua.dfy` (module `Lua`): opaque Lua values, `LUA_YIELD` and `LUA_MULTRET` as defined in Lua 5.1's `lua.h`, and `Option`/`Result`.
- `ray_fiber.dfy` (module `RayFiber`):
  - Each protocol step as a function on the control block taken as a value (`Deliver`, `Resume`, `Apply`).
  - The classes `Scheduler` (the main actor's queue) and `Fiber` (flags, mailbox, stack). Their methods update fields in place and are proved to agree with those functions.
  - `Create` and `Spawn`.
- `lifecycle.dfy` (module `FiberLifecycle`): `Run`, which applies a sequence of operations to a fiber, lemmas about every state such a sequence reaches, and three client scenarios.

The collaborators that live in files outside this model get assumed contracts. These are assumptions, not verified facts:

- `ray_enqueue` appends to the main actor's queue.
- `ray_close` sets CLOSED.
- `ray_notify` reports whether anyone was waiting. Its answer is a parameter (`waiters`), and each call is recorded in `Scheduler.notices`.
- `ray_notify` leaves the main actor's ready-queue alone.
- `ray_push` and `ray_notify` leave the fiber's own stack as they found it. The stack after a normal exit (`RayFiber.Resume`, `RayFiber.Fiber.Send`), and the unchanged control block of a closed fiber that is sent to (`RayFiber.Fiber.Send`, `FiberLifecycle.ClosedIgnoresSends`), rest on this.
- `ray_get_main` returns the one main actor, modelled as the `Scheduler` every fiber holds as `Fiber.main`.
- `ray_actor_new` starts with no flags and an empty mailbox.
- `ray_send(to, from, n)`, for a count `n` of values, first moves the top `n` values of `from`'s stack onto `to`'s stack, then dispatches to the target's `send`. On an error (src/ray_fiber.c:89) this is how the error value reaches the stack top that `lua_error(from->L)` raises (`RayFiber.Fiber.Receive`).
- `ray_recv` dispatches to the caller's `recv` (`rayM_fiber_recv` for a fiber), which `join` relies on.
- `ray_get_self` returns the actor that is running the call, which `join` and `spawn` rely on.

`lua_resume` is a parameter of type `Resumption`: `Suspended(throughRecv, values)`, `Finished(values)` or `Failed(error)`. When `throughRecv` holds, the model calls `Recv` inside the resume, as the coroutine body would. The test on ACTIVE after the resume is then evaluated, not assumed.

Some behaviours of the code that a reader may not expect, which the model follows:

- The mailbox is never cleared after a resume reads it. A later resume acts for the same sender until another external send replaces it (`FiberLifecycle.MailboxHoldsAnExternalSender`).
- `spawn` does not start the fiber eagerly. Its send comes from the caller, not from the fiber, so it takes the queuing path: the new fiber is recorded with the caller as sender, and `ray_enqueue` is called for it twice (src/ray_fiber.c:140, then :35 through `ray_send` at :148). Under the assumed append, the fiber appears twice in the ready-queue (`RayFiber.Spawn`).
- `free` resumes an open fiber once, not until it closes. If that resume yields, the fiber is still open, and a naked yield leaves it on the ready-queue.
- A normal exit does not clear ACTIVE, so a closed fiber may still carry it. Between operations, only open fibers are guaranteed inactive (`RayFiber.Settled`).

## Model

| member | source | states |
|---|---|---|
| `RayFiber.Arity` | src/ray_fiber.c:47-54 | The count passed to `lua_resume`: the whole stack when START was already set; on the first resume one less, leaving out the entry function. It is negative exactly when an unstarted fiber has an empty stack. |
| `RayFiber.Deliver` | src/ray_fiber.c:26-37 | A send that does not resume never changes the flags or the stack. It either notifies (closed fiber) or enqueues the fiber exactly once (open fiber), never both. |
| `RayFiber.Resume` | src/ray_fiber.c:38-93 | A resume in place hands `lua_resume` the count `Arity` gives for the state before it. It always leaves START set and the mailbox unchanged. The fiber is closed exactly when the outcome is not a yield. After a yield ACTIVE is clear, whichever path caused it. The fiber is requeued exactly when it yielded without going through recv. On a normal exit it returns 0 and its results stay on the stack unless there were waiters (given that `ray_push` and `ray_notify` leave the stack alone). On an error, the error is raised in the mailbox sender, or in the main actor if the mailbox is empty, and it has been moved off the fiber's stack. |
| `RayFiber.PopAsWritten` | src/ray_fiber.c:75-78 | The exit pop as written removes `narg` values, so it underflows exactly when there are waiters and `narg` exceeds the number of results. |
| `RayFiber.PopAsWrittenKeepsResult` | src/ray_fiber.c:47-78 | Counterexample: a fiber created with no arguments returns one value while someone waits. As written the value stays on the stack; the corrected step pops it. |
| `RayFiber.PopAsWrittenUnderflows` | src/ray_fiber.c:47-78 | Counterexample: a fiber resumed with two values returns none while someone waits. As written the pop underflows. |
| `RayFiber.Apply` | src/ray_fiber.c:23-172 | Every send, join or free keeps the fiber settled: CLOSED implies START, an open fiber is not ACTIVE, an unstarted fiber has its function at the stack bottom, and the mailbox never names the fiber itself. START is never cleared. A closed fiber's flags and mailbox are frozen. The mailbox changes only to the sender of an external send. |
| `RayFiber.Scheduler.Enqueue` | src/ray_fiber.c:35 | Assumed contract of `ray_enqueue`: appends the fiber to the main actor's queue and changes nothing else. |
| `RayFiber.Scheduler.Notify` | src/ray_fiber.c:28 | Assumed contract of `ray_notify`: records the call with its count and leaves the queue alone. |
| `RayFiber.Fiber.constructor` | src/ray_fiber.c:109-137 | A new fiber has no flags, an empty mailbox, and the entry function with its arguments on its stack. |
| `RayFiber.Fiber.Recv` | src/ray_fiber.c:13-21 | recv clears ACTIVE, changes nothing else, and yields every value on the stack. |
| `RayFiber.Fiber.Close` | src/ray_fiber.c:96-107 | Closing sets CLOSED and changes nothing else in the modelled state. |
| `RayFiber.Fiber.Receive` | src/ray_fiber.c:89 | Assumed move half of `ray_send`: the moved values are appended on top of the target fiber's stack, nothing else changes, and the fiber stays valid. |
| `RayFiber.Fiber.Post` | src/ray_fiber.c:26-37 | A closed fiber: only a notify with `LUA_MULTRET`, and `narg` is returned. An open fiber and a foreign sender: the sender is stored, the fiber is enqueued once, and 0 is returned. |
| `RayFiber.Fiber.Send` | src/ray_fiber.c:23-94 | Branch by branch, send follows the rules above. A closed target is untouched except for one notify (given that `ray_notify` leaves its stack alone). An external send records the sender and enqueues once. A self-send resumes with the effects of `Resume`. On a normal exit the waiters are notified once, with the count the resume passed in, as the code does, and the stack is as `Resume` gives it under the same assumption. On an error, the error value is moved onto the top of the sender fiber's stack and sent on as one value. The sender is queued unless it is closed, and the reply raises that same value in it. The fiber stays valid. |
| `RayFiber.Fiber.Join` | src/ray_fiber.c:152-164 | On a closed fiber, join returns its whole stack and empties it, without suspending anyone. Otherwise it reports the caller blocked and the calling fiber's ACTIVE is cleared as by recv. |
| `RayFiber.Fiber.Free` | src/ray_fiber.c:165-173 | A closed fiber is not resumed: only its stack is emptied and 1 is returned, with the queue, the notify record and every other fiber untouched. An open fiber gets exactly one self-send with the effects of `Resume` and the same queue and notify effects as `Send`. On an error, the error is moved to the top of the sender fiber's stack and raised there; otherwise the stack is emptied, 1 is returned, and no other fiber changes. |
| `RayFiber.Create` | src/ray_fiber.c:126-142 | Creation fails exactly when the first argument is not a function. Otherwise the fresh fiber holds all arguments and is appended to the queue once. |
| `RayFiber.Spawn` | src/ray_fiber.c:144-150 | Spawn is create followed by a send from the caller. The fiber records the caller as its sender and is appended to the queue twice. |
| `FiberLifecycle.Run` | src/ray_fiber.c:23-172 | After any sequence of sends, joins and frees, the fiber is still settled and START is still set if it was. If the fiber was closed, its flags and mailbox are unchanged. |
| `FiberLifecycle.LaterResumesPassWholeStack` | src/ray_fiber.c:47-54 | After the first resume, by self-send or free, every later state has START set, so later resumes pass the whole stack. |
| `FiberLifecycle.ClosedIgnoresSends` | src/ray_fiber.c:26-30 | Any number of sends to a closed fiber, from anyone, leave its control block exactly as it was. |
| `FiberLifecycle.MailboxHoldsAnExternalSender` | src/ray_fiber.c:32-43 | The mailbox is never cleared. After any sequence of operations it holds its first value or the sender of one of the external sends. |

## Findings

| source | as written | input that shows it | evidently intended | confidence | as-written member | corrected member |
|---|---|---|---|---|---|---|
| src/ray_fiber.c:75-78 | On normal exit, `ray_push`, `ray_notify` and `lua_pop` use `narg`, the number of values the resume passed in, as if it were the number of results. The model keeps the count given to `ray_notify` as written (`RayFiber.Fiber.Send` records it) and corrects only the pop. | Case 1: a fiber created with no arguments returns one value while a joiner waits. Nothing is popped, and the result stays for a later join. Case 2: a fiber resumed with two values returns none while a joiner waits. `lua_pop(L, 2)` runs on an empty stack. | Use the number of results, so the results are popped exactly when there were waiters. | medium (the bodies of `ray_push` and `ray_notify` are not part of this model); not executed | `RayFiber.PopAsWritten`, `RayFiber.PopAsWrittenKeepsResult`, `RayFiber.PopAsWrittenUnderflows` | `RayFiber.Resume`, `RayFiber.Fiber.Send` |

## Left out

- Effects of the coroutine body on other actors during a resume are not modelled. For example, a send to another fiber made while this fiber runs does not appear. A resume changes only this fiber, the main queue, the notify record and, on an error, the sender fiber (src/ray_fiber.c:89).
- Resume outcomes with no `lua_resume` behind them: `lua_resume` is represented by its outcome, `lua_yield` by `Recv`, and the final `lua_error` by the `Raised` reply returned to the caller.
- `Fiber.Recv` returns the number of values yielded, not the special value `lua_yield` hands back to the Lua VM.
- A failed resume is modelled as leaving only the error value on the fiber's stack. `ray_send` then moves that value away, so the stack is empty afterwards. Values below the error that Lua 5.1 leaves on a failed coroutine's stack are not modelled.
- `Fiber.Send` models `rayM_fiber_send` alone. The move half of `ray_send` (`Fiber.Receive`) is applied only where this file calls `ray_send` on an error (src/ray_fiber.c:89). Values that other code moves before calling a fiber's send are not part of `Send`.
- What `ray_send(self, from, LUA_MULTRET)` in `spawn` (src/ray_fiber.c:148) moves from the caller's stack is not modelled. After `fiber_new` that stack holds only the handle, and the meaning of `LUA_MULTRET` as a count for the move is in `ray_send`, which is not part of this model.
- The files that hold `ray_enqueue`, `ray_notify`, `ray_close`, `ray_push`, `ray_send`, `ray_recv`, `ray_get_self`, `ray_get_main`, `ray_actor_new` and `ray_actor_free` are not part of this model. Each has only the assumed contract stated above, except `ray_actor_free`, which is left out (see below).
- `ray_push` (pushing the results for waiters) is not modelled beyond the assumption above that it leaves the fiber's stack alone. Where it puts the results for the waiters is not modelled.
- The waiter list that `ray_notify` serves is not modelled; only its yes/no answer and the call record are.
- `Scheduler.queue` holds only the fiber code's own `ray_enqueue` calls. Waking the waiters, which `ray_notify` does in a file outside this model, is summarised by the record in `Scheduler.notices`.
- `FiberLifecycle.Run` and the lemmas about it also accept operation sequences that continue after `Freed`. The source cannot produce these, because `fiber_free` releases the control block (src/ray_fiber.c:171). Every property proved holds of these longer sequences too, so it holds of the real ones.
- The main actor's own send and recv are not part of this model. When the error sender is the main actor, or the main actor joins an open fiber, the model records only the reply.
- Moving values between Lua stacks (`lua_insert`, `lua_xmove`, `lua_checkstack`, `lua_settop`) is reduced to the fiber's stack as a sequence. The caller's stack in `join` and the handle left on the creator's stack are not modelled.
- The registry mapping from a Lua thread to its actor is not modelled (`ray_fiber_new` lines 115-120, `rayM_fiber_close` lines 101-104). This is garbage-collector bookkeeping.
- Releasing the control block in `fiber_free` (`ray_actor_free`) is not modelled.
- The `luaL_checkudata` type check in `join` is not modelled, because the handle is typed.
- Not modelled: module and class registration, `__tostring`, borrowing `coroutine.yield`, `TRACE` and stack dumps.
- `src/ray_thread.h` declares the thread actor without bodies, so there is no behaviour to model.
- The bit values of the flags are in headers that are not part of this model; the flags are three booleans.
