/**
 * The parts of the Lua C API that the fiber actor relies on, abstracted:
 * values are opaque except for whether they are functions, and only the
 * status codes the actor code compares against are named.
 */
module Lua {

  /** A Lua value. The actor code only ever asks whether a value is a function. */
  datatype Value =
    | Nil
    | Boolean(b: bool)
    | Number(n: int)
    | Text(s: string)
    | Function(ref: nat)

  /** `LUA_YIELD` of lua.h: the status `lua_resume` returns when the coroutine yielded. */
  const LUA_YIELD: int := 1

  /** `LUA_MULTRET` of lua.h: "all values", passed where a count is expected. */
  const LUA_MULTRET: int := -1

  datatype Option<T> = None | Some(value: T)

  /** A call into the C API that either returns or raises a Lua error carrying a value. */
  datatype Result<T> = Ok(value: T) | Error(error: Value)
}
