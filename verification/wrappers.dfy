/** Optional values: the model's stand-in for TypeScript's `T | undefined` and `T | null`. */
module Wrappers {

  datatype Option<+T> = None | Some(value: T) {

    /** The carried value, or `default` when there is none (JavaScript's `x ?? default`). */
    function GetOr(default: T): T {
      match this
      case Some(v) => v
      case None => default
    }
  }

  /*
    JavaScript's `x || d`: the fallback `d` replaces every falsy `x`, which for an
    optional number is `undefined` and 0, and for an optional string `undefined` and "".
    These are reference definitions; the components' own fallbacks are proved to agree.
   */

  function NatOr(x: Option<nat>, d: nat): nat {
    if x.None? || x.value == 0 then d else x.value
  }

  function RealOr(x: Option<real>, d: real): real {
    if x.None? || x.value == 0.0 then d else x.value
  }

  function StringOr(x: Option<string>, d: string): string {
    if x.None? || x.value == "" then d else x.value
  }
}
