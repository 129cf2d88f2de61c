/** The world outside the driver, as an arbitrary script of replies. Every access to sysfs,
    to a file or to another service consumes the next reply, so an operation is a function of
    the state, its arguments and the script, and what is proved for all scripts holds
    whatever fails. */
module Environment {

  /** `error` is what the caller is told; `effect` whether a failed write, or a driver probe,
      took effect all the same. */
  datatype Reply = Reply(error: bool, effect: bool)

  type Script = nat -> Reply

  predicate Takes(r: Reply) { !r.error || r.effect }

  /** No access from one moment to another fails. */
  ghost predicate Calm(e: Script, from: nat, to: nat) {
    forall n :: from <= n < to ==> !e(n).error
  }

  class Environment {
    const script: Script
    var tick: nat

    constructor (script: Script)
      ensures this.script == script && tick == 0
    {
      this.script, tick := script, 0;
    }

    method Access() returns (r: Reply)
      modifies this
      ensures r == script(old(tick)) && tick == old(tick) + 1
    {
      r := script(tick);
      tick := tick + 1;
    }
  }
}
