/** The per-process distributed context: established once, never mutated. */
module Distributed {

  /** `distributed` is what the distributed-mode initialisation returned;
      `rank` is this process's rank (0 when not distributed). */
  datatype Context = Context(distributed: bool, rank: nat)

  /** A process is the main one when it has rank 0; a process that is not
      part of a distributed group always is. */
  predicate IsMain(ctx: Context) {
    !ctx.distributed || ctx.rank == 0
  }
}
