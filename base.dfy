/**
 * The placeholder types and the application object shared by the
 * at-most-once layer and the primary-backup replica.
 *
 * In the repository the operation, result, address and identity types are
 * unit structs and the application ignores its operation; here they are
 * abstract, and the application is an opaque deterministic state machine
 * whose behaviour is supplied when it is created.
 */
module Base {

  /** An application operation (opaque). */
  type Op

  /** An application result (opaque). */
  type Res

  /** A client network address (opaque, copyable). */
  type Addr

  /** A replica or client identity; used as a map key, so it supports equality. */
  type Id(==)

  /** Rust's `u32`, the width of every sequence number in the protocol. */
  newtype u32 = x: int | 0 <= x < 0x1_0000_0000

  const U32Max: u32 := 0xFFFF_FFFF

  datatype Option<+T> = None | Some(value: T)

  /**
   * The application. `run` is the opaque semantics of `execute`: the result
   * of an operation is determined by the operations executed before it and by
   * the operation itself. `executed` is the log of every operation the
   * application has executed, in order.
   */
  class App {
    const run: (seq<Op>, Op) -> Res
    var executed: seq<Op>

    constructor (run: (seq<Op>, Op) -> Res)
      ensures this.run == run && executed == []
    {
      this.run := run;
      executed := [];
    }

    /** Executes `op` exactly once and returns its result. */
    method Execute(op: Op) returns (r: Res)
      modifies this
      ensures executed == old(executed) + [op]
      ensures r == run(old(executed), op)
    {
      r := run(executed, op);
      executed := executed + [op];
    }
  }
}
