/**
 * The primary-backup replica: per-client typestate machines on the primary
 * and on the backup side, and the per-replica role machine
 * (Idle, Primary, Backup, Promoting).
 *
 * Every transition consumes its state and returns the successor, so each
 * state is a datatype and each transition a member of it. Effects leave a
 * transition only through a `Context` (which records them in `trace`) and
 * through `App.Execute` (which records them in the application's log); a
 * transition that does not take the context or the application cannot
 * produce that kind of effect.
 */
module Replica {
  import opened Base
  import Pb = PbMessages

  /** One call on the replica's context, in the order the calls were made. */
  datatype Effect =
    | SendReply(addr: Addr, reply: Pb.Reply)
    | SyncOp(backupId: Id, syncSeq: u32, clientId: Id, op: Op)
    | SyncOpOk(primaryId: Id, upTo: u32)
    | SyncApp(backupId: Id, app: App, replying: map<Id, BReplying>)
    | SyncAppOk(primaryId: Id)

  /** The replica's outlet to the network: every call appends one effect. */
  class Context {
    var trace: seq<Effect>

    constructor ()
      ensures trace == []
    {
      trace := [];
    }

    method SendReply(addr: Addr, reply: Pb.Reply)
      modifies this
      ensures trace == old(trace) + [Effect.SendReply(addr, reply)]
    {
      trace := trace + [Effect.SendReply(addr, reply)];
    }

    method SyncOp(backupId: Id, syncSeq: u32, clientId: Id, op: Op)
      modifies this
      ensures trace == old(trace) + [Effect.SyncOp(backupId, syncSeq, clientId, op)]
    {
      trace := trace + [Effect.SyncOp(backupId, syncSeq, clientId, op)];
    }

    method SyncOpOk(primaryId: Id, upTo: u32)
      modifies this
      ensures trace == old(trace) + [Effect.SyncOpOk(primaryId, upTo)]
    {
      trace := trace + [Effect.SyncOpOk(primaryId, upTo)];
    }

    method SyncApp(backupId: Id, app: App, replying: map<Id, BReplying>)
      modifies this
      ensures trace == old(trace) + [Effect.SyncApp(backupId, app, replying)]
    {
      trace := trace + [Effect.SyncApp(backupId, app, replying)];
    }

    method SyncAppOk(primaryId: Id)
      modifies this
      ensures trace == old(trace) + [Effect.SyncAppOk(primaryId)]
    {
      trace := trace + [Effect.SyncAppOk(primaryId)];
    }
  }

  // ---------------------------------------------------------------------
  // Per-client state machine, primary side:
  //   PReplied(seq) -> PBackingUp(seq', op, addr) -> PReplying(seq', result)

  /** The client's last request has been answered; initial state is seq 0. */
  datatype PReplied = PReplied(seqNum: u32) {

    static function New(): (s: PReplied)
      ensures s.seqNum == 0
    {
      PReplied(0)
    }

    /**
     * Accepts a client request while a backup exists: forwards the operation
     * to the backup under the primary-local `syncSeq` and moves to backing up.
     * The current seq is not consulted.
     */
    method Request(request: Pb.Request, syncSeq: u32, backupId: Id, ctx: Context) returns (next: PBackingUp)
      modifies ctx
      ensures next == RequestNoSync(request)
      ensures ctx.trace == old(ctx.trace) + [Effect.SyncOp(backupId, syncSeq, request.id, request.op)]
    {
      ctx.SyncOp(backupId, syncSeq, request.id, request.op);
      next := PBackingUp(request.seqNum, request.op, request.clientAddr);
    }

    /** Accepts a client request when no backup exists; no context call is made. */
    function RequestNoSync(request: Pb.Request): (next: PBackingUp)
      ensures next.seqNum == request.seqNum && next.op == request.op && next.addr == request.clientAddr
    {
      PBackingUp(request.seqNum, request.op, request.clientAddr)
    }
  }

  /** The request's operation awaits execution; `addr` is where to reply. */
  datatype PBackingUp = PBackingUp(seqNum: u32, op: Op, addr: Addr) {

    /**
     * Executes the stored operation once, replies with its result to the
     * stored address, and keeps that result for retransmissions.
     */
    method Execute(app: App, ctx: Context) returns (next: PReplying)
      modifies app, ctx
      ensures app.executed == old(app.executed) + [op]
      ensures next.seqNum == seqNum && next.result == app.run(old(app.executed), op)
      ensures ctx.trace == old(ctx.trace) + [Effect.SendReply(addr, next.AsReply())]
    {
      var result := app.Execute(op);
      var reply := Pb.Reply(seqNum, result);
      ctx.SendReply(addr, reply);
      next := PReplying(seqNum, result);
    }
  }

  /** The result for `seqNum` is cached and is re-sent on retransmission. */
  datatype PReplying = PReplying(seqNum: u32, result: Res) {

    /** The reply message carrying the cached answer. */
    function AsReply(): (r: Pb.Reply)
      ensures r.seqNum == seqNum && r.result == result
    {
      Pb.Reply(seqNum, result)
    }

    /** Re-sends the cached reply to `addr`; the state is kept and nothing is executed. */
    method Reply(addr: Addr, ctx: Context) returns (next: PReplying)
      modifies ctx
      ensures next == this
      ensures ctx.trace == old(ctx.trace) + [Effect.SendReply(addr, AsReply())]
    {
      var reply := Pb.Reply(seqNum, result);
      ctx.SendReply(addr, reply);
      next := PReplying(seqNum, result);
    }

    /** A request numbered `s` is newer than the cached answer. */
    predicate IsReceived(s: u32)
      ensures IsReceived(s) <==> AsReply().seqNum < s
    {
      s > seqNum
    }

    /**
     * A request numbered `s` retransmits the cached answer's request. Every
     * incoming seq is exactly one of: newer, a retransmission, or older.
     */
    predicate IsReplying(s: u32)
      ensures IsReplying(s) ==> !IsReceived(s)
      ensures !IsReplying(s) && !IsReceived(s) ==> s < seqNum
    {
      s == seqNum
    }
  }

  // ---------------------------------------------------------------------
  // Per-client state machine, backup side:
  //   BBackingUp(seq, op) -> BReplying(seq, result)

  /** An operation forwarded by the primary, not yet executed. */
  datatype BBackingUp = BBackingUp(seqNum: u32, op: Op) {

    static function New(seqNum: u32, op: Op): (s: BBackingUp)
      ensures s.seqNum == seqNum && s.op == op
    {
      BBackingUp(seqNum, op)
    }

    /** Executes the operation once; a backup never replies to clients. */
    method Execute(app: App) returns (next: BReplying)
      modifies app
      ensures app.executed == old(app.executed) + [op]
      ensures next == BReplying(seqNum, app.run(old(app.executed), op))
    {
      var result := app.Execute(op);
      next := BReplying(seqNum, result);
    }
  }

  /** The backup's cached result for `seqNum`. */
  datatype BReplying = BReplying(seqNum: u32, result: Res) {

    /**
     * Lifts the cached result into the primary-side representation: the
     * promoted state answers a retransmission of `seqNum` with `result`.
     */
    function Promote(): (p: PReplying)
      ensures p.seqNum == seqNum && p.result == result
      ensures p.IsReplying(seqNum) && p.AsReply() == Pb.Reply(seqNum, result)
    {
      PReplying(seqNum, result)
    }
  }

  /** Promotes every cached backup-side result, keeping the client keys. */
  function PromoteAll(replying: map<Id, BReplying>): (r: map<Id, PReplying>)
    ensures r.Keys == replying.Keys
    ensures forall id :: id in replying ==>
              r[id].seqNum == replying[id].seqNum && r[id].result == replying[id].result
  {
    map id | id in replying :: replying[id].Promote()
  }

  // ---------------------------------------------------------------------
  // Per-replica role machine.

  datatype Primary = Primary(
    preparedSeq: u32,
    committedSeq: u32,
    backingUp: map<u32, PBackingUp>,
    replying: map<Id, PReplying>)
  {
    /** Replication counters as every new primary incarnation starts them. */
    predicate Fresh() {
      preparedSeq == 0 && committedSeq == 0 && backingUp == map[]
    }
  }

  datatype Backup = Backup(
    committedSeq: u32,
    backingUp: map<u32, BBackingUp>,
    replying: map<Id, BReplying>)
  {
    /**
     * Begins promotion with a successor backup: sends it the application
     * snapshot and reply table supplied by the caller, and keeps this
     * backup's own reply table while waiting for the acknowledgement.
     */
    method Promote(backupId: Id, app: App, replying: map<Id, BReplying>, ctx: Context) returns (next: Promoting)
      modifies ctx
      ensures next.backupId == backupId && next.replying == this.replying
      ensures ctx.trace == old(ctx.trace) + [Effect.SyncApp(backupId, app, replying)]
    {
      ctx.SyncApp(backupId, app, replying);
      next := Promoting(backupId, this.replying);
    }

    /** Becomes primary directly when the new view has no backup. */
    function PromoteNoSync(): (p: Primary)
      ensures p.Fresh()
      ensures p.replying.Keys == replying.Keys
      ensures forall id :: id in replying ==> p.replying[id] == replying[id].Promote()
    {
      Primary(0, 0, map[], PromoteAll(replying))
    }
  }

  /** A promoted backup waiting for its successor backup to adopt the state. */
  datatype Promoting = Promoting(backupId: Id, replying: map<Id, BReplying>) {

    /** The successor acknowledged: becomes primary with fresh counters. */
    function Promoted(): (p: Primary)
      ensures p.Fresh()
      ensures p.replying.Keys == replying.Keys
      ensures forall id :: id in replying ==> p.replying[id] == replying[id].Promote()
    {
      Primary(0, 0, map[], PromoteAll(replying))
    }
  }

  /** The only initial role. */
  datatype Idle = Idle {

    /** Becomes primary of the very first view, with nothing cached. */
    function StartPrimary(): (p: Primary)
      ensures p.Fresh() && p.replying == map[]
    {
      Primary(0, 0, map[], map[])
    }

    /**
     * Becomes backup by adopting the reply table sent by the primary, and
     * acknowledges the state transfer to that primary.
     */
    method Load(replying: map<Id, BReplying>, primaryId: Id, ctx: Context) returns (next: Backup)
      modifies ctx
      ensures next.replying == replying
      ensures next.committedSeq == 0 && next.backingUp == map[]
      ensures ctx.trace == old(ctx.trace) + [Effect.SyncAppOk(primaryId)]
    {
      ctx.SyncAppOk(primaryId);
      next := Backup(0, map[], replying);
    }
  }

  datatype RoleState =
    | IdleRole(idle: Idle)
    | PrimaryRole(primary: Primary)
    | BackupRole(backup: Backup)
    | PromotingRole(promoting: Promoting)

  /** A replica: its identity, its current role and its application. */
  datatype State = State(id: Id, role: RoleState, app: App) {

    static function New(id: Id, app: App): (s: State)
      ensures s.id == id && s.app == app && s.role == IdleRole(Idle)
    {
      State(id, IdleRole(Idle), app)
    }
  }

  // ---------------------------------------------------------------------
  // End-to-end runs of the transitions above, each on its own context and
  // application.

  /**
   * A primary with a backup accepts a request (seq 1 in the usual run),
   * executes it, and then sees the same request again: the retransmission
   * is answered from the cache, so the operation is executed once and the
   * client receives the identical reply twice.
   */
  method PrimaryRetransmission(request: Pb.Request, syncSeq: u32, backupId: Id, run: (seq<Op>, Op) -> Res)
    returns (trace: seq<Effect>, executed: seq<Op>)
    ensures executed == [request.op]
    ensures trace == [
      Effect.SyncOp(backupId, syncSeq, request.id, request.op),
      Effect.SendReply(request.clientAddr, Pb.Reply(request.seqNum, run([], request.op))),
      Effect.SendReply(request.clientAddr, Pb.Reply(request.seqNum, run([], request.op)))]
  {
    var ctx := new Context();
    var app := new App(run);
    var replied := PReplied.New();
    var backingUp := replied.Request(request, syncSeq, backupId, ctx);
    var replying := backingUp.Execute(app, ctx);
    if replying.IsReplying(request.seqNum) {
      replying := replying.Reply(request.clientAddr, ctx);
    }
    trace, executed := ctx.trace, app.executed;
  }

  /**
   * A backup executes a forwarded operation and is then promoted without a
   * successor; the client's retransmission of that request is answered by
   * the new primary with the backup's result, without executing again.
   */
  method PromotionRetransmission(clientId: Id, seqNum: u32, op: Op, addr: Addr, run: (seq<Op>, Op) -> Res)
    returns (trace: seq<Effect>, executed: seq<Op>)
    ensures executed == [op]
    ensures trace == [Effect.SendReply(addr, Pb.Reply(seqNum, run([], op)))]
  {
    var ctx := new Context();
    var app := new App(run);
    var backingUp := BBackingUp.New(seqNum, op);
    var cached := backingUp.Execute(app);
    var backup := Backup(0, map[], map[clientId := cached]);
    var primary := backup.PromoteNoSync();
    var replying := primary.replying[clientId];
    if replying.IsReplying(seqNum) {
      replying := replying.Reply(addr, ctx);
    }
    trace, executed := ctx.trace, app.executed;
  }
}
