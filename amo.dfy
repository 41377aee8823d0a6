/**
 * The at-most-once layer without replication: the client session's
 * invocation step and the server's per-client request loop.
 *
 * Delivery is publish/subscribe: the client publishes its requests under
 * its identity, the server publishes replies to the client's address. The
 * asynchronous plumbing is replaced by explicit inputs: the stream of
 * replies a client will receive, the stream of requests a server's
 * per-client loop will receive, and a `Bus` that records what is published.
 */
module Amo {
  import opened Base

  datatype Request = Request(seqNum: u32, op: Op, clientAddr: Addr)

  datatype Reply = Reply(seqNum: u32, result: Res)

  /** A published message: a request to the server loop of a client, or a reply to a client. */
  datatype Message = ToServer(id: Id, request: Request) | ToClient(addr: Addr, reply: Reply)

  /** The publish/subscribe bus: records every published message in order. */
  class Bus {
    var published: seq<Message>

    constructor ()
      ensures published == []
    {
      published := [];
    }

    method Publish(m: Message)
      modifies this
      ensures published == old(published) + [m]
    {
      published := published + [m];
    }
  }

  // ---------------------------------------------------------------------
  // Client session

  /**
   * Receives replies from `source` in order until one carries `seqNum`;
   * every reply with another seq is discarded. `taken` counts the replies
   * consumed. `None` means the stream ended with no matching reply.
   */
  method AwaitReply(source: seq<Reply>, seqNum: u32) returns (result: Option<Res>, taken: nat)
    ensures taken <= |source|
    ensures result.None? ==>
              taken == |source| && forall k :: 0 <= k < |source| ==> source[k].seqNum != seqNum
    ensures result.Some? ==>
              0 < taken && source[taken - 1] == Reply(seqNum, result.value) &&
              forall k :: 0 <= k < taken - 1 ==> source[k].seqNum != seqNum
  {
    taken := 0;
    while taken < |source|
      invariant taken <= |source|
      invariant forall k :: 0 <= k < taken ==> source[k].seqNum != seqNum
    {
      var reply := source[taken];
      taken := taken + 1;
      if reply.seqNum != seqNum {
        continue;
      }
      return Some(reply.result), taken;
    }
    result := None;
  }

  /** One client session: its current seq and the replies still to be received. */
  class ServeTask {
    var seqNum: u32
    var source: seq<Reply>
    const id: Id
    const addr: Addr

    constructor (source: seq<Reply>, id: Id, addr: Addr)
      ensures seqNum == 0 && this.source == source && this.id == id && this.addr == addr
    {
      seqNum := 0;
      this.source := source;
      this.id := id;
      this.addr := addr;
    }

    /**
     * Invokes `op`: advances the seq by one, publishes one request carrying
     * the new seq, and returns the result of the first received reply with
     * that seq, discarding the replies before it.
     */
    method Handle(op: Op, bus: Bus) returns (result: Option<Res>)
      requires seqNum < U32Max
      modifies this, bus
      ensures seqNum == old(seqNum) + 1
      ensures bus.published == old(bus.published) + [ToServer(id, Request(seqNum, op, addr))]
      ensures result.None? ==>
                source == [] && forall k :: 0 <= k < |old(source)| ==> old(source)[k].seqNum != seqNum
      ensures result.Some? ==>
                exists k :: 0 <= k < |old(source)| && old(source)[k] == Reply(seqNum, result.value) &&
                            source == old(source)[k + 1..] &&
                            forall j :: 0 <= j < k ==> old(source)[j].seqNum != seqNum
    {
      seqNum := seqNum + 1;
      var request := Request(seqNum, op, addr);
      bus.Publish(ToServer(id, request));
      var taken;
      result, taken := AwaitReply(source, seqNum);
      source := source[taken..];
    }
  }

  // ---------------------------------------------------------------------
  // Server: one loop per client, with one saved reply.

  /**
   * What one client's server loop has done so far: its saved reply, the
   * operations the application has executed, and the published messages.
   */
  datatype Server = Server(saved: Option<Reply>, executed: seq<Op>, published: seq<Message>)

  /** A request older than the saved reply: dropped. */
  predicate IsStale(saved: Option<Reply>, request: Request) {
    saved.Some? && request.seqNum < saved.value.seqNum
  }

  /** A request with the saved reply's seq: the saved reply is published again. */
  predicate IsRetransmission(saved: Option<Reply>, request: Request) {
    saved.Some? && request.seqNum == saved.value.seqNum
  }

  /** The saved reply `b` is at least as recent as `a`. */
  predicate NoLater(a: Option<Reply>, b: Option<Reply>) {
    a.None? || (b.Some? && a.value.seqNum <= b.value.seqNum)
  }

  /**
   * One iteration of the loop, given the application semantics `run`. A
   * stale request changes nothing. Every other request, including one equal
   * to the saved seq, is executed and its new reply saved and published; an
   * equal one first has the old saved reply published again.
   */
  function Step(run: (seq<Op>, Op) -> Res, s: Server, request: Request): (t: Server)
    ensures IsStale(s.saved, request) ==> t == s
    ensures !IsStale(s.saved, request) ==>
              t.executed == s.executed + [request.op] &&
              t.saved.Some? && t.saved.value.seqNum == request.seqNum &&
              t.saved.value.result == run(s.executed, request.op)
    ensures !IsStale(s.saved, request) ==>
              s.published < t.published &&
              |t.published| == |s.published| + (if IsRetransmission(s.saved, request) then 2 else 1) &&
              t.published[|t.published| - 1] == ToClient(request.clientAddr, t.saved.value)
    ensures IsRetransmission(s.saved, request) ==>
              t.published[|s.published|] == ToClient(request.clientAddr, s.saved.value)
    ensures NoLater(s.saved, t.saved)
  {
    if IsStale(s.saved, request) then s
    else
      var echo := if IsRetransmission(s.saved, request) then [ToClient(request.clientAddr, s.saved.value)] else [];
      var reply := Reply(request.seqNum, run(s.executed, request.op));
      Server(Some(reply), s.executed + [request.op], s.published + echo + [ToClient(request.clientAddr, reply)])
  }

  /** The loop over a stream of requests, from state `s`. */
  function Run(run: (seq<Op>, Op) -> Res, s: Server, requests: seq<Request>): Server
    decreases |requests|
  {
    if requests == [] then s
    else Step(run, Run(run, s, requests[..|requests| - 1]), requests[|requests| - 1])
  }

  /**
   * The per-client request loop of the server, with `saved_reply` starting
   * empty. The loop body does not skip execution after re-publishing the
   * saved reply for an equal seq.
   */
  method ServeClient(requests: seq<Request>, app: App, bus: Bus) returns (saved: Option<Reply>)
    modifies app, bus
    ensures Server(saved, app.executed, bus.published) ==
            Run(app.run, Server(None, old(app.executed), old(bus.published)), requests)
  {
    ghost var start := Server(None, app.executed, bus.published);
    saved := None;
    var i := 0;
    while i < |requests|
      invariant i <= |requests|
      invariant Server(saved, app.executed, bus.published) == Run(app.run, start, requests[..i])
    {
      var request := requests[i];
      assert requests[..i + 1][..i] == requests[..i];
      i := i + 1;
      if saved.Some? {
        if request.seqNum < saved.value.seqNum {
          continue;
        }
        if request.seqNum == saved.value.seqNum {
          bus.Publish(ToClient(request.clientAddr, saved.value));
        }
      }
      var result := app.Execute(request.op);
      var reply := Reply(request.seqNum, result);
      saved := Some(reply);
      bus.Publish(ToClient(request.clientAddr, reply));
    }
    assert requests[..i] == requests;
  }

  // ---------------------------------------------------------------------
  // Properties of the loop

  /** The saved reply never moves back: after more requests it is at least as recent. */
  lemma {:induction false} SavedNeverDecreases(run: (seq<Op>, Op) -> Res, s: Server, requests: seq<Request>, i: nat, j: nat)
    requires i <= j <= |requests|
    ensures NoLater(Run(run, s, requests[..i]).saved, Run(run, s, requests[..j]).saved)
    decreases j
  {
    if i < j {
      SavedNeverDecreases(run, s, requests, i, j - 1);
      assert requests[..j][..j - 1] == requests[..j - 1];
      var mid := Run(run, s, requests[..j - 1]);
      assert Run(run, s, requests[..j]) == Step(run, mid, requests[j - 1]);
    }
  }

  /**
   * Once a reply numbered n has been saved, every later request numbered
   * below n is dropped: it is not executed, nothing is published and the
   * saved reply stays.
   */
  lemma StaleAfterSaved(run: (seq<Op>, Op) -> Res, s: Server, requests: seq<Request>, i: nat, j: nat)
    requires i <= j < |requests|
    requires Run(run, s, requests[..i]).saved.Some?
    requires requests[j].seqNum < Run(run, s, requests[..i]).saved.value.seqNum
    ensures Run(run, s, requests[..j + 1]) == Run(run, s, requests[..j])
  {
    SavedNeverDecreases(run, s, requests, i, j);
    assert requests[..j + 1][..j] == requests[..j];
  }

  /** The first request of a client is always executed, and its reply saved and published. */
  lemma FirstRequestExecuted(run: (seq<Op>, Op) -> Res, executed: seq<Op>, published: seq<Message>, request: Request)
    ensures Run(run, Server(None, executed, published), [request]) ==
            Server(Some(Reply(request.seqNum, run(executed, request.op))),
                   executed + [request.op],
                   published + [ToClient(request.clientAddr, Reply(request.seqNum, run(executed, request.op)))])
  {
  }

  /** The operations of `requests`, in order. */
  function Ops(requests: seq<Request>): (ops: seq<Op>)
    ensures |ops| == |requests| && forall k :: 0 <= k < |requests| ==> ops[k] == requests[k].op
  {
    seq(|requests|, k requires 0 <= k < |requests| => requests[k].op)
  }

  /**
   * A client that never retransmits (strictly increasing seqs) has every
   * request executed exactly once, in order, and the saved reply is that of
   * its latest request.
   */
  lemma {:induction false} IncreasingRequestsExecutedOnce(run: (seq<Op>, Op) -> Res, executed: seq<Op>, published: seq<Message>, requests: seq<Request>)
    requires forall i, j :: 0 <= i < j < |requests| ==> requests[i].seqNum < requests[j].seqNum
    ensures Run(run, Server(None, executed, published), requests).executed == executed + Ops(requests)
    ensures requests != [] ==>
              Run(run, Server(None, executed, published), requests).saved.Some? &&
              Run(run, Server(None, executed, published), requests).saved.value.seqNum == requests[|requests| - 1].seqNum
    decreases |requests|
  {
    if requests != [] {
      var front := requests[..|requests| - 1];
      IncreasingRequestsExecutedOnce(run, executed, published, front);
      var mid := Run(run, Server(None, executed, published), front);
      var last := requests[|requests| - 1];
      assert !IsStale(mid.saved, last) && !IsRetransmission(mid.saved, last) by {
        if front != [] {
          assert front[|front| - 1] == requests[|requests| - 2];
        }
      }
      assert Ops(front) + [last.op] == Ops(requests);
    }
  }

  /**
   * A retransmission of the request whose reply is saved is executed a
   * second time: the operation appears twice in the application's log, and
   * the client receives the saved reply followed by the result of the second
   * execution. Execution is therefore not at most once for equal seqs.
   */
  lemma RetransmissionExecutesAgain(run: (seq<Op>, Op) -> Res, request: Request)
    ensures var first := Reply(request.seqNum, run([], request.op));
            var second := Reply(request.seqNum, run([request.op], request.op));
            Run(run, Server(None, [], []), [request, request]) ==
            Server(Some(second), [request.op, request.op],
                   [ToClient(request.clientAddr, first), ToClient(request.clientAddr, first),
                    ToClient(request.clientAddr, second)])
  {
    var first := Reply(request.seqNum, run([], request.op));
    FirstRequestExecuted(run, [], [], request);
    assert [request, request][..1] == [request];
    var once := Run(run, Server(None, [], []), [request]);
    assert once == Server(Some(first), [request.op], [ToClient(request.clientAddr, first)]);
    assert IsRetransmission(once.saved, request);
  }
}
