/** The client/server messages of the primary-backup service. */
module PbMessages {
  import opened Base

  /** A client's numbered operation, as received by a replica. */
  datatype Request = Request(id: Id, seqNum: u32, op: Op, clientAddr: Addr)

  /** The outcome of a numbered request, as sent back to the client. */
  datatype Reply = Reply(seqNum: u32, result: Res)
}
