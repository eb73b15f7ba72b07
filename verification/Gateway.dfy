/** What the gateway's stream decoders share: the response limit, how a body can end, and how a
    decoder can. */
module Gateway {
  const MAX_RESPONSE_BYTES: nat := 4 * 1024 * 1024

  /** How the response body ended after the chunks that arrived. */
  datatype End = Eof | Broken | Aborted

  datatype Outcome = Done | Permanent | Transient | Cancelled
}
