/** The messages, inputs and outputs the durable-state engine moves around. */
module Messages {
  import opened Prelude

  datatype MsgKind =
    | DATA
    | CTRL_FLUSH_ORDER
    | CTRL_FLUSH_ACK
    | CTRL_UPSTREAM_EOF
    | CTRL_EOF_RECEIVED
    | CTRL_PROCESSED_ANSWER
    | Q3_AVERAGES
    | Q3_CANDIDATES
    | ABORT

  /** What identifies an input for deduplication. */
  datatype Key = Key(client: nat, kind: MsgKind, sender: nat, seqNo: nat)

  /** A packet body. `Basic` carries no address; `Addressed` lets the consumer deduplicate on
      (client, kind, sender, seq). */
  datatype Packet =
    | Basic(msgType: nat, client: nat, payload: Bytes)
    | Addressed(msgType: nat, client: nat, sender: nat, seqNo: nat, payload: Bytes)

  /** One stamped output, ready to publish. */
  datatype Entry = Entry(outputId: string, inputId: string, destination: string,
                         body: Packet, shard: Option<nat>)
}
