/**
 The idempotent reply: one durable attempt row per (organisation, client request), any number of
 calls on any number of replicas, and a channel that may lose its answer.

 A `World` is what all replicas share for one request, plus the calls in flight. Each await of the
 source is one step. A store write either takes effect or fails towards the caller; a failed write
 is kept in `limbo` and may still take effect at any later time, or never.
 */
module ReplyProtocol {
  import opened Wrappers
  import opened ReplyRecovery

  // ----- the durable row

  datatype Status = Pending | Accepted | Sent | Failed | Rejected

  datatype Receipt = Receipt(accepted: bool, rpcId: string, messageIds: seq<string>)

  datatype Attempt = Attempt(
    thread: string,
    status: Status,
    eventId: Option<string>,
    messageIds: Option<seq<string>>,
    recovery: Option<Digest>,
    receipt: Option<Receipt>)
  {
    predicate HasEvidence() {
      eventId.Some? || receipt.Some? || messageIds.Some?
    }
  }

  datatype Write =
    | Claim(thread: string, hash: Digest)
    | Put(thread: string, status: Status, eventId: Option<string>, messageIds: Option<seq<string>>,
          recovery: Option<Digest>, receipt: Option<Receipt>)

  /** A claim takes a new row, or a rejected row of the same thread without delivery evidence. */
  predicate Claimable(row: Option<Attempt>, thread: string) {
    row.None? ||
    (row.value.status == Rejected && row.value.thread == thread && !row.value.HasEvidence())
  }

  function ApplyWrite(row: Option<Attempt>, write: Write): Option<Attempt> {
    match write
    case Claim(thread, hash) =>
      if !Claimable(row, thread) then row
      else Some(Attempt(thread, Pending, None, None, Some(hash), None))
    case Put(thread, status, eventId, messageIds, recovery, receipt) =>
      Some(Attempt(thread, status, eventId, messageIds,
                   Coalesce(recovery, if row.Some? then row.value.recovery else None),
                   Coalesce(receipt, if row.Some? then row.value.receipt else None)))
  }

  function Coalesce<T>(a: Option<T>, b: Option<T>): Option<T> {
    if a.Some? then a else b
  }

  // ----- what a call sends and stores

  datatype Attachment = Attachment(filename: string, mediaType: string, bytes: seq<Byte>)

  datatype Draft = Draft(
    requestId: string, org: string, connector: string, thread: string, source: string, target: string,
    text: string, attachments: seq<Attachment>, parent: Option<string>, surface: string, now: string)

  function AttachmentPart(a: Attachment): Value {
    Object([Field("role", Text("attachment")), Field("media_type", Text(a.mediaType)),
            Field("source_filename", Text(a.filename)), Field(BYTES_KEY, Binary(a.bytes))])
  }

  function TextPart(role: string, mediaType: string, text: string): Value {
    Object([Field("role", Text(role)), Field("media_type", Text(mediaType)), Field("text", Text(text))])
  }

  function ReplyRecord(d: Draft, externalId: string): Value {
    var body := if |d.text| > 0 then [TextPart("body", "text/markdown", d.text)] else [];
    var files := seq(|d.attachments|, i requires 0 <= i < |d.attachments| => AttachmentPart(d.attachments[i]));
    var parent := if d.parent.Some? then [Field("parent_external_id", Text(d.parent.value))] else [];
    Object([Field("operation", Text("create")), Field("source", Text(d.source)),
            Field("external_id", Text(externalId)), Field("occurred_at", Text(d.now)),
            Field("content", Items(body + files + [TextPart("metadata", "surface", d.surface)]))] + parent)
  }

  /** The ingest batch of a reply whose record carries `externalId`. */
  function ReplyBatch(d: Draft, externalId: string): Value {
    Object([Field("connector_id", Text(d.connector)), Field("org_id", Text(d.org)),
            Field("delivery_id", Text("reply:" + d.requestId)), Field("received_at", Text(d.now)),
            Field("records", Items([ReplyRecord(d, externalId)]))])
  }

  function ProvisionalId(d: Draft): string { "reply:" + d.requestId }

  /** The driver's name for the sent message: a function of the thread and the receipt. */
  function OutboundId(d: Draft, receipt: Receipt): string { d.target + ":out:" + receipt.rpcId }

  function DeliveredBatch(d: Draft, receipt: Receipt): Value {
    ReplyBatch(d, OutboundId(d, receipt))
  }

  // ----- calls in flight

  datatype Outcome =
    | Replied
    | InvalidReply | SendUncertain | RecoveryUnavailable | SendInProgress
    | RejectionPending | RecoveryPending | SendFailed | Crashed

  datatype Call =
    | Looking(thread: string)                              // first look at a prior attempt
    | Preparing(thread: string)                            // checks, compose, save the recovery payload
    | Claiming(draft: Draft)
    | LookingAgain(thread: string)                         // the claim was refused
    | Sending(draft: Draft)
    | Rejecting(draft: Draft)
    | Naming(draft: Draft, receipt: Receipt)               // delivered; rename and save the payload again
    | Accepting(draft: Draft, receipt: Receipt)
    | Loading(thread: string, hash: Digest, receipt: Receipt)
    // `sender` marks the call that sent, as opposed to a later one that only finishes the storing
    | Ingesting(thread: string, batch: Value, receipt: Receipt, sender: bool)
    | Aliasing(thread: string, receipt: Receipt, eventId: string, sender: bool)
    | Marking(thread: string, receipt: Receipt, eventId: string, sender: bool)
    | Showing(sender: bool)                                 // last: read the stored item back
    | Over(outcome: Outcome)

  datatype World = World(
    row: Option<Attempt>,
    blobs: map<Digest, Value>,
    limbo: seq<Write>,
    calls: seq<Call>,
    delivered: seq<Draft>,
    ingested: seq<Value>)

  datatype SendAnswer =
    | Took(receipt: Receipt)              // the channel answered with a receipt
    | NotAccepted                         // a definite rejection: no part was accepted or queued
    | Unknown                             // any other failure, or none at all

  datatype Action =
    | Arrive(thread: string)
    | Advance(call: nat)                              // the awaited operation succeeds
    | Prepare(call: nat, draft: Draft)                // Preparing succeeds with this draft
    | Answer(call: nat, answer: SendAnswer, reached: bool)
    | Ingest(call: nat, eventId: string)
    | Fail(call: nat)                                 // the awaited operation throws
    | Crash(call: nat)
    | Land(write: nat)                                // a write that failed towards its caller takes effect

  const INIT := World(None, map[], [], [], [], [])

  function Become(w: World, i: nat, c: Call): World
    requires i < |w.calls|
  {
    w.(calls := w.calls[i := c])
  }

  /** What the first or second look at the stored attempt decides. */
  function LookUp(row: Option<Attempt>, thread: string, absent: Call): Call {
    if row.None? then absent
    else
      var prior := row.value;
      if thread != "" && prior.thread != thread then Over(InvalidReply)
      else match prior.status
        case Rejected => if prior.HasEvidence() then Over(RecoveryUnavailable) else absent
        case Failed => Over(SendUncertain)
        case Pending => Over(SendUncertain)
        case Accepted =>
          if prior.recovery.None? || prior.receipt.None? || !prior.receipt.value.accepted
          then Over(RecoveryUnavailable)
          else Loading(prior.thread, prior.recovery.value, prior.receipt.value)
        case Sent => if prior.eventId.None? then Over(RecoveryUnavailable) else Showing(false)
  }

  /** The store write a call is waiting for, if it is waiting for one. */
  function PendingWrite(c: Call): Option<Write> {
    match c
    case Claiming(d) => Some(Claim(d.thread, Digest(Save(ReplyBatch(d, ProvisionalId(d))))))
    case Rejecting(d) =>
      Some(Put(d.thread, Rejected, None, None, Some(Digest(Save(ReplyBatch(d, ProvisionalId(d))))), None))
    case Accepting(d, r) =>
      Some(Put(d.thread, Accepted, None, Some(r.messageIds), Some(Digest(Save(DeliveredBatch(d, r)))), Some(r)))
    case Marking(thread, r, eventId, _) => Some(Put(thread, Sent, Some(eventId), Some(r.messageIds), None, None))
    case _ => None
  }

  /** What the caller is told when the awaited operation throws. */
  function FailureOutcome(c: Call): Outcome {
    match c
    case Sending(_) => SendUncertain
    case Rejecting(_) => RejectionPending
    case Naming(_, _) => RecoveryPending
    case Accepting(_, _) => RecoveryPending
    case Ingesting(_, _, _, sender) => if sender then RecoveryPending else SendFailed
    case Aliasing(_, _, _, sender) => if sender then RecoveryPending else SendFailed
    case Marking(_, _, _, sender) => if sender then RecoveryPending else SendFailed
    case Showing(sender) => if sender then RecoveryPending else SendFailed
    case _ => SendFailed
  }

  function SaveBlob(blobs: map<Digest, Value>, batch: Value): map<Digest, Value> {
    blobs[Digest(Save(batch)) := Save(batch)]
  }

  function AdvanceCall(w: World, i: nat): World
    requires i < |w.calls|
  {
    match w.calls[i]
    case Looking(thread) => Become(w, i, LookUp(w.row, thread, Preparing(thread)))
    case LookingAgain(thread) => Become(w, i, LookUp(w.row, thread, Over(SendInProgress)))
    case Claiming(d) =>
      if Claimable(w.row, d.thread)
      then Become(w.(row := ApplyWrite(w.row, PendingWrite(w.calls[i]).value)), i, Sending(d))
      else Become(w, i, LookingAgain(d.thread))
    case Rejecting(d) => Become(w.(row := ApplyWrite(w.row, PendingWrite(w.calls[i]).value)), i, Over(SendFailed))
    case Naming(d, r) => Become(w.(blobs := SaveBlob(w.blobs, DeliveredBatch(d, r))), i, Accepting(d, r))
    case Accepting(d, r) =>
      Become(w.(row := ApplyWrite(w.row, PendingWrite(w.calls[i]).value)), i, Ingesting(d.thread, DeliveredBatch(d, r), r, true))
    case Loading(thread, hash, r) =>
      if hash in w.blobs && Digest(w.blobs[hash]) == hash
      then Become(w, i, Ingesting(thread, Revive(w.blobs[hash]), r, false))
      else Become(w, i, Over(SendFailed))
    case Aliasing(thread, r, eventId, sender) => Become(w, i, Marking(thread, r, eventId, sender))
    case Marking(_, _, _, sender) =>
      Become(w.(row := ApplyWrite(w.row, PendingWrite(w.calls[i]).value)), i, Showing(sender))
    case Showing(_) => Become(w, i, Over(Replied))
    case _ => w
  }

  /** The channel's answer. `reached` says whether a send without a receipt was delivered all the same. */
  function AnswerCall(w: World, i: nat, answer: SendAnswer, reached: bool): World
    requires i < |w.calls| && w.calls[i].Sending?
  {
    var d := w.calls[i].draft;
    match answer
    case NotAccepted => Become(w, i, Rejecting(d))
    case Took(r) =>
      if r.accepted then Become(w.(delivered := w.delivered + [d]), i, Naming(d, r))
      else Become(w.(delivered := w.delivered + if reached then [d] else []), i, Over(SendUncertain))
    case Unknown => Become(w.(delivered := w.delivered + if reached then [d] else []), i, Over(SendUncertain))
  }

  /** A call that ends in the middle leaves its unanswered write behind. */
  function Abandon(w: World, i: nat, outcome: Outcome): World
    requires i < |w.calls|
  {
    var write := PendingWrite(w.calls[i]);
    Become(w.(limbo := if write.Some? then w.limbo + [write.value] else w.limbo), i, Over(outcome))
  }

  function Next(w: World, a: Action): World {
    match a
    case Arrive(thread) => w.(calls := w.calls + [Looking(thread)])
    case Advance(i) => if i < |w.calls| then AdvanceCall(w, i) else w
    case Prepare(i, d) =>
      if i < |w.calls| && w.calls[i].Preparing? && d.thread == w.calls[i].thread && d.thread != ""
      then Become(w.(blobs := SaveBlob(w.blobs, ReplyBatch(d, ProvisionalId(d)))), i, Claiming(d))
      else w
    case Answer(i, answer, reached) =>
      if i < |w.calls| && w.calls[i].Sending? then AnswerCall(w, i, answer, reached) else w
    case Ingest(i, eventId) =>
      if i < |w.calls| && w.calls[i].Ingesting?
      then Become(w.(ingested := w.ingested + [w.calls[i].batch]), i,
                  Aliasing(w.calls[i].thread, w.calls[i].receipt, eventId, w.calls[i].sender))
      else w
    // A send that throws or dies goes through `Answer`, which also says whether it was delivered.
    case Fail(i) =>
      if i < |w.calls| && !w.calls[i].Sending? && !w.calls[i].Over?
      then Abandon(w, i, FailureOutcome(w.calls[i])) else w
    case Crash(i) =>
      if i < |w.calls| && !w.calls[i].Sending? && !w.calls[i].Over? then Abandon(w, i, Crashed) else w
    case Land(k) =>
      if k < |w.limbo|
      then w.(row := ApplyWrite(w.row, w.limbo[k]), limbo := w.limbo[..k] + w.limbo[k + 1..])
      else w
  }

  function Run(w: World, actions: seq<Action>): World
    decreases |actions|
  {
    if actions == [] then w else Run(Next(w, actions[0]), actions[1..])
  }
}
