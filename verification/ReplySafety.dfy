/** What every run of the reply protocol keeps. */
module ReplySafety {
  import opened Wrappers
  import opened ReplyRecovery
  import opened ReplyProtocol

  /** Calls that hold the claim: between a successful claim and the write that gives it up. */
  predicate Owns(c: Call) {
    c.Sending? || c.Rejecting? || c.Naming? || c.Accepting?
  }

  /** A lost write that would still give the claim up. */
  predicate Releases(write: Write) {
    write.Put? && (write.status == Rejected || write.status == Accepted)
  }

  predicate Claimed(w: World, thread: string) {
    w.row.Some? && w.row.value.status == Pending && w.row.value.thread == thread
  }

  predicate Settled(w: World) {
    && w.row.Some?
    && (w.row.value.status == Accepted || w.row.value.status == Sent)
    && (w.row.value.status == Sent ==> w.row.value.eventId.Some?)
  }

  /** The reply is stored: the attempt is marked sent, and the delivered batch was ingested. */
  predicate Stored(w: World) {
    Settled(w) && w.row.value.status == Sent && w.ingested != []
  }

  /** The row of an accepted attempt names the payload of the one delivered message. */
  ghost predicate Backed(w: World, receipt: Option<Receipt>, recovery: Option<Digest>) {
    && |w.delivered| == 1
    && receipt.Some? && receipt.value.accepted
    && recovery == Some(Digest(Save(DeliveredBatch(w.delivered[0], receipt.value))))
    && recovery.value in w.blobs
  }

  /** `batch` is the payload of the one delivered message. */
  ghost predicate IsDelivered(w: World, batch: Value) {
    && Settled(w) && w.row.value.receipt.Some?
    && |w.delivered| == 1 && batch == DeliveredBatch(w.delivered[0], w.row.value.receipt.value)
  }

  ghost predicate RowOk(w: World) {
    match w.row
    case None => w.delivered == []
    case Some(row) =>
      match row.status
      case Rejected => w.delivered == [] && !row.HasEvidence()
      case Pending => |w.delivered| <= 1 && !row.HasEvidence()
      case Failed => false
      case _ =>
        && Settled(w) && Backed(w, row.receipt, row.recovery) && w.delivered[0].thread == row.thread
        && (row.status == Sent ==> w.ingested != [])
  }

  ghost predicate CallOk(w: World, c: Call) {
    match c
    case Sending(d) => Claimed(w, d.thread) && w.delivered == []
    case Rejecting(d) => Claimed(w, d.thread) && w.delivered == []
    case Naming(d, r) => Claimed(w, d.thread) && w.delivered == [d] && r.accepted
    case Accepting(d, r) =>
      && Claimed(w, d.thread) && w.delivered == [d] && r.accepted
      && Digest(Save(DeliveredBatch(d, r))) in w.blobs
    case Loading(thread, hash, r) =>
      Settled(w) && w.row.value.thread == thread && w.row.value.recovery == Some(hash) && w.row.value.receipt == Some(r)
    case Ingesting(thread, batch, r, _) =>
      IsDelivered(w, batch) && w.row.value.thread == thread && w.row.value.receipt == Some(r)
    case Aliasing(thread, r, _, _) => Settled(w) && w.ingested != [] && w.row.value.thread == thread && w.row.value.receipt == Some(r)
    case Marking(thread, r, _, _) => Settled(w) && w.ingested != [] && w.row.value.thread == thread && w.row.value.receipt == Some(r)
    case Showing(_) => Stored(w)
    case Over(outcome) => outcome == Replied ==> Stored(w)
    case _ => true
  }

  ghost predicate WriteOk(w: World, write: Write) {
    match write
    case Claim(_, _) => true
    case Put(thread, Rejected, eventId, ids, _, receipt) =>
      Claimed(w, thread) && w.delivered == [] && eventId.None? && ids.None? && receipt.None?
    case Put(thread, Accepted, eventId, _, recovery, receipt) =>
      Claimed(w, thread) && Backed(w, receipt, recovery) && w.delivered[0].thread == thread
    case Put(thread, Sent, eventId, _, recovery, receipt) =>
      Settled(w) && w.ingested != [] && w.row.value.thread == thread && eventId.Some? && recovery.None? && receipt.None?
    case _ => false
  }

  /** At most one call or lost write holds the claim. */
  ghost predicate OneOwner(w: World) {
    && (forall i, j :: 0 <= i < |w.calls| && 0 <= j < |w.calls| && Owns(w.calls[i]) && Owns(w.calls[j]) ==> i == j)
    && (forall k, l :: 0 <= k < |w.limbo| && 0 <= l < |w.limbo| && Releases(w.limbo[k]) && Releases(w.limbo[l]) ==> k == l)
    && (forall i, k :: 0 <= i < |w.calls| && 0 <= k < |w.limbo| ==> !(Owns(w.calls[i]) && Releases(w.limbo[k])))
  }

  ghost predicate Inv(w: World) {
    && RowOk(w)
    && OneOwner(w)
    && (forall i :: 0 <= i < |w.calls| ==> CallOk(w, w.calls[i]))
    && (forall k :: 0 <= k < |w.limbo| ==> WriteOk(w, w.limbo[k]))
    && (forall g :: g in w.blobs ==> Digest(w.blobs[g]) == g)
    && (forall m :: 0 <= m < |w.ingested| ==> IsDelivered(w, w.ingested[m]))
  }

  lemma PartShapes(role: string, mediaType: string, text: string, a: Attachment)
    ensures PartShaped(TextPart(role, mediaType, text)) && MarkerFree(TextPart(role, mediaType, text))
    ensures PartShaped(AttachmentPart(a)) && MarkerFree(AttachmentPart(a))
  {
    assert |"text"| != |BYTES_KEY| && |"role"| != |BYTES_KEY|;
    assert |"media_type"| != |BYTES_KEY| && |"source_filename"| != |BYTES_KEY|;
  }

  lemma ReplyRecordShape(d: Draft, externalId: string)
    ensures RecordShaped(ReplyRecord(d, externalId)) && MarkerFree(ReplyRecord(d, externalId))
  {
    hide TextPart, AttachmentPart, PartShaped;
    var record := ReplyRecord(d, externalId);
    var content := record.fields[4].value;
    forall j | 0 <= j < |content.items|
      ensures PartShaped(content.items[j]) && MarkerFree(content.items[j])
    {
      if j == |content.items| - 1 {
        PartShapes("metadata", "surface", d.surface, Attachment("", "", []));
      } else if j == 0 && |d.text| > 0 {
        PartShapes("body", "text/markdown", d.text, Attachment("", "", []));
      } else {
        PartShapes("", "", "", d.attachments[if |d.text| > 0 then j - 1 else j]);
      }
    }
  }

  /** Reply batches are marker-free, so their recovery payload always reads back. */
  lemma ReplyBatchRoundTrip(d: Draft, externalId: string)
    ensures Revive(Save(ReplyBatch(d, externalId))) == ReplyBatch(d, externalId)
  {
    hide ReplyRecord, Save, Revive;
    var batch := ReplyBatch(d, externalId);
    var record := ReplyRecord(d, externalId);
    ReplyRecordShape(d, externalId);
    assert batch.fields[4].value.items[0] == record;
    assert BatchShaped(batch) && MarkerFree(batch.fields[4].value);
    RoundTrip(batch);
  }

  lemma InvInit()
    ensures Inv(INIT)
  {
  }

  lemma InvNext(w: World, a: Action)
    requires Inv(w)
    ensures Inv(Next(w, a))
  {
    hide *;
    match a
    case Arrive(thread) => InvArrive(w, thread);
    case Advance(i) => InvAdvance(w, i);
    case Prepare(i, d) => InvPrepare(w, i, d);
    case Answer(i, answer, reached) => InvAnswer(w, i, answer, reached);
    case Ingest(i, eventId) => InvIngest(w, i, eventId);
    case Fail(i) => InvEnd(w, i);
    case Crash(i) => InvEnd(w, i);
    case Land(k) => InvLand(w, k);
  }

  lemma InvArrive(w: World, thread: string)
    requires Inv(w)
    ensures Inv(Next(w, Arrive(thread)))
  {
    hide ReplyBatch, Save;
  }

  lemma InvEnd(w: World, i: nat)
    requires Inv(w)
    ensures Inv(Next(w, Fail(i))) && Inv(Next(w, Crash(i)))
  {
    hide Inv, ReplyBatch, Save, PendingWrite;
    if i < |w.calls| {
      InvAbandon(w, i, FailureOutcome(w.calls[i]));
      InvAbandon(w, i, Crashed);
    }
  }

  lemma InvAdvance(w: World, i: nat)
    requires Inv(w)
    ensures Inv(Next(w, Advance(i)))
  {
    hide ReplyBatch, Save, ApplyWrite, OneOwner;
    if i < |w.calls| {
      match w.calls[i]
      case Claiming(_) => InvClaim(w, i);
      case Rejecting(_) => InvReject(w, i);
      case Naming(_, _) => InvName(w, i);
      case Accepting(_, _) => InvAccept(w, i);
      case Marking(_, _, _, _) => InvMark(w, i);
      case Loading(_, _, _) => InvLoad(w, i);
      case Looking(thread) => InvBecome(w, i, LookUp(w.row, thread, Preparing(thread)));
      case LookingAgain(thread) => InvBecome(w, i, LookUp(w.row, thread, Over(SendInProgress)));
      case Aliasing(thread, r, eventId, sender) => InvBecome(w, i, Marking(thread, r, eventId, sender));
      case Showing(_) => InvBecome(w, i, Over(Replied));
      case _ =>
    }
  }

  /** A call may move on without touching shared state. */
  lemma InvBecome(w: World, i: nat, c: Call)
    requires Inv(w) && i < |w.calls| && CallOk(w, c)
    requires Owns(c) ==> Owns(w.calls[i])
    ensures Inv(Become(w, i, c))
  {
    hide ReplyBatch, Save;
  }

  lemma InvSaveBlob(w: World, batch: Value)
    requires Inv(w)
    ensures Inv(w.(blobs := SaveBlob(w.blobs, batch)))
  {
    hide ReplyBatch, Save;
  }

  lemma InvPrepare(w: World, i: nat, d: Draft)
    requires Inv(w)
    ensures Inv(Next(w, Prepare(i, d)))
  {
    hide ReplyBatch, Save;
    if Next(w, Prepare(i, d)) != w {
      InvSaveBlob(w, ReplyBatch(d, ProvisionalId(d)));
      InvBecome(w.(blobs := SaveBlob(w.blobs, ReplyBatch(d, ProvisionalId(d)))), i, Claiming(d));
    }
  }

  lemma InvAnswer(w: World, i: nat, answer: SendAnswer, reached: bool)
    requires Inv(w)
    ensures Inv(Next(w, Answer(i, answer, reached)))
  {
    hide ReplyBatch, Save;
  }

  lemma InvIngest(w: World, i: nat, eventId: string)
    requires Inv(w)
    ensures Inv(Next(w, Ingest(i, eventId)))
  {
    hide ReplyBatch, Save;
  }

  /** The write a call is waiting for is one the invariant allows, lost or not. */
  lemma PendingWriteOk(w: World, i: nat)
    requires Inv(w) && i < |w.calls| && PendingWrite(w.calls[i]).Some?
    ensures WriteOk(w, PendingWrite(w.calls[i]).value)
    ensures Releases(PendingWrite(w.calls[i]).value) ==> Owns(w.calls[i])
  {
    hide ReplyBatch, Save;
  }

  lemma InvAbandon(w: World, i: nat, outcome: Outcome)
    requires Inv(w) && i < |w.calls| && outcome != Replied
    ensures !w.calls[i].Sending? ==> Inv(Abandon(w, i, outcome))
  {
    hide ReplyBatch, Save;
    InvBecome(w, i, Over(outcome));
    if PendingWrite(w.calls[i]).Some? {
      PendingWriteOk(w, i);
      var write := PendingWrite(w.calls[i]).value;
      InvLose(Become(w, i, Over(outcome)), write, w, i);
    }
  }

  lemma InvLose(after: World, write: Write, w: World, i: nat)
    requires Inv(w) && i < |w.calls| && WriteOk(w, write) && (Releases(write) ==> Owns(w.calls[i]))
    requires Inv(after) && |after.calls| == |w.calls| && after.calls[i].Over? && after == Become(w, i, after.calls[i])
    ensures Inv(after.(limbo := after.limbo + [write]))
  {
    hide ReplyBatch, Save, RowOk, CallOk, Owns, Releases, OneOwner;
    LoseOwner(after, write, w, i);
    assert WriteOk(after, write);
    LimboOk(after, write);
  }

  lemma LoseOwner(after: World, write: Write, w: World, i: nat)
    requires OneOwner(w) && i < |w.calls| && (Releases(write) ==> Owns(w.calls[i]))
    requires |after.calls| == |w.calls| && after.calls[i].Over? && after == Become(w, i, after.calls[i])
    ensures OneOwner(after.(limbo := after.limbo + [write]))
  {
    assert forall j :: 0 <= j < |after.calls| && Owns(after.calls[j]) ==> j != i && Owns(w.calls[j]);
  }

  lemma LimboOk(w: World, write: Write)
    requires Inv(w) && WriteOk(w, write) && OneOwner(w.(limbo := w.limbo + [write]))
    ensures Inv(w.(limbo := w.limbo + [write]))
  {
    hide ReplyBatch, Save, OneOwner;
  }

  lemma InvClaim(w: World, i: nat)
    requires Inv(w) && i < |w.calls| && w.calls[i].Claiming?
    ensures Inv(AdvanceCall(w, i))
  {
    hide ReplyBatch, Save;
  }

  lemma InvReject(w: World, i: nat)
    requires Inv(w) && i < |w.calls| && w.calls[i].Rejecting?
    ensures Inv(AdvanceCall(w, i))
  {
    hide ReplyBatch, Save;
  }

  lemma InvName(w: World, i: nat)
    requires Inv(w) && i < |w.calls| && w.calls[i].Naming?
    ensures Inv(AdvanceCall(w, i))
  {
    hide ReplyBatch, Save;
  }

  lemma InvAccept(w: World, i: nat)
    requires Inv(w) && i < |w.calls| && w.calls[i].Accepting?
    ensures Inv(AdvanceCall(w, i))
  {
    hide ReplyBatch, Save;
  }

  lemma InvMark(w: World, i: nat)
    requires Inv(w) && i < |w.calls| && w.calls[i].Marking?
    ensures Inv(AdvanceCall(w, i))
  {
    hide ReplyBatch, Save;
  }

  lemma InvLoad(w: World, i: nat)
    requires Inv(w) && i < |w.calls| && w.calls[i].Loading?
    ensures Inv(AdvanceCall(w, i))
  {
    hide ReplyBatch, Save;
    ReplyBatchRoundTrip(w.delivered[0], OutboundId(w.delivered[0], w.calls[i].receipt));
  }

  lemma InvLand(w: World, k: nat)
    requires Inv(w)
    ensures Inv(Next(w, Land(k)))
  {
    hide ReplyBatch, Save;
    if k < |w.limbo| {
      match w.limbo[k]
      case Claim(_, _) =>
      case Put(_, _, _, _, _, _) =>
    }
  }

  // ----- every run

  lemma {:induction false} InvRun(w: World, actions: seq<Action>)
    requires Inv(w)
    ensures Inv(Run(w, actions))
    decreases |actions|
  {
    if actions != [] {
      InvNext(w, actions[0]);
      InvRun(Next(w, actions[0]), actions[1..]);
    }
  }

  /** Over every interleaving, crash and lost write, the channel delivers at most one message. */
  lemma AtMostOneDelivery(actions: seq<Action>)
    ensures |Run(INIT, actions).delivered| <= 1
  {
    InvInit();
    InvRun(INIT, actions);
  }

  /** A call about to send holds the only claim, and nothing was delivered before it. */
  lemma OnlyUndeliveredIsSent(actions: seq<Action>, i: nat)
    requires i < |Run(INIT, actions).calls| && Run(INIT, actions).calls[i].Sending?
    ensures var w := Run(INIT, actions);
            && w.delivered == [] && Claimed(w, w.calls[i].draft.thread)
            && forall j :: 0 <= j < |w.calls| && w.calls[j].Sending? ==> j == i
  {
    hide ReplyBatch, Save;
    InvInit();
    InvRun(INIT, actions);
  }

  /** Whatever else goes on, a caller is told "replied" only when the delivered message is stored and the attempt marked sent. */
  lemma RepliedMeansStored(actions: seq<Action>, i: nat)
    requires i < |Run(INIT, actions).calls| && Run(INIT, actions).calls[i] == Over(Replied)
    ensures var w := Run(INIT, actions);
            && |w.delivered| == 1 && w.row.Some? && w.row.value.status == Sent && w.row.value.receipt.Some?
            && DeliveredBatch(w.delivered[0], w.row.value.receipt.value) in w.ingested
  {
    hide ReplyBatch, Save;
    InvInit();
    InvRun(INIT, actions);
    var w := Run(INIT, actions);
    assert CallOk(w, w.calls[i]);
    assert IsDelivered(w, w.ingested[0]);
  }

  predicate MayFollow(before: Option<Attempt>, later: Option<Attempt>) {
    || later == before
    || (before.None? && later.Some? && later.value.status == Pending)
    || (before.Some? && later.Some? && before.value.thread == later.value.thread &&
        match before.value.status
        case Pending => later.value.status == Accepted || later.value.status == Rejected
        case Rejected => later.value.status == Pending
        case Accepted => later.value.status == Sent
        case Sent => later.value.status == Sent
        case Failed => false)
  }

  predicate KeepsPayload(before: Option<Attempt>, later: Option<Attempt>) {
    before.Some? && (before.value.status == Accepted || before.value.status == Sent) ==>
      && later.Some? && (later.value.status == Accepted || later.value.status == Sent)
      && later.value.receipt == before.value.receipt && later.value.recovery == before.value.recovery
  }

  lemma WriteMovesForward(w: World, write: Write)
    requires Inv(w) && WriteOk(w, write)
    ensures MayFollow(w.row, ApplyWrite(w.row, write)) && KeepsPayload(w.row, ApplyWrite(w.row, write))
  {
    hide ReplyBatch, Save;
  }

  lemma StepMovesForward(w: World, a: Action)
    requires Inv(w)
    ensures MayFollow(w.row, Next(w, a).row) && KeepsPayload(w.row, Next(w, a).row)
  {
    hide ReplyBatch, Save;
    match a
    case Advance(i) =>
      if i < |w.calls| && PendingWrite(w.calls[i]).Some? {
        PendingWriteOk(w, i);
        WriteMovesForward(w, PendingWrite(w.calls[i]).value);
      }
    case Land(k) => if k < |w.limbo| { WriteMovesForward(w, w.limbo[k]); }
    case _ =>
  }

  /**
   The stored status moves only pending -> accepted -> sent and pending -> rejected -> pending,
   and from accepted on the receipt and the recovery payload stay what they were.
   */
  lemma StatusOnlyMovesForward(actions: seq<Action>, a: Action)
    ensures var w := Run(INIT, actions);
            MayFollow(w.row, Next(w, a).row) && KeepsPayload(w.row, Next(w, a).row)
  {
    InvInit();
    InvRun(INIT, actions);
    StepMovesForward(Run(INIT, actions), a);
  }

  lemma {:induction false} RunAppend(w: World, first: seq<Action>, later: seq<Action>)
    ensures Run(w, first + later) == Run(Run(w, first), later)
    decreases |first|
  {
    if first == [] {
      assert first + later == later;
    } else {
      assert (first + later)[1..] == first[1..] + later;
      RunAppend(Next(w, first[0]), first[1..], later);
    }
  }

  lemma {:induction false} DeliveredOnlyGrows(w: World, actions: seq<Action>)
    ensures w.delivered <= Run(w, actions).delivered && w.ingested <= Run(w, actions).ingested
    decreases |actions|
  {
    hide ReplyBatch, Save, LookUp, ApplyWrite, PendingWrite, FailureOutcome;
    if actions != [] {
      DeliveredOnlyGrows(Next(w, actions[0]), actions[1..]);
    }
  }

  /**
   Once acceptance is durable, nothing that happens later sends again, and everything that is
   ever ingested is the batch of the one delivered message, with the id the channel gave it.
   */
  lemma AfterAcceptanceOnlyRecovery(actions: seq<Action>, later: seq<Action>)
    requires Settled(Run(INIT, actions))
    ensures var w := Run(INIT, actions); var w' := Run(INIT, actions + later);
            && |w.delivered| == 1 && w'.delivered == w.delivered
            && (forall i :: 0 <= i < |w'.calls| ==> !w'.calls[i].Sending?)
            && (forall m :: 0 <= m < |w'.ingested| ==> IsDelivered(w, w'.ingested[m]))
  {
    hide ReplyBatch, Save;
    var w := Run(INIT, actions);
    InvInit();
    InvRun(INIT, actions);
    RunAppend(INIT, actions, later);
    InvRun(w, later);
    DeliveredOnlyGrows(w, later);
    SettledStays(w, later);
  }

  lemma {:induction false} SettledStays(w: World, actions: seq<Action>)
    requires Inv(w) && Settled(w)
    ensures KeepsPayload(w.row, Run(w, actions).row)
    decreases |actions|
  {
    if actions != [] {
      InvNext(w, actions[0]);
      StepMovesForward(w, actions[0]);
      SettledStays(Next(w, actions[0]), actions[1..]);
    }
  }

  lemma RunSnoc(w: World, actions: seq<Action>, a: Action)
    ensures Run(w, actions + [a]) == Next(Run(w, actions), a)
  {
    RunAppend(w, actions, [a]);
    assert [a][1..] == [];
  }

  function FieldOf(v: Value, key: string): Option<Value> {
    if v.Object? then Lookup(v.fields, key) else None
  }

  /** The one record of a reply batch. */
  function RecordOf(batch: Value): Option<Value> {
    match FieldOf(batch, "records")
    case Some(Items(items)) => if |items| == 1 then Some(items[0]) else None
    case _ => None
  }

  lemma BatchNames(d: Draft, externalId: string)
    ensures var batch := ReplyBatch(d, externalId);
            && RecordOf(batch) == Some(ReplyRecord(d, externalId))
            && FieldOf(batch, "connector_id") == Some(Text(d.connector)) && FieldOf(batch, "org_id") == Some(Text(d.org))
            && FieldOf(batch, "delivery_id") == Some(Text("reply:" + d.requestId))
  {
    hide ReplyRecord;
    var fields := ReplyBatch(d, externalId).fields;
    assert |"records"| == 7 && |"connector_id"| == 12 && |"org_id"| == 6 && |"delivery_id"| == 11 && |"received_at"| == 11;
    assert "delivery_id"[0] == 'd' && "received_at"[0] == 'r';
    LookupAt(fields, 0);
    LookupAt(fields, 1);
    LookupAt(fields, 2);
    LookupAt(fields, 4);
  }

  lemma {:induction false} LookupAt(fields: seq<Field>, k: nat)
    requires k < |fields| && forall i :: 0 <= i < k ==> fields[i].key != fields[k].key
    ensures Lookup(fields, fields[k].key) == Some(fields[k].value)
    decreases k
  {
    if k > 0 { LookupAt(fields[1..], k - 1); }
  }

  /** The record of a reply: under the given id, with the parent it quotes, its text, and every attachment with all its bytes in order. */
  lemma RecordHoldsTheReply(d: Draft, externalId: string)
    ensures var record := ReplyRecord(d, externalId);
            && FieldOf(record, "external_id") == Some(Text(externalId)) && FieldOf(record, "source") == Some(Text(d.source))
            && FieldOf(record, "parent_external_id") == (if d.parent.Some? then Some(Text(d.parent.value)) else None)
            && FieldOf(record, "content").Some? && FieldOf(record, "content").value.Items?
            && var parts := FieldOf(record, "content").value.items;
               var text := if d.text == "" then 0 else 1;
               && |parts| == text + |d.attachments| + 1
               && (d.text != "" ==> FieldOf(parts[0], "text") == Some(Text(d.text)))
               && (forall k :: 0 <= k < |d.attachments| ==>
                     && FieldOf(parts[text + k], BYTES_KEY) == Some(Binary(d.attachments[k].bytes))
                     && FieldOf(parts[text + k], "source_filename") == Some(Text(d.attachments[k].filename)))
  {
    hide AttachmentPart, TextPart;
    var fields := ReplyRecord(d, externalId).fields;
    RecordKeys();
    LookupAt(fields, 1);
    LookupAt(fields, 2);
    LookupAt(fields, 4);
    if d.parent.Some? { LookupAt(fields, 5); } else { NoLookup(fields, "parent_external_id"); }
    var text := if d.text == "" then 0 else 1;
    var parts := fields[4].value.items;
    if d.text != "" {
      assert parts[0] == TextPart("body", "text/markdown", d.text);
      PartHolds("body", "text/markdown", d.text);
    }
    forall k | 0 <= k < |d.attachments|
      ensures FieldOf(parts[text + k], BYTES_KEY) == Some(Binary(d.attachments[k].bytes))
      ensures FieldOf(parts[text + k], "source_filename") == Some(Text(d.attachments[k].filename))
    {
      assert parts[text + k] == AttachmentPart(d.attachments[k]);
      AttachmentHolds(d.attachments[k]);
    }
  }

  lemma RecordKeys()
    ensures |"operation"| == 9 && |"source"| == 6 && |"external_id"| == 11 && |"occurred_at"| == 11 && |"content"| == 7
    ensures |"parent_external_id"| == 18 && "external_id"[0] == 'e' && "occurred_at"[0] == 'o'
    ensures |"role"| == 4 && |"media_type"| == 10 && |"source_filename"| == 15 && |BYTES_KEY| == 5 && |"text"| == 4 && "text"[0] == 't' && "role"[0] == 'r'
  {
  }

  lemma {:induction false} NoLookup(fields: seq<Field>, key: string)
    requires forall i :: 0 <= i < |fields| ==> fields[i].key != key
    ensures Lookup(fields, key) == None
  {
    if fields != [] { NoLookup(fields[1..], key); }
  }

  lemma PartHolds(role: string, mediaType: string, text: string)
    ensures FieldOf(TextPart(role, mediaType, text), "text") == Some(Text(text))
  {
    RecordKeys();
    LookupAt(TextPart(role, mediaType, text).fields, 2);
  }

  lemma AttachmentHolds(a: Attachment)
    ensures FieldOf(AttachmentPart(a), BYTES_KEY) == Some(Binary(a.bytes))
    ensures FieldOf(AttachmentPart(a), "source_filename") == Some(Text(a.filename))
  {
    RecordKeys();
    LookupAt(AttachmentPart(a).fields, 2);
    LookupAt(AttachmentPart(a).fields, 3);
  }
}
