/**
 Reply recovery payloads: an ingest batch is written as JSON, with every attachment's bytes
 replaced by a marker object, and read back by a reviver that looks for the marker shape under
 any key called "bytes", at any depth.

 A `Value` is a JavaScript value as far as JSON sees it, plus `Binary` for a byte array, which
 JSON cannot hold. Text encoding of a JSON tree is the identity here.
 */
module ReplyRecovery {
  import opened Wrappers
  import Base64

  type Byte = Base64.Byte

  datatype Value =
    | Null
    | Bool(b: bool)
    | Number(n: real)
    | Text(s: string)
    | Items(items: seq<Value>)
    | Object(fields: seq<Field>)
    | Binary(bytes: seq<Byte>)

  datatype Field = Field(key: string, value: Value)

  /** SHA-256 is modelled as injective: a digest carries the content it was taken of. */
  datatype Digest = Digest(content: Value)

  const BYTES_KEY := "bytes"
  const MARKER_KEY := "reply_bytes_base64"

  // ----- saving

  function Marker(bytes: seq<Byte>): Value {
    Object([Field(MARKER_KEY, Text(Base64.Encode(bytes)))])
  }

  function Lookup(fields: seq<Field>, key: string): Option<Value> {
    if fields == [] then None
    else if fields[0].key == key then Some(fields[0].value)
    else Lookup(fields[1..], key)
  }

  /** `v` with the value of its field `key` replaced by what `change` makes of it. */
  function At(v: Value, key: string, change: Value -> Value): Value {
    if v.Object? then
      Object(seq(|v.fields|, i requires 0 <= i < |v.fields| =>
        if v.fields[i].key == key then Field(key, change(v.fields[i].value)) else v.fields[i]))
    else v
  }

  function Each(v: Value, change: Value -> Value): Value {
    if v.Items? then Items(seq(|v.items|, i requires 0 <= i < |v.items| => change(v.items[i]))) else v
  }

  function SaveBytes(v: Value): Value {
    if v.Binary? then Marker(v.bytes) else v
  }

  function SavePart(part: Value): Value {
    At(part, BYTES_KEY, SaveBytes)
  }

  function SaveRecord(record: Value): Value {
    At(record, "content", content => Each(content, SavePart))
  }

  /** The JSON tree of a batch: the byte array of each content part becomes a marker object. */
  function Save(batch: Value): Value {
    At(batch, "records", records => Each(records, SaveRecord))
  }

  // ----- loading

  predicate IsMarker(v: Value) {
    v.Object? && Lookup(v.fields, MARKER_KEY).Some? && Lookup(v.fields, MARKER_KEY).value.Text?
  }

  /** JSON.parse with the reviver: children first, then the value itself under its own key. */
  function Revive(v: Value): Value
    decreases v, 0
  {
    match v
    case Items(items) => Items(seq(|items|, i requires 0 <= i < |items| => Revive(items[i])))
    case Object(fields) => Object(ReviveFields(fields))
    case _ => v
  }

  function ReviveFields(fields: seq<Field>): (r: seq<Field>)
    ensures |r| == |fields|
    decreases fields, 0
  {
    if fields == [] then []
    else [Field(fields[0].key, ReviveUnder(fields[0].key, fields[0].value))] + ReviveFields(fields[1..])
  }

  function ReviveUnder(key: string, v: Value): Value
    decreases v, 1
  {
    var r := Revive(v);
    if key == BYTES_KEY && IsMarker(r) then Binary(Base64.Decode(Lookup(r.fields, MARKER_KEY).value.s)) else r
  }

  datatype LoadError = Missing | HashMismatch | Invalid

  /** `valid` stands for the batch schema check, which is not part of this model. */
  function Load(blobs: map<Digest, Value>, hash: Digest, org: string, valid: Value -> bool): Result<Value, LoadError> {
    if hash !in blobs then Err(Missing)
    else if Digest(blobs[hash]) != hash then Err(HashMismatch)
    else
      var batch := Revive(blobs[hash]);
      if valid(batch) && BelongsTo(batch, org) && SingleRecord(batch) then Ok(batch) else Err(Invalid)
  }

  predicate BelongsTo(batch: Value, org: string) {
    batch.Object? && Lookup(batch.fields, "org_id") == Some(Text(org))
  }

  predicate SingleRecord(batch: Value) {
    && batch.Object?
    && Lookup(batch.fields, "records").Some?
    && Lookup(batch.fields, "records").value.Items?
    && |Lookup(batch.fields, "records").value.items| == 1
  }

  // ----- which batches there are, and which of them survive

  /** No byte array anywhere. */
  predicate Plain(v: Value) {
    match v
    case Binary(_) => false
    case Items(items) => forall i :: 0 <= i < |items| ==> Plain(items[i])
    case Object(fields) => forall i :: 0 <= i < |fields| ==> Plain(fields[i].value)
    case _ => true
  }

  /** Byte arrays occur only as the `bytes` of a content part of a record: what the batch types allow. */
  predicate BatchShaped(v: Value) {
    v.Object? && forall i :: 0 <= i < |v.fields| ==>
      if v.fields[i].key == "records"
      then v.fields[i].value.Items? && forall j :: 0 <= j < |v.fields[i].value.items| ==> RecordShaped(v.fields[i].value.items[j])
      else Plain(v.fields[i].value)
  }

  predicate RecordShaped(v: Value) {
    v.Object? && forall i :: 0 <= i < |v.fields| ==>
      if v.fields[i].key == "content"
      then v.fields[i].value.Items? && forall j :: 0 <= j < |v.fields[i].value.items| ==> PartShaped(v.fields[i].value.items[j])
      else Plain(v.fields[i].value)
  }

  predicate PartShaped(v: Value) {
    v.Object? && forall i :: 0 <= i < |v.fields| ==>
      if v.fields[i].key == BYTES_KEY then v.fields[i].value.Binary? else Plain(v.fields[i].value)
  }

  /** No field called `bytes`, at any depth, already holds a marker-shaped object. */
  predicate MarkerFree(v: Value) {
    match v
    case Items(items) => forall i :: 0 <= i < |items| ==> MarkerFree(items[i])
    case Object(fields) =>
      forall i :: 0 <= i < |fields| ==>
        MarkerFree(fields[i].value) && !(fields[i].key == BYTES_KEY && IsMarker(fields[i].value))
    case _ => true
  }

  // ----- proofs

  lemma {:induction false} ReviveFieldsAt(fields: seq<Field>, i: nat)
    requires i < |fields|
    ensures ReviveFields(fields)[i] == Field(fields[i].key, ReviveUnder(fields[i].key, fields[i].value))
  {
    if i > 0 {
      ReviveFieldsAt(fields[1..], i - 1);
    }
  }

  /** Reviving neither makes nor unmakes the marker shape of a value that is not itself replaced. */
  lemma {:induction false} LookupMarkerAfterRevive(fields: seq<Field>)
    ensures Lookup(ReviveFields(fields), MARKER_KEY).Some? <==> Lookup(fields, MARKER_KEY).Some?
    ensures Lookup(fields, MARKER_KEY).Some? ==>
              Lookup(ReviveFields(fields), MARKER_KEY).value == Revive(Lookup(fields, MARKER_KEY).value)
  {
    if fields != [] {
      var rest := fields[1..];
      LookupMarkerAfterRevive(rest);
      assert ReviveFields(fields)[1..] == ReviveFields(rest);
    }
  }

  lemma ReviveKeepsMarkerShape(v: Value)
    ensures IsMarker(Revive(v)) <==> IsMarker(v)
    ensures IsMarker(v) ==> Lookup(Revive(v).fields, MARKER_KEY) == Lookup(v.fields, MARKER_KEY)
  {
    if v.Object? {
      LookupMarkerAfterRevive(v.fields);
    }
  }

  /** Without byte arrays, reviving is the identity exactly on marker-free trees. */
  lemma {:induction false} RevivePlain(v: Value)
    requires Plain(v)
    ensures Revive(v) == v <==> MarkerFree(v)
  {
    match v
    case Items(items) =>
      forall i | 0 <= i < |items| ensures Revive(items[i]) == items[i] <==> MarkerFree(items[i]) {
        RevivePlain(items[i]);
      }
      if Revive(v) == v {
        forall i | 0 <= i < |items| ensures MarkerFree(items[i]) {
          assert Revive(v).items[i] == items[i];
        }
      } else {
        assert exists i :: 0 <= i < |items| && Revive(v).items[i] != items[i];
      }
    case Object(fields) =>
      forall i | 0 <= i < |fields|
        ensures ReviveFields(fields)[i] == fields[i] <==>
                MarkerFree(fields[i].value) && !(fields[i].key == BYTES_KEY && IsMarker(fields[i].value))
      {
        RevivePlainField(fields[i]);
        ReviveFieldsAt(fields, i);
      }
      if Revive(v) == v {
      } else {
        assert exists i :: 0 <= i < |fields| && ReviveFields(fields)[i] != fields[i];
      }
    case _ =>
  }

  lemma {:induction false} RevivePlainField(field: Field)
    requires Plain(field.value)
    ensures ReviveUnder(field.key, field.value) == field.value <==>
            MarkerFree(field.value) && !(field.key == BYTES_KEY && IsMarker(field.value))
  {
    RevivePlain(field.value);
    ReviveKeepsMarkerShape(field.value);
  }

  lemma ReviveMarkerUnderBytes(bytes: seq<Byte>)
    ensures ReviveUnder(BYTES_KEY, Marker(bytes)) == Binary(bytes)
  {
    var fields := [Field(MARKER_KEY, Text(Base64.Encode(bytes)))];
    ReviveFieldsAt(fields, 0);
    Base64.RoundTrip(bytes);
    assert ReviveFields(fields) == fields;
  }

  lemma RoundTripPart(part: Value)
    requires PartShaped(part)
    ensures Revive(SavePart(part)) == part <==> MarkerFree(part)
  {
    var saved := SavePart(part).fields;
    forall i | 0 <= i < |part.fields|
      ensures ReviveFields(saved)[i] == part.fields[i] <==>
              MarkerFree(part.fields[i].value) && !(part.fields[i].key == BYTES_KEY && IsMarker(part.fields[i].value))
    {
      ReviveFieldsAt(saved, i);
      if part.fields[i].key == BYTES_KEY {
        assert part.fields[i].value.Binary?;
        assert saved[i] == Field(BYTES_KEY, SaveBytes(part.fields[i].value));
        ReviveMarkerUnderBytes(part.fields[i].value.bytes);
      } else {
        RevivePlainField(part.fields[i]);
      }
    }
    SameFieldsIff(ReviveFields(saved), part.fields);
  }

  /** Two field lists of one length are equal exactly when they agree everywhere. */
  lemma SameFieldsIff(a: seq<Field>, b: seq<Field>)
    requires |a| == |b|
    ensures a == b <==> forall i :: 0 <= i < |a| ==> a[i] == b[i]
  {
  }

  lemma RoundTripRecord(record: Value)
    requires RecordShaped(record)
    ensures Revive(SaveRecord(record)) == record <==> MarkerFree(record)
  {
    var saved := SaveRecord(record).fields;
    forall i | 0 <= i < |record.fields|
      ensures ReviveFields(saved)[i] == record.fields[i] <==>
              MarkerFree(record.fields[i].value) && !(record.fields[i].key == BYTES_KEY && IsMarker(record.fields[i].value))
    {
      ReviveFieldsAt(saved, i);
      if record.fields[i].key == "content" {
        var content := record.fields[i].value;
        forall j | 0 <= j < |content.items|
          ensures Revive(SavePart(content.items[j])) == content.items[j] <==> MarkerFree(content.items[j])
        {
          RoundTripPart(content.items[j]);
        }
        RoundTripEach(content, SavePart);
      } else {
        RevivePlainField(record.fields[i]);
      }
    }
    SameFieldsIff(ReviveFields(saved), record.fields);
  }

  lemma RoundTripEach(v: Value, save: Value -> Value)
    requires v.Items?
    requires forall i :: 0 <= i < |v.items| ==> (Revive(save(v.items[i])) == v.items[i] <==> MarkerFree(v.items[i]))
    ensures Revive(Each(v, save)) == v <==> MarkerFree(v)
  {
    var revived := Revive(Each(v, save)).items;
    assert |revived| == |v.items|;
    assert forall i :: 0 <= i < |v.items| ==> revived[i] == Revive(save(v.items[i]));
    assert revived == v.items <==> forall i :: 0 <= i < |v.items| ==> revived[i] == v.items[i];
  }

  /**
   What was saved comes back unchanged exactly when no field called `bytes` of the batch already
   held a marker-shaped object. The reviver cannot tell such a field from a saved byte array.
   */
  lemma RoundTrip(batch: Value)
    requires BatchShaped(batch)
    ensures Revive(Save(batch)) == batch <==> MarkerFree(batch)
  {
    var saved := Save(batch).fields;
    forall i | 0 <= i < |batch.fields|
      ensures ReviveFields(saved)[i] == batch.fields[i] <==>
              MarkerFree(batch.fields[i].value) && !(batch.fields[i].key == BYTES_KEY && IsMarker(batch.fields[i].value))
    {
      ReviveFieldsAt(saved, i);
      if batch.fields[i].key == "records" {
        var records := batch.fields[i].value;
        forall j | 0 <= j < |records.items|
          ensures Revive(SaveRecord(records.items[j])) == records.items[j] <==> MarkerFree(records.items[j])
        {
          RoundTripRecord(records.items[j]);
        }
        RoundTripEach(records, SaveRecord);
      } else {
        RevivePlainField(batch.fields[i]);
      }
    }
    SameFieldsIff(ReviveFields(saved), batch.fields);
  }

  /** A saved batch is loaded back, whatever else was saved before or after it. */
  lemma LoadAfterSave(blobs: map<Digest, Value>, batch: Value, org: string, valid: Value -> bool)
    requires BatchShaped(batch)
    requires Digest(Save(batch)) in blobs && blobs[Digest(Save(batch))] == Save(batch)
    ensures Load(blobs, Digest(Save(batch)), org, valid) == Ok(batch) <==>
            MarkerFree(batch) && valid(batch) && BelongsTo(batch, org) && SingleRecord(batch)
  {
    RoundTrip(batch);
  }

  /** A record attribute `bytes: {"reply_bytes_base64": "A"}` is read back as a byte array. */
  lemma ForeignMarkerIsRewritten()
    ensures var batch := Object([Field("records", Items([Object([
                           Field("attrs", Object([Field(BYTES_KEY, Object([Field(MARKER_KEY, Text("A"))]))]))])]))]);
            BatchShaped(batch) && Revive(Save(batch)) != batch
  {
    var marker := Object([Field(MARKER_KEY, Text("A"))]);
    var attrs := Object([Field(BYTES_KEY, marker)]);
    var record := Object([Field("attrs", attrs)]);
    var batch := Object([Field("records", Items([record]))]);
    assert |"attrs"| != |"content"| && Plain(marker) && Plain(attrs);
    assert RecordShaped(record);
    assert IsMarker(marker) && !MarkerFree(attrs) by {
      assert attrs.fields[0].value == marker;
    }
    assert !MarkerFree(record) by { assert record.fields[0].value == attrs; }
    assert !MarkerFree(batch.fields[0].value) by { assert batch.fields[0].value.items[0] == record; }
    RoundTrip(batch);
  }
}
