/**
 The order of messages: one joined key per message, and the boundaries a caller sends back.
 Strings are sequences of UTF-16 code units, compared as the source's language compares them.
 */
module MessageKeys {
  import opened Wrappers

  newtype Unit = x: int | 0 <= x < 0x1_0000
  type Text = seq<Unit>

  const NUL: Unit := 0

  predicate Less(a: Text, b: Text) {
    if a == [] then b != []
    else b != [] && (a[0] < b[0] || (a[0] == b[0] && Less(a[1..], b[1..])))
  }

  function EventKey(occurredAt: Text, id: Text): Text {
    occurredAt + [NUL] + id
  }

  lemma {:induction false} LessIrreflexive(a: Text)
    ensures !Less(a, a)
  {
    if a != [] { LessIrreflexive(a[1..]); }
  }

  lemma {:induction false} LessTransitive(a: Text, b: Text, c: Text)
    requires Less(a, b) && Less(b, c)
    ensures Less(a, c)
  {
    if a != [] && a[0] == b[0] == c[0] { LessTransitive(a[1..], b[1..], c[1..]); }
  }

  lemma {:induction false} LessTotal(a: Text, b: Text)
    ensures Less(a, b) || a == b || Less(b, a)
  {
    if a != [] && b != [] && a[0] == b[0] {
      LessTotal(a[1..], b[1..]);
      assert a == [a[0]] + a[1..] && b == [b[0]] + b[1..];
    }
  }

  lemma LessAsymmetric(a: Text, b: Text)
    requires Less(a, b)
    ensures !Less(b, a) && a != b
  {
    if Less(b, a) { LessTransitive(a, b, a); }
    LessIrreflexive(a);
  }

  /** The joined key orders messages by time first and id second, as long as no time contains a NUL. */
  lemma {:induction false} KeyOrdersAsPair(time: Text, id: Text, time': Text, id': Text)
    requires NUL !in time && NUL !in time'
    ensures Less(EventKey(time, id), EventKey(time', id')) <==> Less(time, time') || (time == time' && Less(id, id'))
    decreases |time|
  {
    var k, k' := EventKey(time, id), EventKey(time', id');
    if time == [] && time' == [] {
      assert k[1..] == id && k'[1..] == id';
    } else if time != [] && time' != [] {
      assert k[0] == time[0] && k'[0] == time'[0];
      assert k[1..] == EventKey(time[1..], id) && k'[1..] == EventKey(time'[1..], id');
      KeyOrdersAsPair(time[1..], id, time'[1..], id');
      LessTail(time, time');
    } else {
      assert k[0] == (if time == [] then NUL else time[0]);
      assert k'[0] == (if time' == [] then NUL else time'[0]);
      assert time != [] ==> time[0] in time;
      assert time' != [] ==> time'[0] in time';
    }
  }

  lemma LessTail(a: Text, b: Text)
    requires a != [] && b != []
    ensures Less(a, b) <==> a[0] < b[0] || (a[0] == b[0] && Less(a[1..], b[1..]))
    ensures a == b <==> a[0] == b[0] && a[1..] == b[1..]
  {
    assert a == [a[0]] + a[1..] && b == [b[0]] + b[1..];
  }

  /** With a NUL in a time, two messages that differ in both parts can share one key. */
  lemma NulMakesKeysCollide(x: Text, y: Text)
    ensures EventKey(x, [NUL] + y) == EventKey(x + [NUL], y)
    ensures Less(x, x + [NUL])
  {
    assert x + [NUL] + ([NUL] + y) == x + [NUL] + [NUL] + y;
    LessPrefix(x, [NUL]);
  }

  /** One time, followed by a NUL, begins the other. */
  predicate NulPrefix(time: Text, time': Text) {
    time + [NUL] <= time'
  }

  /** The keys are ordered as the times, whatever the ids are. */
  ghost predicate KeysFollowTimes(time: Text, time': Text) {
    forall id, id' :: Less(EventKey(time, id), EventKey(time', id')) <==> Less(time, time')
  }

  /** For two different times the keys are ordered as the times, for all ids, exactly if neither NUL-begins the other. */
  lemma KeysFollowTimesExactly(time: Text, time': Text)
    requires time != time'
    ensures KeysFollowTimes(time, time') <==> !NulPrefix(time, time') && !NulPrefix(time', time)
  {
    hide Less, EventKey;
    if NulPrefix(time, time') {
      var id := LongIdOvertakes(time, time');
      assert !Less(EventKey(time, id), EventKey(time', []));
    } else if NulPrefix(time', time) {
      var id := LongIdOvertakes(time', time);
      LessAsymmetric(time', time);
      assert Less(EventKey(time, []), EventKey(time', id));
    } else {
      forall id, id' ensures Less(EventKey(time, id), EventKey(time', id')) <==> Less(time, time') {
        UnlessNulPrefix(time, id, time', id');
      }
    }
  }

  lemma LongIdOvertakes(time: Text, time': Text) returns (id: Text)
    requires NulPrefix(time, time')
    ensures Less(time, time') && Less(EventKey(time', []), EventKey(time, id)) && !Less(EventKey(time, id), EventKey(time', []))
  {
    var rest := time'[|time| + 1..];
    id := rest + [NUL, NUL];
    assert time' == time + ([NUL] + rest);
    LessPrefix(time, [NUL] + rest);
    assert EventKey(time, id) == EventKey(time', []) + [NUL];
    LessPrefix(EventKey(time', []), [NUL]);
    LessAsymmetric(EventKey(time', []), EventKey(time, id));
  }

  lemma {:induction false} UnlessNulPrefix(time: Text, id: Text, time': Text, id': Text)
    requires time != time' && !NulPrefix(time, time') && !NulPrefix(time', time)
    ensures Less(EventKey(time, id), EventKey(time', id')) <==> Less(time, time')
    decreases |time|
  {
    var k, k' := EventKey(time, id), EventKey(time', id');
    if time == [] {
      assert k[0] == NUL && k'[0] == time'[0];
      assert [NUL] <= time' <==> time'[0] == NUL;
    } else if time' == [] {
      assert k'[0] == NUL && k[0] == time[0];
      assert [NUL] <= time <==> time[0] == NUL;
    } else {
      assert k[1..] == EventKey(time[1..], id) && k'[1..] == EventKey(time'[1..], id');
      LessTail(time, time');
      if time[0] == time'[0] {
        TailNulPrefix(time, time');
        TailNulPrefix(time', time);
        UnlessNulPrefix(time[1..], id, time'[1..], id');
      }
    }
  }

  lemma TailNulPrefix(time: Text, time': Text)
    requires time != [] && time' != [] && time[0] == time'[0]
    ensures NulPrefix(time[1..], time'[1..]) ==> NulPrefix(time, time')
  {
    if NulPrefix(time[1..], time'[1..]) {
      assert time + [NUL] == [time[0]] + (time[1..] + [NUL]);
      assert time' == [time'[0]] + time'[1..];
    }
  }

  lemma {:induction false} LessPrefix(x: Text, y: Text)
    requires y != []
    ensures Less(x, x + y)
  {
    if x == [] {
      assert x + y == y;
    } else {
      assert (x + y)[1..] == x[1..] + y;
      LessPrefix(x[1..], y);
    }
  }

  // ----- boundaries

  /** ECMAScript white space and line terminators. */
  predicate Space(u: Unit) {
    || 9 <= u <= 13 || u == 32 || u == 160 || u == 0x1680 || 0x2000 <= u <= 0x200A
    || u == 0x2028 || u == 0x2029 || u == 0x202F || u == 0x205F || u == 0x3000 || u == 0xFEFF
  }

  function TrimStart(s: Text): Text {
    if s != [] && Space(s[0]) then TrimStart(s[1..]) else s
  }

  function TrimEnd(s: Text): Text {
    if s != [] && Space(s[|s| - 1]) then TrimEnd(s[..|s| - 1]) else s
  }

  function Trim(s: Text): Text {
    TrimEnd(TrimStart(s))
  }

  datatype Boundary = Boundary(occurredAt: Text, eventId: Text)

  /** The key a boundary stands for; None if a part is blank. */
  function BoundaryKey(b: Boundary): Option<Text> {
    if Trim(b.occurredAt) == [] || Trim(b.eventId) == [] then None
    else Some(EventKey(Trim(b.occurredAt), Trim(b.eventId)))
  }

  lemma {:induction false} TrimStartLength(s: Text)
    ensures |TrimStart(s)| <= |s| && (|TrimStart(s)| == |s| ==> TrimStart(s) == s)
  {
    if s != [] && Space(s[0]) { TrimStartLength(s[1..]); }
  }

  lemma {:induction false} TrimEndLength(s: Text)
    ensures |TrimEnd(s)| <= |s| && (|TrimEnd(s)| == |s| ==> TrimEnd(s) == s)
  {
    if s != [] && Space(s[|s| - 1]) { TrimEndLength(s[..|s| - 1]); }
  }

  lemma TrimLength(s: Text)
    ensures |Trim(s)| <= |s| && (|Trim(s)| == |s| ==> Trim(s) == s)
  {
    TrimStartLength(s);
    TrimEndLength(TrimStart(s));
  }

  /** A part that survives the trimming of a boundary. */
  predicate Stable(s: Text) {
    Trim(s) == s != []
  }

  /** A boundary made from a message stands for that message exactly if trimming changes neither part. */
  lemma BoundaryNamesItsMessage(occurredAt: Text, id: Text)
    ensures BoundaryKey(Boundary(occurredAt, id)) == Some(EventKey(occurredAt, id)) <==> Stable(occurredAt) && Stable(id)
  {
    hide Trim;
    TrimLength(occurredAt);
    TrimLength(id);
    var key := EventKey(Trim(occurredAt), Trim(id));
    if key == EventKey(occurredAt, id) {
      assert |Trim(occurredAt)| + 1 + |Trim(id)| == |key| == |occurredAt| + 1 + |id|;
    }
  }

  /** A time that ends in a space: its boundary stands for the key of another time. */
  lemma TrailingSpaceNamesAnother()
    ensures BoundaryKey(Boundary([65, 32], [66])) == Some(EventKey([65], [66])) != Some(EventKey([65, 32], [66]))
  {
    assert TrimEnd([65, 32]) == TrimEnd([65]) by { assert [65, 32][..1] == [65]; }
    assert EventKey([65], [66])[1] != EventKey([65, 32], [66])[1];
  }
}
