/** The keys that identify duplicate events, pkg/events. */
module DeduplicationKeys {
  import opened Collections
  import opened Strings

  /** Only the fields that DeduplicationKey reads. The latest value is a float printed with
      a string verb; `show` stands for that rendering. */
  datatype StatItem = StatItem(statCode: string, latestValue: real)

  datatype StatItemUpdatedEvent = StatItemUpdatedEvent(
    namespace: string, userId: string, timestamp: string, payload: Option<StatItem>)

  datatype OauthPayload = OauthPayload(clientId: string)

  datatype OauthTokenGeneratedEvent = OauthTokenGeneratedEvent(
    namespace: string, userId: string, timestamp: string, payload: Option<OauthPayload>)

  function StatCode(e: StatItemUpdatedEvent): string {
    if e.payload.Some? then e.payload.value.statCode else ""
  }

  function LatestValue(e: StatItemUpdatedEvent): real {
    if e.payload.Some? then e.payload.value.latestValue else 0.0
  }

  function ClientId(e: OauthTokenGeneratedEvent): string {
    if e.payload.Some? then e.payload.value.clientId else ""
  }

  const STAT_KIND := "stat_item_updated"
  const OAUTH_KIND := "oauth_token_generated"

  function StatKey(e: StatItemUpdatedEvent, show: real -> string): string {
    Join([STAT_KIND, e.namespace, e.userId, e.timestamp, show(LatestValue(e)), StatCode(e)], ":")
  }

  function OauthKey(e: OauthTokenGeneratedEvent): string {
    Join([OAUTH_KIND, e.namespace, e.userId, e.timestamp, ClientId(e)], ":")
  }

  /** Reading a key back: split at the colons, `head` fields from the left, `tail` fields
      from the right, and whatever is between them, colons included, is the timestamp. */
  function Fields(key: string, head: nat, tail: nat): Option<seq<string>> {
    var parts := Split(key, ':');
    if |parts| <= head + tail then None
    else Some(parts[..head] + [Join(parts[head..|parts| - tail], ":")] + parts[|parts| - tail..])
  }

  ghost predicate NoColon(s: string) { ':' !in s }

  lemma {:induction false} JoinConcat(a: seq<string>, b: seq<string>)
    requires a != [] && b != []
    ensures Join(a + b, ":") == Join(a, ":") + ":" + Join(b, ":")
  {
    if |a| == 1 {
      assert (a + b)[1..] == b;
    } else {
      assert (a + b)[1..] == a[1..] + b;
      JoinConcat(a[1..], b);
      assert Join(a + b, ":") == a[0] + ":" + (Join(a[1..], ":") + ":" + Join(b, ":"));
      assert Join(a + b, ":") == (a[0] + ":" + Join(a[1..], ":")) + ":" + Join(b, ":");
    }
  }

  lemma JoinThree(a: seq<string>, b: seq<string>, c: seq<string>)
    requires a != [] && b != [] && c != []
    ensures Join(a + b + c, ":") == Join(a, ":") + ":" + Join(b, ":") + ":" + Join(c, ":")
  {
    JoinConcat(a, b);
    JoinConcat(a + b, c);
  }

  lemma ConcatHasNoColon(a: seq<string>, b: seq<string>)
    requires forall i :: 0 <= i < |a| ==> ':' !in a[i]
    requires forall i :: 0 <= i < |b| ==> ':' !in b[i]
    ensures forall i :: 0 <= i < |a + b| ==> ':' !in (a + b)[i]
  {
  }

  lemma FieldsOfParts(key: string, head: seq<string>, middle: seq<string>, tail: seq<string>)
    requires Split(key, ':') == head + middle + tail && middle != []
    ensures Fields(key, |head|, |tail|) == Some(head + [Join(middle, ":")] + tail)
  {
    hide Split, Join;
    var parts := head + middle + tail;
    assert parts[|head|..|parts| - |tail|] == middle;
    assert parts[..|head|] == head && parts[|parts| - |tail|..] == tail;
  }

  /** Reading back succeeds when the outer fields carry no colon, however many the
      timestamp has. */
  lemma FieldsOfJoin(head: seq<string>, timestamp: string, tail: seq<string>)
    requires head != [] && tail != []
    requires forall i :: 0 <= i < |head| ==> ':' !in head[i]
    requires forall i :: 0 <= i < |tail| ==> ':' !in tail[i]
    ensures Fields(Join(head + [timestamp] + tail, ":"), |head|, |tail|) == Some(head + [timestamp] + tail)
  {
    var middle := Split(timestamp, ':');
    JoinOfSplit(timestamp, ':');
    JoinThree(head, middle, tail);
    JoinThree(head, [timestamp], tail);
    assert Join([timestamp], ":") == timestamp;
    hide Join, Split, Fields;
    ConcatHasNoColon(head, middle);
    ConcatHasNoColon(head + middle, tail);
    SplitOfJoin(head + middle + tail, ':');
    FieldsOfParts(Join(head + middle + tail, ":"), head, middle, tail);
  }

  /** What is read back has no colon outside the timestamp. */
  lemma FieldsHaveNoColon(key: string, head: nat, tail: nat)
    requires Fields(key, head, tail).Some?
    ensures
      var fields := Fields(key, head, tail).value;
      && |fields| == head + 1 + tail
      && forall i :: 0 <= i < |fields| && i != head ==> NoColon(fields[i])
  {
    JoinOfSplit(key, ':');
    var parts := Split(key, ':');
    var fields := Fields(key, head, tail).value;
    forall i | 0 <= i < |fields| && i != head
      ensures NoColon(fields[i])
    {
      if i < head {
        assert fields[i] == parts[i];
      } else {
        assert fields[i] == parts[|parts| - tail + (i - head - 1)];
      }
    }
  }

  lemma JoinCons(first: string, rest: seq<string>)
    requires rest != []
    ensures Join([first] + rest, ":") == first + ":" + Join(rest, ":")
  {
    assert ([first] + rest)[1..] == rest;
  }

  lemma JoinFive(a: string, b: string, c: string, d: string, e: string)
    ensures Join([a, b, c, d, e], ":") == a + ":" + b + ":" + c + ":" + d + ":" + e
  {
    JoinOne(e);
    hide Join;
    JoinCons(d, [e]);
    JoinCons(c, [d, e]);
    JoinCons(b, [c, d, e]);
    JoinCons(a, [b, c, d, e]);
    assert [d] + [e] == [d, e] && [c] + [d, e] == [c, d, e];
    assert [b] + [c, d, e] == [b, c, d, e] && [a] + [b, c, d, e] == [a, b, c, d, e];
  }

  /** The format of a stat key, "stat_item_updated:%s:%s:%s:%s:%s". Without a payload the value
      is 0 and the stat code is empty. */
  lemma StatKeyText(e: StatItemUpdatedEvent, show: real -> string)
    ensures e.payload.Some? ==>
      StatKey(e, show)
      == "stat_item_updated" + ":" + e.namespace + ":" + e.userId + ":" + e.timestamp + ":"
         + show(e.payload.value.latestValue) + ":" + e.payload.value.statCode
    ensures e.payload.None? ==>
      StatKey(e, show)
      == "stat_item_updated" + ":" + e.namespace + ":" + e.userId + ":" + e.timestamp + ":" + show(0.0) + ":"
  {
    var rest := [e.namespace, e.userId, e.timestamp, show(LatestValue(e)), StatCode(e)];
    assert [STAT_KIND] + rest == [STAT_KIND, e.namespace, e.userId, e.timestamp, show(LatestValue(e)), StatCode(e)];
    hide Join;
    JoinCons(STAT_KIND, rest);
    JoinFive(e.namespace, e.userId, e.timestamp, show(LatestValue(e)), StatCode(e));
  }

  /** The format of an OAuth key, "oauth_token_generated:%s:%s:%s:%s". Without a payload the
      client id is empty. */
  lemma OauthKeyText(e: OauthTokenGeneratedEvent)
    ensures e.payload.Some? ==>
      OauthKey(e)
      == "oauth_token_generated" + ":" + e.namespace + ":" + e.userId + ":" + e.timestamp + ":"
         + e.payload.value.clientId
    ensures e.payload.None? ==>
      OauthKey(e) == "oauth_token_generated" + ":" + e.namespace + ":" + e.userId + ":" + e.timestamp + ":"
  {
    hide Join;
    JoinFive(OAUTH_KIND, e.namespace, e.userId, e.timestamp, ClientId(e));
  }

  function StatFields(e: StatItemUpdatedEvent, show: real -> string): seq<string> {
    [STAT_KIND, e.namespace, e.userId, e.timestamp, show(LatestValue(e)), StatCode(e)]
  }

  function OauthFields(e: OauthTokenGeneratedEvent): seq<string> {
    [OAUTH_KIND, e.namespace, e.userId, e.timestamp, ClientId(e)]
  }

  ghost predicate StatPlain(e: StatItemUpdatedEvent, show: real -> string) {
    NoColon(e.namespace) && NoColon(e.userId) && NoColon(show(LatestValue(e))) && NoColon(StatCode(e))
  }

  ghost predicate OauthPlain(e: OauthTokenGeneratedEvent) {
    NoColon(e.namespace) && NoColon(e.userId) && NoColon(ClientId(e))
  }

  /** A stat key determines the event's fields: they can be read back from it if and only
      if none but the timestamp contains a colon. */
  lemma StatKeyReadsBackIff(e: StatItemUpdatedEvent, show: real -> string)
    ensures Fields(StatKey(e, show), 3, 2) == Some(StatFields(e, show)) <==> StatPlain(e, show)
  {
    var fields := StatFields(e, show);
    if Fields(StatKey(e, show), 3, 2) == Some(fields) {
      FieldsHaveNoColon(StatKey(e, show), 3, 2);
      assert NoColon(fields[1]) && NoColon(fields[2]) && NoColon(fields[4]) && NoColon(fields[5]);
    }
    if StatPlain(e, show) {
      var head, tail := [STAT_KIND, e.namespace, e.userId], [show(LatestValue(e)), StatCode(e)];
      assert head + [e.timestamp] + tail == fields;
      FieldsOfJoin(head, e.timestamp, tail);
    }
  }

  lemma OauthKeyReadsBackIff(e: OauthTokenGeneratedEvent)
    ensures Fields(OauthKey(e), 3, 1) == Some(OauthFields(e)) <==> OauthPlain(e)
  {
    var fields := OauthFields(e);
    if Fields(OauthKey(e), 3, 1) == Some(fields) {
      FieldsHaveNoColon(OauthKey(e), 3, 1);
      assert NoColon(fields[1]) && NoColon(fields[2]) && NoColon(fields[4]);
    }
    if OauthPlain(e) {
      var head, tail := [OAUTH_KIND, e.namespace, e.userId], [ClientId(e)];
      assert head + [e.timestamp] + tail == fields;
      FieldsOfJoin(head, e.timestamp, tail);
    }
  }

  /** Equal stat keys mean equal fields, timestamps with colons included; of the latest
      value, they mean that it is rendered alike. */
  lemma StatKeyIsInjective(a: StatItemUpdatedEvent, b: StatItemUpdatedEvent, show: real -> string)
    requires StatPlain(a, show) && StatPlain(b, show)
    ensures
      StatKey(a, show) == StatKey(b, show)
      <==> && a.namespace == b.namespace && a.userId == b.userId && a.timestamp == b.timestamp
           && show(LatestValue(a)) == show(LatestValue(b)) && StatCode(a) == StatCode(b)
    ensures a.payload.Some? && b.payload.Some? && StatKey(a, show) == StatKey(b, show) ==>
      && show(a.payload.value.latestValue) == show(b.payload.value.latestValue)
      && a.payload.value.statCode == b.payload.value.statCode
    ensures a.payload.Some? && b.payload.None? && StatKey(a, show) == StatKey(b, show) ==>
      show(a.payload.value.latestValue) == show(0.0) && a.payload.value.statCode == ""
  {
    StatKeyReadsBackIff(a, show);
    StatKeyReadsBackIff(b, show);
    var f, g := StatFields(a, show), StatFields(b, show);
    if f == g {
      assert f[1] == g[1] && f[2] == g[2] && f[3] == g[3] && f[4] == g[4] && f[5] == g[5];
    }
  }

  lemma OauthKeyIsInjective(a: OauthTokenGeneratedEvent, b: OauthTokenGeneratedEvent)
    requires OauthPlain(a) && OauthPlain(b)
    ensures
      OauthKey(a) == OauthKey(b)
      <==> && a.namespace == b.namespace && a.userId == b.userId && a.timestamp == b.timestamp
           && ClientId(a) == ClientId(b)
    ensures a.payload.Some? && b.payload.Some? && OauthKey(a) == OauthKey(b) ==>
      a.payload.value.clientId == b.payload.value.clientId
    ensures a.payload.Some? && b.payload.None? && OauthKey(a) == OauthKey(b) ==> a.payload.value.clientId == ""
  {
    OauthKeyReadsBackIff(a);
    OauthKeyReadsBackIff(b);
    var f, g := OauthFields(a), OauthFields(b);
    if f == g {
      assert f[1] == g[1] && f[2] == g[2] && f[3] == g[3] && f[4] == g[4];
    }
  }

  // ---- Which keys are shared with a plain event ----

  lemma {:induction false} PartsOfJoin(fields: seq<string>)
    requires fields != [] && NoColon(fields[0])
    ensures |Split(Join(fields, ":"), ':')| >= |fields|
    ensures Split(Join(fields, ":"), ':')[0] == fields[0]
  {
    if |fields| == 1 {
      SplitWhole(fields[0], ':');
    } else {
      var rest := Join(fields[1..], ":");
      SplitFirst(fields[0], rest, ':');
      PartsAtLeast(fields[1..]);
    }
  }

  lemma {:induction false} PartsAtLeast(fields: seq<string>)
    requires fields != []
    ensures |Split(Join(fields, ":"), ':')| >= |fields|
  {
    if |fields| > 1 {
      SplitConcat(fields[0], Join(fields[1..], ":"), ':');
      PartsAtLeast(fields[1..]);
    }
  }

  /** A key with enough parts reads as a plain event's fields, and joins back to itself. */
  lemma ReadingJoinsBack(key: string, head: nat, tail: nat)
    requires head > 0 && tail > 0 && |Split(key, ':')| > head + tail
    ensures
      var fields := Fields(key, head, tail);
      && fields.Some? && |fields.value| == head + 1 + tail && Join(fields.value, ":") == key
      && fields.value[0] == Split(key, ':')[0]
  {
    var parts := Split(key, ':');
    var a, m, c := parts[..head], parts[head..|parts| - tail], parts[|parts| - tail..];
    JoinOfSplit(key, ':');
    assert parts == a + m + c;
    hide Split, Join;
    JoinThree(a, m, c);
    JoinThree(a, [Join(m, ":")], c);
    assert Join([Join(m, ":")], ":") == Join(m, ":") by { JoinOne(Join(m, ":")); }
  }

  lemma JoinOne(s: string)
    ensures Join([s], ":") == s
  {
  }

  /** An OAuth event shares its key with no other plain event if and only if it is plain
      itself: every colon in an outer field is a collision. */
  lemma OauthPlainIffAlone(e: OauthTokenGeneratedEvent)
    ensures
      OauthPlain(e)
      <==> forall p :: OauthPlain(p) && OauthKey(p) == OauthKey(e) ==> OauthFields(p) == OauthFields(e)
  {
    if OauthPlain(e) {
      forall p | OauthPlain(p) && OauthKey(p) == OauthKey(e)
        ensures OauthFields(p) == OauthFields(e)
      {
        OauthKeyReadsBackIff(e);
        OauthKeyReadsBackIff(p);
      }
    } else {
      var p := OauthReading(e);
      assert OauthPlain(p) && OauthKey(p) == OauthKey(e);
    }
  }

  lemma OauthReading(e: OauthTokenGeneratedEvent) returns (p: OauthTokenGeneratedEvent)
    ensures OauthPlain(p) && OauthKey(p) == OauthKey(e)
    ensures !OauthPlain(e) ==> OauthFields(p) != OauthFields(e)
  {
    PartsOfJoin(OauthFields(e));
    ReadingJoinsBack(OauthKey(e), 3, 1);
    FieldsHaveNoColon(OauthKey(e), 3, 1);
    var fields := Fields(OauthKey(e), 3, 1).value;
    p := OauthTokenGeneratedEvent(fields[1], fields[2], fields[3], Some(OauthPayload(fields[4])));
    assert fields == OauthFields(p);
    var was := OauthFields(e);
    assert was == fields ==> was[1] == fields[1] && was[2] == fields[2] && was[4] == fields[4];
  }

  /** What stands before the last colon of `s`, back to the colon before it. */
  function BeforeLastColon(s: string): string
    requires !NoColon(s)
  {
    ColonSplits(s);
    Split(s, ':')[|Split(s, ':')| - 2]
  }

  lemma ColonSplits(s: string)
    requires !NoColon(s)
    ensures |Split(s, ':')| >= 2
  {
    JoinOfSplit(s, ':');
  }

  /** The field that is read back as the latest value. */
  lemma ValueRead(e: StatItemUpdatedEvent, show: real -> string)
    requires NoColon(show(LatestValue(e)))
    ensures |Split(StatKey(e, show), ':')| > 5 && Split(StatKey(e, show), ':')[0] == STAT_KIND
    ensures Fields(StatKey(e, show), 3, 2).Some?
    ensures
      Fields(StatKey(e, show), 3, 2).value[4]
      == if NoColon(StatCode(e)) then show(LatestValue(e)) else BeforeLastColon(StatCode(e))
  {
    StatParts(e, show);
    var code := StatCode(e);
    if NoColon(code) {
      SplitWhole(code, ':');
    } else {
      ColonSplits(code);
    }
    hide *;
    ValueOfParts(StatKey(e, show), STAT_KIND, Split(e.namespace, ':'), Split(e.userId, ':'), Split(e.timestamp, ':'),
                 show(LatestValue(e)), Split(code, ':'));
  }

  lemma ValueOfParts(key: string, kind: string, sn: seq<string>, su: seq<string>, st: seq<string>,
                     value: string, codes: seq<string>)
    requires Split(key, ':') == [kind] + sn + su + st + [value] + codes
    requires sn != [] && su != [] && st != [] && codes != []
    ensures |Split(key, ':')| > 5 && Split(key, ':')[0] == kind && Fields(key, 3, 2).Some?
    ensures |Fields(key, 3, 2).value| == 6
    ensures Fields(key, 3, 2).value[4] == if |codes| == 1 then value else codes[|codes| - 2]
  {
    hide *;
    SecondLast([kind] + sn + su + st, value, codes);
    SecondLastRead(key);
  }

  lemma SecondLast(front: seq<string>, value: string, codes: seq<string>)
    requires codes != []
    ensures
      (front + [value] + codes)[|front| + |codes| - 1]
      == if |codes| == 1 then value else codes[|codes| - 2]
  {
  }

  lemma SplitThree(a: string, b: string, c: string)
    ensures Split(a + ":" + b + ":" + c, ':') == Split(a, ':') + Split(b, ':') + Split(c, ':')
  {
    SplitConcat(a + ":" + b, c, ':');
    SplitConcat(a, b, ':');
  }

  lemma SecondLastRead(key: string)
    requires |Split(key, ':')| > 5
    ensures Fields(key, 3, 2).Some? && |Fields(key, 3, 2).value| == 6
    ensures Fields(key, 3, 2).value[4] == Split(key, ':')[|Split(key, ':')| - 2]
  {
    hide Split, Join;
  }

  /** A stat event shares its key with no other plain event if and only if it is plain, or
      the colon is in its stat code and what stands before that colon renders no value.
      The rendering of a float never contains a colon. */
  lemma StatAloneIff(e: StatItemUpdatedEvent, show: real -> string)
    requires forall v :: NoColon(show(v))
    ensures
      (forall p :: StatPlain(p, show) && StatKey(p, show) == StatKey(e, show) ==>
         StatFields(p, show) == StatFields(e, show))
      <==> StatPlain(e, show)
           || (!NoColon(StatCode(e)) && forall v :: show(v) != BeforeLastColon(StatCode(e)))
  {
    ValueRead(e, show);
    var read := Fields(StatKey(e, show), 3, 2).value[4];
    forall p | StatPlain(p, show) && StatKey(p, show) == StatKey(e, show)
      ensures show(LatestValue(p)) == read
      ensures StatPlain(e, show) ==> StatFields(p, show) == StatFields(e, show)
    {
      StatKeyReadsBackIff(e, show);
      StatKeyReadsBackIff(p, show);
    }
    if v :| !StatPlain(e, show) && show(v) == read {
      var p := StatReading(e, v, show);
      assert StatPlain(p, show) && StatKey(p, show) == StatKey(e, show);
    }
  }

  lemma StatReading(e: StatItemUpdatedEvent, v: real, show: real -> string) returns (p: StatItemUpdatedEvent)
    requires NoColon(show(LatestValue(e)))
    requires Fields(StatKey(e, show), 3, 2).Some? && |Fields(StatKey(e, show), 3, 2).value| > 4
    requires show(v) == Fields(StatKey(e, show), 3, 2).value[4]
    ensures StatPlain(p, show) && StatKey(p, show) == StatKey(e, show)
    ensures !StatPlain(e, show) ==> StatFields(p, show) != StatFields(e, show)
  {
    ValueRead(e, show);
    ReadingJoinsBack(StatKey(e, show), 3, 2);
    FieldsHaveNoColon(StatKey(e, show), 3, 2);
    var fields := Fields(StatKey(e, show), 3, 2).value;
    p := StatItemUpdatedEvent(fields[1], fields[2], fields[3], Some(StatItem(fields[5], v)));
    assert fields == StatFields(p, show);
    var was := StatFields(e, show);
    assert was == fields ==> was[1] == fields[1] && was[2] == fields[2] && was[4] == fields[4] && was[5] == fields[5];
  }

  // ---- Which keys are shared at all ----

  lemma JoinTwo(a: string, b: string)
    ensures Join([a, b], ":") == a + ":" + b
  {
    JoinConcat([a], [b]);
    assert [a] + [b] == [a, b];
  }

  /** A colon can move from one field to the next. */
  lemma ShiftedColon(front: seq<string>, a: string, b: string, c: string, rest: seq<string>)
    requires front != []
    ensures Join(front + [a, b + ":" + c] + rest, ":") == Join(front + [a + ":" + b, c] + rest, ":")
  {
    JoinTwo(a, b + ":" + c);
    JoinTwo(a + ":" + b, c);
    assert a + ":" + (b + ":" + c) == (a + ":" + b) + ":" + c;
    if rest == [] {
      JoinConcat(front, [a, b + ":" + c]);
      JoinConcat(front, [a + ":" + b, c]);
      assert front + [a, b + ":" + c] + rest == front + [a, b + ":" + c];
      assert front + [a + ":" + b, c] + rest == front + [a + ":" + b, c];
    } else {
      JoinThree(front, [a, b + ":" + c], rest);
      JoinThree(front, [a + ":" + b, c], rest);
    }
  }

  lemma CutAtColon(s: string) returns (a: string, b: string)
    requires !NoColon(s)
    ensures s == a + ":" + b
  {
    var i :| 0 <= i < |s| && s[i] == ':';
    a, b := s[..i], s[i + 1..];
  }

  /** A key with no more parts than fields has no colon in any field. */
  lemma {:induction false} ExactParts(fields: seq<string>)
    requires fields != [] && |Split(Join(fields, ":"), ':')| == |fields|
    ensures forall i :: 0 <= i < |fields| ==> NoColon(fields[i])
  {
    if |fields| == 1 {
      if !NoColon(fields[0]) {
        ColonSplits(fields[0]);
      }
    } else {
      SplitConcat(fields[0], Join(fields[1..], ":"), ':');
      PartsAtLeast(fields[1..]);
      if !NoColon(fields[0]) {
        ColonSplits(fields[0]);
      }
      ExactParts(fields[1..]);
    }
  }

  ghost predicate OauthColonFree(e: OauthTokenGeneratedEvent) {
    OauthPlain(e) && NoColon(e.timestamp)
  }

  /** An OAuth event shares its key with no other event whatsoever if and only if no field,
      the timestamp included, contains a colon. */
  lemma OauthUnsharedIff(e: OauthTokenGeneratedEvent)
    ensures
      OauthColonFree(e) <==> forall p :: OauthKey(p) == OauthKey(e) ==> OauthFields(p) == OauthFields(e)
  {
    if OauthColonFree(e) {
      SplitOfJoin(OauthFields(e), ':');
      forall p | OauthKey(p) == OauthKey(e)
        ensures OauthFields(p) == OauthFields(e)
      {
        ExactParts(OauthFields(p));
        SplitOfJoin(OauthFields(p), ':');
      }
    } else {
      var p := OauthPartner(e);
      assert OauthKey(p) == OauthKey(e);
    }
  }

  lemma OauthPartner(e: OauthTokenGeneratedEvent) returns (p: OauthTokenGeneratedEvent)
    requires !OauthColonFree(e)
    ensures OauthKey(p) == OauthKey(e) && OauthFields(p) != OauthFields(e)
  {
    var n, u, t, c := e.namespace, e.userId, e.timestamp, ClientId(e);
    if !NoColon(n) {
      var a, b := CutAtColon(n);
      p := OauthTokenGeneratedEvent(a, b + ":" + u, t, Some(OauthPayload(c)));
      ShiftedColon([OAUTH_KIND], a, b, u, [t, c]);
      assert OauthFields(p) == [OAUTH_KIND] + [a, b + ":" + u] + [t, c];
      assert OauthFields(e) == [OAUTH_KIND] + [a + ":" + b, u] + [t, c];
      assert |OauthFields(p)[1]| != |OauthFields(e)[1]|;
    } else if !NoColon(u) {
      var a, b := CutAtColon(u);
      p := OauthTokenGeneratedEvent(n, a, b + ":" + t, Some(OauthPayload(c)));
      ShiftedColon([OAUTH_KIND, n], a, b, t, [c]);
      assert OauthFields(p) == [OAUTH_KIND, n] + [a, b + ":" + t] + [c];
      assert OauthFields(e) == [OAUTH_KIND, n] + [a + ":" + b, t] + [c];
      assert |OauthFields(p)[2]| != |OauthFields(e)[2]|;
    } else if !NoColon(t) {
      var a, b := CutAtColon(t);
      p := OauthTokenGeneratedEvent(n, u + ":" + a, b, Some(OauthPayload(c)));
      ShiftedColon([OAUTH_KIND, n], u, a, b, [c]);
      assert OauthFields(p) == [OAUTH_KIND, n] + [u + ":" + a, b] + [c];
      assert OauthFields(e) == [OAUTH_KIND, n] + [u, a + ":" + b] + [c];
      assert |OauthFields(p)[2]| != |OauthFields(e)[2]|;
    } else {
      var a, b := CutAtColon(c);
      p := OauthTokenGeneratedEvent(n, u, t + ":" + a, Some(OauthPayload(b)));
      ShiftedColon([OAUTH_KIND, n, u], t, a, b, []);
      assert OauthFields(p) == [OAUTH_KIND, n, u] + [t + ":" + a, b] + [];
      assert OauthFields(e) == [OAUTH_KIND, n, u] + [t, a + ":" + b] + [];
      assert |OauthFields(p)[3]| != |OauthFields(e)[3]|;
    }
  }

  /** No field before the value has a colon, and no part of the stat code that is followed by
      a colon looks like a value. */
  ghost predicate StatUnmistakable(e: StatItemUpdatedEvent, show: real -> string) {
    var codes := Split(StatCode(e), ':');
    && NoColon(e.namespace) && NoColon(e.userId) && NoColon(e.timestamp)
    && forall i, v :: 0 <= i < |codes| - 1 ==> show(v) != codes[i]
  }

  lemma Regroup<T>(a: seq<T>, b: seq<T>, c: seq<T>, d: seq<T>, e: seq<T>, f: seq<T>)
    ensures (a + b + c) + (d + e) + f == a + b + c + d + e + f
  {
  }

  lemma PartsOfSix(kind: string, n: string, u: string, t: string, v: string, c: string)
    requires NoColon(kind) && NoColon(v)
    ensures
      Split(Join([kind, n, u, t, v, c], ":"), ':')
      == [kind] + Split(n, ':') + Split(u, ':') + Split(t, ':') + [v] + Split(c, ':')
  {
    SplitWhole(kind, ':');
    SplitWhole(v, ':');
    hide *;
    assert [kind, n, u] + [t, v] + [c] == [kind, n, u, t, v, c];
    assert [kind] + [n] + [u] == [kind, n, u];
    JoinThree([kind, n, u], [t, v], [c]);
    JoinTwo(t, v);
    JoinOne(c);
    JoinThree([kind], [n], [u]);
    JoinOne(kind);
    JoinOne(n);
    JoinOne(u);
    SplitThree(kind + ":" + n + ":" + u, t + ":" + v, c);
    SplitThree(kind, n, u);
    SplitConcat(t, v, ':');
    Regroup(Split(kind, ':'), Split(n, ':'), Split(u, ':'), Split(t, ':'), Split(v, ':'), Split(c, ':'));
  }

  /** The parts of a stat key, field by field. */
  lemma StatParts(e: StatItemUpdatedEvent, show: real -> string)
    requires NoColon(show(LatestValue(e)))
    ensures
      Split(StatKey(e, show), ':')
      == [STAT_KIND] + Split(e.namespace, ':') + Split(e.userId, ':') + Split(e.timestamp, ':')
         + [show(LatestValue(e))] + Split(StatCode(e), ':')
  {
    hide Split, Join;
    PartsOfSix(STAT_KIND, e.namespace, e.userId, e.timestamp, show(LatestValue(e)), StatCode(e));
  }

  lemma PartsOfOne(s: string)
    requires |Split(s, ':')| == 1
    ensures Split(s, ':') == [s]
  {
    JoinOfSplit(s, ':');
  }

  /** Where the value stands among the parts decides the fields. */
  lemma ValuePosition(k: string, n: string, u: string, t: string, v: string, codes: seq<string>,
                      sn: seq<string>, su: seq<string>, st: seq<string>, value: string, code: seq<string>)
    requires [k] + [n] + [u] + [t] + [v] + codes == [k] + sn + su + st + [value] + code
    requires sn != [] && su != [] && st != [] && code != []
    requires forall i :: 0 <= i < |codes| - 1 ==> codes[i] != value
    ensures sn == [n] && su == [u] && st == [t] && value == v && code == codes
  {
    var parts := [k] + [n] + [u] + [t] + [v] + codes;
    var q := 1 + |sn| + |su| + |st|;
    assert parts[q] == value && q < |parts| - 1;
    assert forall i :: 5 <= i < |parts| ==> parts[i] == codes[i - 5];
    assert q == 4;
    assert parts[1] == sn[0] && parts[2] == su[0] && parts[3] == st[0];
    assert parts[5..] == codes && parts[5..] == code;
  }

  lemma UnmistakableIsUnshared(e: StatItemUpdatedEvent, p: StatItemUpdatedEvent, show: real -> string)
    requires forall v :: NoColon(show(v))
    requires StatUnmistakable(e, show) && StatKey(p, show) == StatKey(e, show)
    ensures StatFields(p, show) == StatFields(e, show)
  {
    StatParts(e, show);
    StatParts(p, show);
    SplitWhole(e.namespace, ':');
    SplitWhole(e.userId, ':');
    SplitWhole(e.timestamp, ':');
    hide Split, Join, StatKey;
    ValuePosition(STAT_KIND, e.namespace, e.userId, e.timestamp, show(LatestValue(e)), Split(StatCode(e), ':'),
                  Split(p.namespace, ':'), Split(p.userId, ':'), Split(p.timestamp, ':'), show(LatestValue(p)),
                  Split(StatCode(p), ':'));
    PartsOfOne(p.namespace);
    PartsOfOne(p.userId);
    PartsOfOne(p.timestamp);
    JoinOfSplit(StatCode(e), ':');
    JoinOfSplit(StatCode(p), ':');
  }

  lemma StatPartner(e: StatItemUpdatedEvent, show: real -> string) returns (p: StatItemUpdatedEvent)
    requires !StatUnmistakable(e, show)
    ensures StatKey(p, show) == StatKey(e, show) && StatFields(p, show) != StatFields(e, show)
  {
    var n, u, t, v, c := e.namespace, e.userId, e.timestamp, LatestValue(e), StatCode(e);
    if !NoColon(n) {
      var a, b := CutAtColon(n);
      p := StatItemUpdatedEvent(a, b + ":" + u, t, Some(StatItem(c, v)));
      ShiftedColon([STAT_KIND], a, b, u, [t, show(v), c]);
      assert StatFields(p, show) == [STAT_KIND] + [a, b + ":" + u] + [t, show(v), c];
      assert StatFields(e, show) == [STAT_KIND] + [a + ":" + b, u] + [t, show(v), c];
      assert |StatFields(p, show)[1]| != |StatFields(e, show)[1]|;
    } else if !NoColon(u) {
      var a, b := CutAtColon(u);
      p := StatItemUpdatedEvent(n, a, b + ":" + t, Some(StatItem(c, v)));
      ShiftedColon([STAT_KIND, n], a, b, t, [show(v), c]);
      assert StatFields(p, show) == [STAT_KIND, n] + [a, b + ":" + t] + [show(v), c];
      assert StatFields(e, show) == [STAT_KIND, n] + [a + ":" + b, t] + [show(v), c];
      assert |StatFields(p, show)[2]| != |StatFields(e, show)[2]|;
    } else if !NoColon(t) {
      var a, b := CutAtColon(t);
      p := StatItemUpdatedEvent(n, u + ":" + a, b, Some(StatItem(c, v)));
      ShiftedColon([STAT_KIND, n], u, a, b, [show(v), c]);
      assert StatFields(p, show) == [STAT_KIND, n] + [u + ":" + a, b] + [show(v), c];
      assert StatFields(e, show) == [STAT_KIND, n] + [u, a + ":" + b] + [show(v), c];
      assert |StatFields(p, show)[2]| != |StatFields(e, show)[2]|;
    } else {
      var codes := Split(c, ':');
      var i, value :| 0 <= i < |codes| - 1 && show(value) == codes[i];
      p := ValueInCode(e, i, value, show);
    }
  }

  /** Fields may be joined before the others are. */
  lemma JoinedFields(head: seq<string>, middle: seq<string>, x: string, tail: seq<string>)
    requires head != [] && middle != [] && tail != []
    ensures Join(head + [Join(middle, ":")] + [x, Join(tail, ":")], ":") == Join(head + middle + ([x] + tail), ":")
  {
    hide Join;
    JoinThree(head, [Join(middle, ":")], [x, Join(tail, ":")]);
    JoinThree(head, middle, [x] + tail);
    JoinOne(Join(middle, ":"));
    JoinTwo(x, Join(tail, ":"));
    JoinConcat([x], tail);
    JoinOne(x);
  }

  lemma LastFieldJoined(head: seq<string>, tail: seq<string>)
    requires head != [] && tail != []
    ensures Join(head + [Join(tail, ":")], ":") == Join(head + tail, ":")
  {
    hide Join;
    JoinConcat(head, [Join(tail, ":")]);
    JoinConcat(head, tail);
    JoinOne(Join(tail, ":"));
  }

  lemma JoinGrows(t: string, rest: seq<string>)
    requires rest != []
    ensures |Join([t] + rest, ":")| > |t|
  {
    JoinConcat([t], rest);
    JoinOne(t);
  }

  /** Part `i` of the last field can be read as the field before it. */
  lemma PartAsField(front: seq<string>, t: string, v: string, codes: seq<string>, i: nat)
    requires front != [] && i < |codes| - 1
    ensures
      Join(front + [Join([t] + ([v] + codes[..i]), ":")] + [codes[i], Join(codes[i + 1..], ":")], ":")
      == Join(front + [t, v] + [Join(codes, ":")], ":")
  {
    hide *;
    var middle, tail := [t] + ([v] + codes[..i]), codes[i + 1..];
    JoinedFields(front, middle, codes[i], tail);
    LastFieldJoined(front + [t, v], codes);
    assert codes == codes[..i] + ([codes[i]] + tail);
    assert front + middle + ([codes[i]] + tail) == front + [t, v] + codes;
  }

  /** The value is read out of the stat code, and everything before it is timestamp. */
  lemma ValueInCode(e: StatItemUpdatedEvent, i: nat, value: real, show: real -> string)
    returns (p: StatItemUpdatedEvent)
    requires i < |Split(StatCode(e), ':')| - 1 && show(value) == Split(StatCode(e), ':')[i]
    ensures StatKey(p, show) == StatKey(e, show) && StatFields(p, show) != StatFields(e, show)
  {
    var n, u, t, v := e.namespace, e.userId, e.timestamp, show(LatestValue(e));
    var codes := Split(StatCode(e), ':');
    JoinOfSplit(StatCode(e), ':');
    hide Split, Join;
    var time, code := Join([t] + ([v] + codes[..i]), ":"), Join(codes[i + 1..], ":");
    p := StatItemUpdatedEvent(n, u, time, Some(StatItem(code, value)));
    JoinGrows(t, [v] + codes[..i]);
    assert StatFields(p, show)[3] != StatFields(e, show)[3];
    PartAsField([STAT_KIND, n, u], t, v, codes, i);
    assert [STAT_KIND, n, u] + [time] + [codes[i], code] == StatFields(p, show);
    assert [STAT_KIND, n, u] + [t, v] + [StatCode(e)] == StatFields(e, show);
  }

  /** A stat event shares its key with no other event whatsoever if and only if no field
      before the value contains a colon and no part of its stat code that is followed by a
      colon looks like a value. */
  lemma StatUnsharedIff(e: StatItemUpdatedEvent, show: real -> string)
    requires forall v :: NoColon(show(v))
    ensures
      StatUnmistakable(e, show)
      <==> forall p :: StatKey(p, show) == StatKey(e, show) ==> StatFields(p, show) == StatFields(e, show)
  {
    hide StatUnmistakable, StatFields;
    if StatUnmistakable(e, show) {
      forall p | StatKey(p, show) == StatKey(e, show)
        ensures StatFields(p, show) == StatFields(e, show)
      {
        UnmistakableIsUnshared(e, p, show);
      }
    } else {
      var p := StatPartner(e, show);
      assert StatKey(p, show) == StatKey(e, show);
    }
  }

  /** With a colon in an outer field two different events of either kind can share a key. */
  lemma ColonsCanCollide(show: real -> string)
    ensures
      var a := OauthTokenGeneratedEvent("n", "u:v", "t", Some(OauthPayload("c")));
      var b := OauthTokenGeneratedEvent("n:u", "v", "t", Some(OauthPayload("c")));
      a != b && OauthKey(a) == OauthKey(b)
    ensures
      var a := StatItemUpdatedEvent("n", "u:v", "t", Some(StatItem("c", 1.0)));
      var b := StatItemUpdatedEvent("n:u", "v", "t", Some(StatItem("c", 1.0)));
      a != b && StatKey(a, show) == StatKey(b, show)
  {
    assert "u:v" == "u" + ":" + "v" && "n:u" == "n" + ":" + "u";
    ShiftedColon([OAUTH_KIND], "n", "u", "v", ["t", "c"]);
    assert [OAUTH_KIND] + ["n", "u:v"] + ["t", "c"] == [OAUTH_KIND, "n", "u:v", "t", "c"];
    assert [OAUTH_KIND] + ["n:u", "v"] + ["t", "c"] == [OAUTH_KIND, "n:u", "v", "t", "c"];
    var rest := ["t", show(1.0), "c"];
    ShiftedColon([STAT_KIND], "n", "u", "v", rest);
    assert [STAT_KIND] + ["n", "u:v"] + rest == [STAT_KIND, "n", "u:v", "t", show(1.0), "c"];
    assert [STAT_KIND] + ["n:u", "v"] + rest == [STAT_KIND, "n:u", "v", "t", show(1.0), "c"];
  }

  /** The two kinds never share a key, whatever their fields contain; so the Redis keys of
      both kinds, which carry one prefix, coincide only where the fingerprint itself
      collides on two different keys. */
  lemma KindsNeverCollide(a: StatItemUpdatedEvent, b: OauthTokenGeneratedEvent, show: real -> string,
                          fingerprint: string -> string)
    ensures StatKey(a, show) != OauthKey(b)
    ensures "telemetry:dedup:" + fingerprint(StatKey(a, show)) == "telemetry:dedup:" + fingerprint(OauthKey(b))
       <==> fingerprint(StatKey(a, show)) == fingerprint(OauthKey(b))
  {
    var x, y := StatKey(a, show), OauthKey(b);
    assert x[0] == 's' && y[0] == 'o';
    var p := "telemetry:dedup:";
    assert (p + fingerprint(x))[|p|..] == fingerprint(x) && (p + fingerprint(y))[|p|..] == fingerprint(y);
  }
}
