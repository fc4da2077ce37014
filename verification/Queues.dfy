/** internal/queue: the task stream with its consumer group, the scheduled ZSET and the dead stream. */
module Queues {
  import opened Basics
  import opened Rows
  import opened Protocol
  import opened Stores
  import Codec

  datatype TaskMessage = TaskMessage(id: TaskId, taskType: string, traceId: string)

  datatype StreamMessage = StreamMessage(redisId: nat, task: TaskMessage, recovered: bool)

  datatype DeadTaskMessage =
    DeadTaskMessage(id: TaskId, taskType: string, traceId: string, lastError: string, retryCount: int)

  datatype ReadError = NoMessages | Malformed(error: Codec.DecodeError)

  // newID: "task_" and the id's digits.
  function TaskText(id: TaskId): string {
    "task_" + Decimal(id)
  }

  /** The message as XADD gets it. */
  function WireOf(m: TaskMessage): Codec.WireMessage {
    Codec.WireMessage(TaskText(m.id), m.taskType, m.traceId)
  }

  function FieldsOf(m: TaskMessage): Codec.Fields {
    Codec.Encode(WireOf(m))
  }

  /** Of what the program publishes, the consumer refuses exactly a blank task type. */
  predicate Readable(m: TaskMessage) {
    m.taskType != ""
  }

  lemma BlankTypesAreRefused(m: TaskMessage)
    ensures Readable(m) ==> Codec.Decode(FieldsOf(m)) == Result.Ok(WireOf(m))
    ensures !Readable(m) ==> Codec.Decode(FieldsOf(m)) == Err(Codec.MissingTaskType)
  {
    assert |TaskText(m.id)| >= 5;
    Codec.RoundTrip(WireOf(m));
    if !Readable(m) { Codec.KeysDiffer(); }
  }

  /** What the consumer makes of the entries read: one unreadable entry refuses the whole batch. */
  function Parsed(messages: seq<StreamMessage>): Result<seq<StreamMessage>, ReadError> {
    if forall i :: 0 <= i < |messages| ==> Readable(messages[i].task) then Result.Ok(messages)
    else Err(Malformed(Codec.MissingTaskType))
  }

  /** streamMessagesFromRedis on the fields of the entries read. */
  method Decoded(messages: seq<StreamMessage>) returns (r: Result<seq<StreamMessage>, ReadError>)
    ensures r == Parsed(messages)
  {
    var batch := seq(|messages|, i requires 0 <= i < |messages| => FieldsOf(messages[i].task));
    forall i | 0 <= i < |messages|
      ensures Codec.Decode(batch[i]).Ok? <==> Readable(messages[i].task)
      ensures Codec.Decode(batch[i]).Err? ==> Codec.Decode(batch[i]) == Err(Codec.MissingTaskType)
    {
      BlankTypesAreRefused(messages[i].task);
    }
    var decoded := Codec.DecodeAll(batch);
    r := if decoded.Ok? then Result.Ok(messages) else Err(Malformed(decoded.error));
  }

  function Delivered(entries: seq<TaskMessage>, ids: seq<nat>, recovered: bool): seq<StreamMessage>
    requires forall i :: 0 <= i < |ids| ==> ids[i] < |entries|
  {
    seq(|ids|, i requires 0 <= i < |ids| => StreamMessage(ids[i], entries[ids[i]], recovered))
  }

  function Range(from: nat, n: nat): seq<nat> {
    seq(n, i requires 0 <= i < n => from + i)
  }

  lemma InRange(from: nat, n: nat, e: nat)
    ensures e in Range(from, n) <==> from <= e < from + n
  {
    if from <= e < from + n { assert Range(from, n)[e - from] == e; }
  }

  lemma ParsedRange(entries: seq<TaskMessage>, from: nat, n: nat)
    requires from + n <= |entries|
    ensures
      Parsed(Delivered(entries, Range(from, n), false)).Ok? <==>
        forall e :: from <= e < from + n ==> entries[e].taskType != ""
  {
    var messages := Delivered(entries, Range(from, n), false);
    assert forall i :: 0 <= i < |messages| ==> messages[i].task == entries[from + i];
    if Parsed(messages).Ok? {
      forall e | from <= e < from + n ensures entries[e].taskType != "" { assert Readable(messages[e - from].task); }
    }
  }

  /** The pending entries list after the entries ids were handed to a consumer at now. */
  function Handed(pel: map<nat, int>, ids: seq<nat>, now: int): map<nat, int> {
    pel + map e | e in ids :: now
  }

  lemma HandedNext(pel: map<nat, int>, ids: seq<nat>, e: nat, now: int)
    ensures Handed(pel, ids + [e], now) == Handed(pel, ids, now)[e := now]
  {}

  lemma DeliveredNext(entries: seq<TaskMessage>, ids: seq<nat>, e: nat, recovered: bool)
    requires e < |entries| && forall i :: 0 <= i < |ids| ==> ids[i] < |entries|
    ensures Delivered(entries, ids + [e], recovered)
         == Delivered(entries, ids, recovered) + [StreamMessage(e, entries[e], recovered)]
  {}

  // What XADD gets of a dead letter.
  function DeadFieldsOf(m: DeadTaskMessage): Codec.Fields {
    Codec.EncodeDead(Codec.DeadWire(TaskText(m.id), m.taskType, m.traceId, m.lastError, m.retryCount))
  }

  /** Two dead letters with the same fields are the same: none of what the record says is lost on the wire. */
  lemma DeadLettersAreTold(m: DeadTaskMessage, n: DeadTaskMessage)
    ensures DeadFieldsOf(m) == DeadFieldsOf(n) <==> m == n
  {
    if DeadFieldsOf(m) == DeadFieldsOf(n) {
      Codec.DeadFieldsTellAll(Codec.DeadWire(TaskText(m.id), m.taskType, m.traceId, m.lastError, m.retryCount),
                              Codec.DeadWire(TaskText(n.id), n.taskType, n.traceId, n.lastError, n.retryCount));
      assert TaskText(m.id)[5..] == Decimal(m.id) && TaskText(n.id)[5..] == Decimal(n.id);
      if m.id != n.id { DecimalsDiffer(m.id, n.id); }
    }
  }

  function LogOf(entries: seq<TaskMessage>, attempts: seq<int>): seq<Entry>
    requires |attempts| == |entries|
  {
    seq(|entries|, i requires 0 <= i < |entries| => Entry(entries[i].id, attempts[i]))
  }

  function DeadLogOf(entries: seq<DeadTaskMessage>): seq<DeadEntry> {
    seq(|entries|, i requires 0 <= i < |entries| => DeadEntry(entries[i].id, entries[i].lastError, entries[i].retryCount))
  }

  predicate IdleFor(pel: map<nat, int>, e: nat, minIdle: nat, now: int) {
    e in pel && pel[e] + minIdle <= now
  }

  /** The first count entries, in stream order, that have been pending for minIdle. */
  ghost predicate IsPendingScan(pel: map<nat, int>, minIdle: nat, now: int, count: nat, ids: seq<nat>) {
    && |ids| <= count
    && (forall i :: 0 <= i < |ids| ==> IdleFor(pel, ids[i], minIdle, now))
    && (forall i, j :: 0 <= i < j < |ids| ==> ids[i] < ids[j])
    && (forall e: nat :: IdleFor(pel, e, minIdle, now) && e !in ids ==>
          |ids| == count && forall i :: 0 <= i < |ids| ==> ids[i] < e)
  }

  class TaskStream {
    var entries: seq<TaskMessage>   // an entry's identifier is its position
    ghost var attempts: seq<int>    // the attempt each entry was published for
    var delivered: nat              // the group's last delivered identifier
    var pel: map<nat, int>          // un-acked entries and when they were last delivered
    var grouped: bool               // the consumer group exists

    ghost predicate Valid()
      reads this
    {
      && |attempts| == |entries|
      && delivered <= |entries|
      && (forall e :: e in pel ==> e < delivered)
      && (!grouped ==> delivered == 0 && pel == map[])
    }

    ghost function Log(): seq<Entry>
      requires Valid()
      reads this
    {
      LogOf(entries, attempts)
    }

    constructor ()
      ensures Valid() && Log() == [] && pel == map[] && delivered == 0
    {
      entries, attempts, delivered, pel, grouped := [], [], 0, map[], false;
    }

    /** XADD. */
    method PublishTask(m: TaskMessage, ghost attempt: int)
      requires Valid()
      modifies this
      ensures Valid() && entries == old(entries) + [m] && attempts == old(attempts) + [attempt]
      ensures Log() == old(Log()) + [Entry(m.id, attempt)]
      ensures delivered == old(delivered) && pel == old(pel) && grouped == old(grouped)
    {
      entries := entries + [m];
      attempts := attempts + [attempt];
      assert LogOf(entries, attempts) == LogOf(old(entries), old(attempts)) + [Entry(m.id, attempt)];
    }

    /** XGROUP CREATE ... MKSTREAM from the start of the stream; an existing group is left alone. */
    method EnsureGroup()
      requires Valid()
      modifies this`grouped
      ensures Valid() && grouped
    {
      grouped := true;
    }

    /** How many entries are left to deliver, but at most n. */
    function Deliverable(n: nat): nat
      requires delivered <= |entries|
      reads this
    {
      if n < |entries| - delivered then n else |entries| - delivered
    }

    /** The reply of XREADGROUP: the next entries of the stream, now pending. */
    method Deliver(n: nat, now: int) returns (messages: seq<StreamMessage>)
      requires Valid() && grouped
      modifies this
      ensures Valid() && entries == old(entries) && attempts == old(attempts) && grouped
      ensures delivered == old(delivered) + old(Deliverable(n))
      ensures pel == Handed(old(pel), Range(old(delivered), old(Deliverable(n))), now)
      ensures messages == Delivered(entries, Range(old(delivered), old(Deliverable(n))), false)
    {
      messages := [];
      var first, k := delivered, Deliverable(n);
      assert Handed(pel, Range(first, 0), now) == pel;
      for i := 0 to k
        invariant Valid() && entries == old(entries) && attempts == old(attempts) && grouped
        invariant delivered == first + i
        invariant pel == Handed(old(pel), Range(first, i), now)
        invariant messages == Delivered(entries, Range(first, i), false)
      {
        ghost var ids := Range(first, i);
        assert Range(first, i + 1) == ids + [delivered];
        HandedNext(old(pel), ids, delivered, now);
        DeliveredNext(entries, ids, delivered, false);
        messages := messages + [StreamMessage(delivered, entries[delivered], false)];
        pel := pel[delivered := now];
        delivered := delivered + 1;
      }
    }

    /** XREADGROUP ">" COUNT count: the next entries of the stream, each one delivered once.  They are pending from
        then on, also when one of them cannot be decoded and none is returned. */
    method ReadBatch(count: int, now: int) returns (r: Result<seq<StreamMessage>, ReadError>)
      requires Valid()
      modifies this
      ensures Valid() && entries == old(entries) && attempts == old(attempts) && grouped
      ensures
        var k := if old(grouped) then old(Deliverable(if count <= 0 then 1 else count)) else 0;
        && delivered == old(delivered) + k
        && pel == Handed(old(pel), Range(old(delivered), k), now)
        && r == if k == 0 then Err(NoMessages) else Parsed(Delivered(entries, Range(old(delivered), k), false))
      ensures
        var n, left := if count <= 0 then 1 else count, |entries| - old(delivered);
        delivered == old(delivered) + if !old(grouped) then 0 else if n < left then n else left
      ensures forall e: nat ::
        && (e in pel <==> e in old(pel) || old(delivered) <= e < delivered)
        && (e in pel ==> pel[e] == if old(delivered) <= e < delivered then now else old(pel)[e])
      ensures r.Ok? ==> r.value != [] && |r.value| == delivered - old(delivered) && forall i :: 0 <= i < |r.value| ==>
        r.value[i] == StreamMessage(old(delivered) + i, entries[old(delivered) + i], false)
      ensures delivered > old(delivered) ==>
        (r.Ok? <==> forall e :: old(delivered) <= e < delivered ==> entries[e].taskType != "")
    {
      if !grouped {
        EnsureGroup();
        assert Handed(pel, Range(delivered, 0), now) == pel;
        return Err(NoMessages);
      }
      var messages := Deliver(if count <= 0 then 1 else count, now);
      if messages == [] {
        return Err(NoMessages);
      }
      r := Decoded(messages);
      ParsedRange(entries, old(delivered), |messages|);
      forall e: nat ensures e in Range(old(delivered), |messages|) <==> old(delivered) <= e < delivered {
        InRange(old(delivered), |messages|, e);
      }
    }

    /** XPENDING with IDLE. */
    method PendingIds(minIdle: nat, count: nat, now: int) returns (ids: seq<nat>)
      requires Valid()
      ensures IsPendingScan(pel, minIdle, now, count, ids)
    {
      ids := [];
      var e := 0;
      while e < delivered && |ids| < count
        invariant e <= delivered && |ids| <= count
        invariant forall i :: 0 <= i < |ids| ==> IdleFor(pel, ids[i], minIdle, now) && ids[i] < e
        invariant forall i, j :: 0 <= i < j < |ids| ==> ids[i] < ids[j]
        invariant forall x: nat :: x < e && IdleFor(pel, x, minIdle, now) ==> x in ids
      {
        if e in pel && pel[e] + minIdle <= now {
          ids := ids + [e];
        }
        e := e + 1;
      }
    }

    /** XCLAIM of pending entries. */
    method Claim(ids: seq<nat>, now: int) returns (messages: seq<StreamMessage>)
      requires Valid() && forall i :: 0 <= i < |ids| ==> ids[i] in pel
      modifies this`pel
      ensures Valid() && pel == Handed(old(pel), ids, now)
      ensures (forall i :: 0 <= i < |ids| ==> ids[i] < |entries|) && messages == Delivered(entries, ids, true)
    {
      messages := [];
      ghost var was, done: seq<nat> := pel, [];
      assert Handed(was, done, now) == pel;
      for i := 0 to |ids|
        invariant done == ids[..i] && entries == old(entries)
        invariant pel == Handed(was, done, now)
        invariant forall k :: 0 <= k < |done| ==> done[k] < |entries|
        invariant messages == Delivered(entries, done, true)
      {
        assert ids[i] in was;
        HandedNext(was, done, ids[i], now);
        DeliveredNext(entries, done, ids[i], true);
        messages := messages + [StreamMessage(ids[i], entries[ids[i]], true)];
        pel := pel[ids[i] := now];
        done := done + [ids[i]];
      }
      assert done == ids;
      assert forall e :: e in ids ==> e in was;
    }

    /** Takes over what other consumers left pending for too long: XPENDING, then XCLAIM.  The entries are claimed also
        when one of them cannot be decoded and none is returned. */
    method ClaimPending(minIdle: nat, count: nat, now: int)
      returns (r: Result<seq<StreamMessage>, ReadError>, ghost ids: seq<nat>)
      requires Valid()
      modifies this
      ensures Valid() && entries == old(entries) && attempts == old(attempts) && delivered == old(delivered) && grouped
      ensures IsPendingScan(old(pel), minIdle, now, count, ids)
      ensures pel == Handed(old(pel), ids, now)
      ensures forall i :: 0 <= i < |ids| ==> ids[i] < |entries|
      ensures r == Parsed(Delivered(entries, ids, true))
      ensures forall i :: 0 <= i < |ids| ==> ids[i] in old(pel) && now - old(pel)[ids[i]] >= minIdle
      ensures forall e: nat ::
        (e in pel <==> e in old(pel)) && (e in pel ==> pel[e] == if e in ids then now else old(pel)[e])
      ensures r.Ok? ==> |r.value| == |ids| && forall i :: 0 <= i < |ids| ==>
        r.value[i] == StreamMessage(ids[i], entries[ids[i]], true)
    {
      if !grouped {
        EnsureGroup();
        r, ids := Ok([]), [];
        assert Handed(pel, ids, now) == pel && Delivered(entries, ids, true) == [];
        return;
      }
      var idle := PendingIds(minIdle, count, now);
      ids := idle;
      assert forall i :: 0 <= i < |idle| ==> IdleFor(pel, idle[i], minIdle, now);
      var messages := Claim(idle, now);
      r := Decoded(messages);
    }

    /** XACK: an entry that is not pending is not an error. */
    method Ack(e: nat)
      requires Valid()
      modifies this`pel
      ensures Valid() && pel == old(pel) - {e}
    {
      pel := pel - {e};
    }
  }

  class ScheduledQueue {
    var members: map<TaskId, int>

    constructor ()
      ensures members == map[]
    {
      members := map[];
    }

    /** ZADD with the whole second of run_at as score. */
    method ScheduleTask(id: TaskId, runAt: int)
      modifies this
      ensures members == old(members)[id := UnixSeconds(runAt)]
      ensures members[id] * SECOND <= runAt < (members[id] + 1) * SECOND
    {
      WholeSeconds(runAt);
      members := members[id := UnixSeconds(runAt)];
    }

    /** ZRANGE BYSCORE -inf now LIMIT 0 limit. */
    method DueTaskIDs(now: int, limit: int) returns (ids: seq<TaskId>)
      ensures limit <= 0 ==> ids == []
      ensures limit > 0 ==> IsScan(DueMembers(members, now), ScoreRank(members), limit, ids)
      ensures |ids| <= (if limit < 0 then 0 else limit)
      ensures forall i :: 0 <= i < |ids| ==> ids[i] in members && members[ids[i]] * SECOND <= now
      ensures forall i, j :: 0 <= i < j < |ids| ==>
        members[ids[i]] < members[ids[j]] || (members[ids[i]] == members[ids[j]] && ids[i] < ids[j])
      ensures forall id :: limit > 0 && id in members && members[id] * SECOND <= now && id !in ids ==>
        |ids| == limit && forall i :: 0 <= i < |ids| ==>
          members[ids[i]] < members[id] || (members[ids[i]] == members[id] && ids[i] < id)
    {
      if limit <= 0 {
        return [];
      }
      var due := set id | id in members && members[id] <= UnixSeconds(now);
      ids := OrderByLimit(due, ScoreRank(members), limit);
      LeftOut(due, ScoreRank(members), limit, ids);
      WholeSeconds(now);
    }

    /** ZREM. */
    method Remove(id: TaskId)
      modifies this
      ensures members == old(members) - {id}
    {
      members := members - {id};
    }
  }

  class DeadStream {
    var entries: seq<DeadTaskMessage>

    ghost function Log(): seq<DeadEntry>
      reads this
    {
      DeadLogOf(entries)
    }

    constructor ()
      ensures Log() == []
    {
      entries := [];
    }

    /** XADD to the dead stream. */
    method PublishDead(m: DeadTaskMessage)
      modifies this
      ensures entries == old(entries) + [m]
      ensures Log() == old(Log()) + [DeadEntry(m.id, m.lastError, m.retryCount)]
    {
      entries := entries + [m];
      assert DeadLogOf(entries) == DeadLogOf(old(entries)) + [DeadEntry(m.id, m.lastError, m.retryCount)];
    }
  }
}
