// The node user-log service of the runtime
// (apps/vs-run/src/vs-node-user-log/vs-node-user-log.service.ts): log
// entries of flow nodes are queued in memory by persistVsNodeUserLog and
// handed to the log store in batches by a timer.  The clock, the zone
// conversion and the log store's answer enter as parameters; the batches
// handed to the store are recorded in `sent`.

module UserLog {
  import opened Wrappers

  /** MAX_SAVE_LOG_BATCH_SIZE. */
  const MaxSaveLogBatchSize := 7500
  /** maxQueueSize, ten batches. */
  const MaxQueueSize := MaxSaveLogBatchSize * 10

  /** VsNodeUserLogSaveReq; instants are milliseconds since the epoch. */
  datatype LogEntry = LogEntry(
    msgId: string,
    nodeId: string,
    nodeName: string,
    userLogStr: string,
    requestTime: int,
    createTime: int)

  /** The entry persistVsNodeUserLog builds.  It starts with empty strings
      and the current instant in both times; the strings are copied, and then
      the current instant converted to Asia/Shanghai (`zoned`, `None` when the
      conversion throws) is taken.  A throw leaves both times at their
      defaults. */
  function BuildEntry(msgId: string, nodeId: string, nodeName: string, userLogStr: string,
                      requestTime: int, now: int, zoned: Option<int>): LogEntry
  {
    var e := LogEntry("", "", "", "", now, now);
    var e := e.(msgId := msgId, nodeId := nodeId, nodeName := nodeName, userLogStr := userLogStr);
    match zoned
    case None => e
    case Some(z) => e.(requestTime := requestTime, createTime := z)
  }

  /** The strings always reach the entry; the request time and the zoned
      creation time do only when the zone conversion succeeds, and otherwise
      both times are the instant the entry was built. */
  lemma BuildEntryFields(msgId: string, nodeId: string, nodeName: string, userLogStr: string,
                         requestTime: int, now: int, zoned: Option<int>)
    ensures var e := BuildEntry(msgId, nodeId, nodeName, userLogStr, requestTime, now, zoned);
      && e.msgId == msgId && e.nodeId == nodeId && e.nodeName == nodeName && e.userLogStr == userLogStr
      && (zoned.Some? ==> e.requestTime == requestTime && e.createTime == zoned.value)
      && (zoned.None? ==> e.requestTime == now && e.createTime == now)
  {
  }

  /** addLog on a queue: appended at the tail below the bound, dropped at
      it. */
  function Enqueue(q: seq<LogEntry>, e: LogEntry): seq<LogEntry>
  {
    if |q| < MaxQueueSize then q + [e] else q
  }

  /** A queue within the bound stays within it; an entry is kept exactly
      when there is room, and the entries already queued are never
      disturbed. */
  lemma EnqueueSpec(q: seq<LogEntry>, e: LogEntry)
    requires |q| <= MaxQueueSize
    ensures |Enqueue(q, e)| <= MaxQueueSize
    ensures Enqueue(q, e)[..|q|] == q
    ensures |q| < MaxQueueSize <==> Enqueue(q, e) == q + [e]
    ensures |q| == MaxQueueSize <==> Enqueue(q, e) == q
  {
  }

  /** The number of entries one save takes. */
  function BatchSize(q: seq<LogEntry>): nat
  {
    if |q| < MaxSaveLogBatchSize then |q| else MaxSaveLogBatchSize
  }

  /** What a save reports: nothing to do, a stored batch or a failed one
      (whose entries are lost). */
  datatype SaveReport = Idle | Saved(count: nat) | SaveFailed(count: nat)

  /** The batches handed to the store, one after the other. */
  function Flatten(batches: seq<seq<LogEntry>>): seq<LogEntry>
  {
    if |batches| == 0 then [] else Flatten(batches[..|batches| - 1]) + batches[|batches| - 1]
  }

  /** One saveLog on the queue `q` with the batches `sent` so far: nothing on
      an empty queue, otherwise the first batch leaves the queue for the
      store. */
  function Save(q: seq<LogEntry>, sent: seq<seq<LogEntry>>): (seq<LogEntry>, seq<seq<LogEntry>>)
  {
    if |q| == 0 then (q, sent) else (q[BatchSize(q)..], sent + [q[..BatchSize(q)]])
  }

  /** `n` saves in a row. */
  function Saves(q: seq<LogEntry>, sent: seq<seq<LogEntry>>, n: nat): (seq<LogEntry>, seq<seq<LogEntry>>)
    decreases n
  {
    if n == 0 then (q, sent) else Saves(Save(q, sent).0, Save(q, sent).1, n - 1)
  }

  class UserLogService {
    var queue: seq<LogEntry>
    var sent: seq<seq<LogEntry>>
    /** Every entry the queue ever took, in arrival order. */
    ghost var accepted: seq<LogEntry>

    /** The queue never outgrows its bound, and it is first in, first out:
        what was handed to the store followed by what waits is exactly what
        was accepted. */
    ghost predicate Valid()
      reads this
    {
      && |queue| <= MaxQueueSize
      && Flatten(sent) + queue == accepted
    }

    constructor ()
      ensures queue == [] && sent == [] && Valid()
    {
      queue := [];
      sent := [];
      accepted := [];
    }

    /** addLog. */
    method AddLog(e: LogEntry)
      modifies this
      requires Valid()
      ensures Valid()
      ensures queue == Enqueue(old(queue), e) && sent == old(sent)
      ensures accepted == old(accepted) + (if |old(queue)| < MaxQueueSize then [e] else [])
    {
      if |queue| < MaxQueueSize {
        queue := queue + [e];
        accepted := accepted + [e];
      }
    }

    /** persistVsNodeUserLog: build the entry and, whatever happened while
        building it, offer it to the queue. */
    method PersistVsNodeUserLog(msgId: string, nodeId: string, nodeName: string, userLogStr: string,
                                requestTime: int, now: int, zoned: Option<int>)
      modifies this
      requires Valid()
      ensures Valid()
      ensures queue == Enqueue(old(queue), BuildEntry(msgId, nodeId, nodeName, userLogStr, requestTime, now, zoned))
      ensures sent == old(sent)
      ensures |accepted| == |old(accepted)| + (if |old(queue)| < MaxQueueSize then 1 else 0)
    {
      var e := LogEntry("", "", "", "", now, now);
      e := e.(msgId := msgId, nodeId := nodeId, nodeName := nodeName, userLogStr := userLogStr);
      if zoned.Some? {
        e := e.(requestTime := requestTime, createTime := zoned.value);
      }
      AddLog(e);
    }

    /** saveLog: take up to a batch from the head of the queue and hand it to
        the store, whose answer is `saveOk`.  A failure is only logged: the
        batch is not put back. */
    method SaveLog(saveOk: bool) returns (report: SaveReport)
      modifies this
      requires Valid()
      ensures Valid()
      ensures old(queue) == [] ==> report == Idle && queue == [] && sent == old(sent)
      ensures old(queue) != [] ==>
        && var n := BatchSize(old(queue));
        && queue == old(queue)[n..]
        && sent == old(sent) + [old(queue)[..n]]
        && report == (if saveOk then Saved(n) else SaveFailed(n))
      ensures (queue, sent) == Save(old(queue), old(sent))
      ensures accepted == old(accepted)
    {
      if |queue| == 0 {
        return Idle;
      }
      ghost var f := Flatten(sent);
      ghost var q0 := queue;
      var curData := TakeBatch();
      assert (f + curData) + queue == f + q0 by {
        assert curData + queue == q0;
      }
      FlattenAppend(sent, curData);
      sent := sent + [curData];
      report := if saveOk then Saved(|curData|) else SaveFailed(|curData|);
    }

    /** The shift loop of saveLog: move up to a batch from the head of the
        queue into the batch, stopping early when the queue runs dry. */
    method TakeBatch() returns (curData: seq<LogEntry>)
      modifies this
      ensures var n := BatchSize(old(queue));
        curData == old(queue)[..n] && queue == old(queue)[n..]
      ensures sent == old(sent) && accepted == old(accepted)
    {
      ghost var q0 := queue;
      curData := [];
      var i := 0;
      while i < MaxSaveLogBatchSize
        invariant 0 <= i <= MaxSaveLogBatchSize
        invariant |curData| == i
        invariant curData + queue == q0
        invariant sent == old(sent) && accepted == old(accepted)
        decreases MaxSaveLogBatchSize - i
      {
        if |queue| == 0 {
          break;
        }
        assert (curData + [queue[0]]) + queue[1..] == curData + queue;
        curData := curData + [queue[0]];
        queue := queue[1..];
        i := i + 1;
      }
      assert curData == q0[..|curData|] && queue == q0[|curData|..];
    }
  }

  lemma FlattenAppend(bs: seq<seq<LogEntry>>, b: seq<LogEntry>)
    ensures Flatten(bs + [b]) == Flatten(bs) + b
  {
    assert (bs + [b])[..|bs|] == bs;
  }

  /** Saves hand the store the queue in order and lose nothing from it: after
      `n` saves the store has been handed, after what it had, the first
      min(length, n * 7500) entries of the queue, and the rest still waits. */
  lemma {:induction false} SavesInOrder(q: seq<LogEntry>, sent: seq<seq<LogEntry>>, n: nat)
    ensures var k := if |q| < n * MaxSaveLogBatchSize then |q| else n * MaxSaveLogBatchSize;
      && Saves(q, sent, n).0 == q[k..]
      && Flatten(Saves(q, sent, n).1) == Flatten(sent) + q[..k]
    decreases n
  {
    if n == 0 {
      assert Flatten(sent) + q[..0] == Flatten(sent);
    } else if |q| == 0 {
      SavesInOrder(q, sent, n - 1);
    } else {
      var b := BatchSize(q);
      var q1, s1 := q[b..], sent + [q[..b]];
      SavesInOrder(q1, s1, n - 1);
      var k1 := if |q1| < (n - 1) * MaxSaveLogBatchSize then |q1| else (n - 1) * MaxSaveLogBatchSize;
      var k := if |q| < n * MaxSaveLogBatchSize then |q| else n * MaxSaveLogBatchSize;
      assert b + k1 == k;
      assert Saves(q, sent, n) == Saves(q1, s1, n - 1);
      FlattenAppend(sent, q[..b]);
      assert q1[k1..] == q[k..];
      assert Flatten(s1) + q1[..k1] == Flatten(sent) + (q[..b] + q1[..k1]);
      assert q[..b] + q1[..k1] == q[..k];
    }
  }
}
