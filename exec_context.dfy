// The execution context of a flow run (libs/utils/vs/VsExecContext.ts): a
// key-value store whose keys expire.  Setting a key schedules a clean-up
// timer and cancels the key's earlier one; the timers of every context are
// registered in one shared task book (the class's static `scheduledTasks`
// and `taskCounter`).  Time is logical: a timer carries the instant it is due
// and fires only at or after it.

module ExecContext {
  import opened Wrappers
  import Strs

  /** TimeUnit. */
  datatype TimeUnit = Milliseconds | Seconds | Minutes | Hours | Days

  /** TimeUnitHelper.convertToMilliseconds. */
  function ToMilliseconds(duration: int, unit: TimeUnit): int
  {
    match unit
    case Milliseconds => duration
    case Seconds => duration * 1000
    case Minutes => duration * 60 * 1000
    case Hours => duration * 60 * 60 * 1000
    case Days => duration * 24 * 60 * 60 * 1000
  }

  /** Each unit is the previous one scaled by its factor: a second is a
      thousand milliseconds, a minute sixty seconds, an hour sixty minutes and
      a day twenty-four hours. */
  lemma ToMillisecondsScales(d: int)
    ensures ToMilliseconds(d, Milliseconds) == d
    ensures ToMilliseconds(d, Seconds) == ToMilliseconds(1000 * d, Milliseconds)
    ensures ToMilliseconds(d, Minutes) == ToMilliseconds(60 * d, Seconds)
    ensures ToMilliseconds(d, Hours) == ToMilliseconds(60 * d, Minutes)
    ensures ToMilliseconds(d, Days) == ToMilliseconds(24 * d, Hours)
    ensures ToMilliseconds(d, Days) == 86400000 * d
  {
  }

  /** The delay Node's setTimeout applies: one outside 1..2^31-1 milliseconds
      becomes one millisecond. */
  function TimerDelay(ms: int): (r: int)
    ensures 1 <= r <= 0x7FFF_FFFF
    ensures 1 <= ms <= 0x7FFF_FFFF ==> r == ms
  {
    if ms < 1 || ms > 0x7FFF_FFFF then 1 else ms
  }

  /** A duration of 25 days or more overflows the timer and expires after one
      millisecond. */
  lemma LongDurationExpiresAtOnce(d: int)
    requires d >= 25
    ensures TimerDelay(ToMilliseconds(d, Days)) == 1
  {
  }

  /** A scheduled clean-up: its task key, the context key it clears and the
      instant it is due. */
  datatype ScheduledTask = ScheduledTask(taskKey: string, target: string, dueAt: int)

  /** `task_${n}_${key}`. */
  function TaskKey(n: nat, key: string): string
  {
    "task_" + Strs.NatToString(n) + "_" + key
  }

  /** The static part of VsExecContext: the pending tasks of every context
      and the task counter. */
  class TaskBook {
    var scheduled: map<string, ScheduledTask>
    var counter: nat

    constructor ()
      ensures scheduled == map[] && counter == 0
    {
      scheduled := map[];
      counter := 0;
    }
  }

  class Context<V> {
    const book: TaskBook
    var contextMap: map<string, V>
    var expiredTaskMap: map<string, ScheduledTask>

    /** Every stored key has exactly one clean-up task, which clears it. */
    ghost predicate Valid()
      reads this
    {
      && contextMap.Keys == expiredTaskMap.Keys
      && forall k :: k in expiredTaskMap ==> expiredTaskMap[k].target == k
    }

    constructor (book: TaskBook)
      ensures this.book == book && contextMap == map[] && expiredTaskMap == map[]
      ensures Valid()
    {
      this.book := book;
      contextMap := map[];
      expiredTaskMap := map[];
    }

    /** `get`: the stored value, `undefined` when absent. */
    function Get(key: string): Option<V>
      reads this
    {
      if key in contextMap then Some(contextMap[key]) else None
    }

    /** getContextSize. */
    function ContextSize(): nat
      reads this
    {
      |contextMap|
    }

    /** `set`: cancel the key's pending task, store the value and schedule a
        new task, due after the duration, under a fresh task number. */
    method Set(key: string, value: V, duration: int, unit: TimeUnit, now: int)
      modifies this, book
      requires Valid()
      ensures Valid()
      ensures contextMap == old(contextMap)[key := value]
      ensures Get(key) == Some(value)
      ensures forall k :: k != key ==> Get(k) == old(Get(k))
      ensures book.counter == old(book.counter) + 1
      ensures var t := ScheduledTask(TaskKey(book.counter, key), key,
                                     now + TimerDelay(ToMilliseconds(duration, unit)));
        && expiredTaskMap == old(expiredTaskMap)[key := t]
        && book.scheduled == (if key in old(expiredTaskMap)
                              then old(book.scheduled) - {old(expiredTaskMap)[key].taskKey}
                              else old(book.scheduled))[t.taskKey := t]
    {
      if key in expiredTaskMap {
        book.scheduled := book.scheduled - {expiredTaskMap[key].taskKey};
      }
      contextMap := contextMap[key := value];
      var delayMs := ToMilliseconds(duration, unit);
      book.counter := book.counter + 1;
      var taskKey := TaskKey(book.counter, key);
      var task := ScheduledTask(taskKey, key, now + TimerDelay(delayMs));
      expiredTaskMap := expiredTaskMap[key := task];
      book.scheduled := book.scheduled[taskKey := task];
    }

    /** The clean-up timer of `key` fires: the key and its task go, nothing
        else changes. */
    method Expire(key: string, now: int)
      modifies this, book
      requires Valid()
      requires key in expiredTaskMap && now >= expiredTaskMap[key].dueAt
      ensures Valid()
      ensures contextMap == old(contextMap) - {key}
      ensures expiredTaskMap == old(expiredTaskMap) - {key}
      ensures book.scheduled == old(book.scheduled) - {old(expiredTaskMap)[key].taskKey}
      ensures book.counter == old(book.counter)
      ensures ContextSize() == old(ContextSize()) - 1
    {
      var taskKey := expiredTaskMap[key].taskKey;
      contextMap := contextMap - {key};
      expiredTaskMap := expiredTaskMap - {key};
      book.scheduled := book.scheduled - {taskKey};
    }

    /** `clear`: cancel every pending task of this context and empty both
        maps. */
    method Clear()
      modifies this, book
      ensures Valid()
      ensures contextMap == map[] && expiredTaskMap == map[]
      ensures book.scheduled == old(book.scheduled) - TaskKeys(old(expiredTaskMap))
      ensures book.counter == old(book.counter)
    {
      var rest := Cancel(book.scheduled, expiredTaskMap);
      book.scheduled := rest;
      contextMap := map[];
      expiredTaskMap := map[];
    }
  }

  /** The task keys of a table of tasks. */
  function TaskKeys(m: map<string, ScheduledTask>): set<string>
  {
    set k | k in m :: m[k].taskKey
  }

  /** The `forEach` of `clear`: delete the task of every entry of `m` from
      the shared table `s`. */
  method Cancel(s: map<string, ScheduledTask>, m: map<string, ScheduledTask>)
    returns (rest: map<string, ScheduledTask>)
    ensures rest == s - TaskKeys(m)
  {
    var pending := m.Keys;
    rest := s;
    while pending != {}
      invariant pending <= m.Keys
      invariant rest == s - TaskKeys(m - pending)
      decreases |pending|
    {
      var k :| k in pending;
      TaskKeysAdd(m, pending, k);
      rest := rest - {m[k].taskKey};
      pending := pending - {k};
    }
    assert m - {} == m;
  }

  lemma TaskKeysAdd(m: map<string, ScheduledTask>, pending: set<string>, k: string)
    requires k in pending && pending <= m.Keys
    ensures TaskKeys(m - (pending - {k})) == TaskKeys(m - pending) + {m[k].taskKey}
  {
    var a := m - (pending - {k});
    var b := m - pending;
    assert k in a && a[k] == m[k];
    forall x | x in TaskKeys(a) ensures x in TaskKeys(b) + {m[k].taskKey} {
      var y :| y in a && a[y].taskKey == x;
      if y != k {
        assert y in b && b[y] == a[y];
      }
    }
    forall x | x in TaskKeys(b) + {m[k].taskKey} ensures x in TaskKeys(a) {
      if x != m[k].taskKey {
        var y :| y in b && b[y].taskKey == x;
        assert y in a && a[y] == b[y];
      }
    }
  }

  /** In a valid context, the number of stored keys is the number of
      pending clean-up tasks. */
  lemma SizeIsPendingTasks<V>(c: Context<V>)
    requires c.Valid()
    ensures c.ContextSize() == |c.expiredTaskMap|
  {
    assert c.contextMap.Keys == c.expiredTaskMap.Keys;
  }
}
