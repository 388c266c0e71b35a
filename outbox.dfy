/** The Telegram delivery outbox: a table of pending operations keyed by what
    they act on (a message to edit, a message to delete, ...). A newer operation
    on the same key replaces the older one, which completes with `None`; one
    worker executes the most urgent operation at a time, paced by a per-chat
    interval and by the server's retry-after replies. The worker loop is split
    into its two locked halves, `NextStep` and `Finish`; the executing call and
    the clock sit between them, so any `Enqueue`, `DropPending` or `Close` that
    runs meanwhile can be placed there. */
module Outbox {
  import opened Wrappers
  import Json

  const SEND_PRIORITY: int := 0
  const DELETE_PRIORITY: int := 1
  const EDIT_PRIORITY: int := 2

  /** An operation waiting for delivery; `done`/`result` stand for the
      completion event and the value the caller receives. */
  class OutboxOp {
    const priority: int
    var queuedAt: real
    const chatId: Option<int>
    const opLabel: Option<string>
    var done: bool
    var result: Json.Value

    constructor (priority: int, queuedAt: real, chatId: Option<int>, opLabel: Option<string>)
      ensures this.priority == priority && this.queuedAt == queuedAt
      ensures this.chatId == chatId && this.opLabel == opLabel
      ensures !done && result == Json.Null
    {
      this.priority := priority;
      this.queuedAt := queuedAt;
      this.chatId := chatId;
      this.opLabel := opLabel;
      done := false;
      result := Json.Null;
    }

    /** `set_result`: the first result wins; later calls change nothing. */
    method SetResult(r: Json.Value)
      modifies this
      ensures done
      ensures result == if old(done) then old(result) else r
      ensures queuedAt == old(queuedAt)
    {
      if done {
        return;
      }
      result := r;
      done := true;
    }
  }

  /** The ordering of `pick_locked`: by priority, then by the time first queued. */
  predicate Before(a: OutboxOp, b: OutboxOp)
    reads a, b
  {
    a.priority < b.priority || (a.priority == b.priority && a.queuedAt < b.queuedAt)
  }

  /** What one completed execution of an operation returned. */
  datatype Outcome =
    /** `execute()` returned a value. */
    | Returned(value: Json.Value)
    /** `execute()` raised `error`, something other than `RetryAfter` (passed to `on_error`). */
    | Failed(error: string)
    /** `execute()` raised `RetryAfter(retry_after)`. */
    | RetryAfter(retryAfter: real)

  /** What the worker does after taking the lock. */
  datatype Step<K> =
    /** Closed with nothing pending: the worker ends. */
    | Exit
    /** Nothing pending: the worker waits on the condition. */
    | Wait
    /** Paced: the worker sleeps until the given time. */
    | Sleep(until: real)
    /** The operation of this key was taken out of the table and must be executed now. */
    | Execute(key: K, op: OutboxOp)

  function Max(a: real, b: real): (m: real)
    ensures m >= a && m >= b && (m == a || m == b)
  {
    if a >= b then a else b
  }

  /** The first-write-wins effect of `set_result(None)` on an op, seen from before and after. */
  twostate predicate CompletedWithNone(o: OutboxOp)
    reads o
  {
    o.done && o.queuedAt == old(o.queuedAt) && o.result == (if old(o.done) then old(o.result) else Json.Null)
  }

  class TelegramOutbox<K(==,!new)> {
    /** `_pending`: at most one operation per key. */
    var pending: map<K, OutboxOp>
    /** The insertion order of the keys of `_pending`, which breaks ties in `pick_locked`. */
    var order: seq<K>
    var closed: bool
    var nextAt: real
    var retryAt: real
    /** The exceptions handed to `on_outbox_error` when the worker crashed. */
    var outboxErrors: seq<string>
    /** Whether an `on_error` hook was given. */
    var hasOnError: bool
    /** The calls `on_error(op, exc)` made for failed operations. */
    var opErrors: seq<(OutboxOp, string)>

    ghost predicate Valid()
      reads this
    {
      && (forall i, j :: 0 <= i < j < |order| ==> order[i] != order[j])
      && (forall k :: k in pending <==> k in order)
    }

    constructor (hasOnError: bool)
      ensures Valid()
      ensures pending == map[] && order == [] && !closed && nextAt == 0.0 && retryAt == 0.0
      ensures outboxErrors == [] && this.hasOnError == hasOnError && opErrors == []
    {
      pending := map[];
      order := [];
      closed := false;
      nextAt := 0.0;
      retryAt := 0.0;
      outboxErrors := [];
      this.hasOnError := hasOnError;
      opErrors := [];
    }

    /** `enqueue`: after close the op completes with `None` and nothing is
        queued; otherwise it takes the key's place in the table, inheriting the
        `queued_at` of the op it replaces, which completes with `None`. */
    method Enqueue(key: K, op: OutboxOp)
      requires Valid()
      modifies this, op, pending.Values
      ensures Valid()
      ensures outboxErrors == old(outboxErrors)
      ensures hasOnError == old(hasOnError) && opErrors == old(opErrors)
      ensures closed == old(closed) && nextAt == old(nextAt) && retryAt == old(retryAt)
      ensures old(closed) ==> pending == old(pending) && order == old(order) && CompletedWithNone(op)
      ensures !old(closed) ==> pending == old(pending)[key := op]
      ensures !old(closed) ==> order == if key in old(pending) then old(order) else old(order) + [key]
      ensures !old(closed) && key in old(pending) ==>
        && op.queuedAt == old(pending[key].queuedAt)
        && old(pending[key]).done
        && old(pending[key]).result == (if old(pending[key].done) then old(pending[key].result) else Json.Null)
      ensures !old(closed) && key !in old(pending) ==> op.queuedAt == old(op.queuedAt) && op.done == old(op.done)
      ensures forall o :: o in old(pending).Values && o != op && (key !in old(pending) || o != old(pending[key])) ==>
        o.done == old(o.done) && o.result == old(o.result) && o.queuedAt == old(o.queuedAt)
    {
      if closed {
        op.SetResult(Json.Null);
        return;
      }
      if key in pending {
        var previous := pending[key];
        op.queuedAt := previous.queuedAt;
        previous.SetResult(Json.Null);
      } else {
        order := order + [key];
      }
      pending := pending[key := op];
    }

    /** Removes `key` from the insertion order. */
    static function Without(order: seq<K>, key: K): (r: seq<K>)
      ensures forall k :: k in r <==> k in order && k != key
      ensures (forall i, j :: 0 <= i < j < |order| ==> order[i] != order[j]) ==>
        forall i, j :: 0 <= i < j < |r| ==> r[i] != r[j]
    {
      if order == [] then []
      else if order[0] == key then Without(order[1..], key)
      else
        var t := Without(order[1..], key);
        assert (forall i, j :: 0 <= i < j < |order| ==> order[i] != order[j]) ==> order[0] !in order[1..];
        [order[0]] + t
    }

    /** `drop_pending`: the key's op, if any, leaves the table and completes with `None`. */
    method DropPending(key: K)
      requires Valid()
      modifies this, pending.Values
      ensures Valid()
      ensures outboxErrors == old(outboxErrors)
      ensures hasOnError == old(hasOnError) && opErrors == old(opErrors)
      ensures closed == old(closed) && nextAt == old(nextAt) && retryAt == old(retryAt)
      ensures pending == old(pending) - {key}
      ensures key in old(pending) ==> CompletedWithNone(old(pending[key]))
      ensures forall o :: o in old(pending).Values && (key !in old(pending) || o != old(pending[key])) ==>
        o.done == old(o.done) && o.result == old(o.result) && o.queuedAt == old(o.queuedAt)
    {
      if key in pending {
        var op := pending[key];
        pending := pending - {key};
        order := Without(order, key);
        op.SetResult(Json.Null);
      }
    }

    /** `fail_pending`: every pending op completes with `None`; the table is emptied. */
    method FailPending()
      requires Valid()
      modifies this, pending.Values
      ensures Valid()
      ensures outboxErrors == old(outboxErrors)
      ensures hasOnError == old(hasOnError) && opErrors == old(opErrors)
      ensures pending == map[] && order == []
      ensures closed == old(closed) && nextAt == old(nextAt) && retryAt == old(retryAt)
      ensures forall o :: o in old(pending).Values ==> CompletedWithNone(o)
    {
      var i := 0;
      while i < |order|
        invariant 0 <= i <= |order|
        invariant pending == old(pending) && order == old(order)
        invariant closed == old(closed) && nextAt == old(nextAt) && retryAt == old(retryAt)
        invariant outboxErrors == old(outboxErrors)
        invariant hasOnError == old(hasOnError) && opErrors == old(opErrors)
        invariant forall j :: 0 <= j < i ==> pending[order[j]].done
        invariant forall o :: o in pending.Values ==>
          && o.queuedAt == old(o.queuedAt)
          && (old(o.done) ==> o.done && o.result == old(o.result))
          && (!old(o.done) && o.done ==> o.result == Json.Null)
      {
        pending[order[i]].SetResult(Json.Null);
        i := i + 1;
      }
      forall o | o in old(pending).Values
        ensures CompletedWithNone(o)
      {
        var k :| k in old(pending) && old(pending)[k] == o;
        var j :| 0 <= j < |order| && order[j] == k;
      }
      pending := map[];
      order := [];
    }

    /** `close`: marks the outbox closed and fails everything pending. */
    method Close()
      requires Valid()
      modifies this, pending.Values
      ensures Valid()
      ensures outboxErrors == old(outboxErrors)
      ensures hasOnError == old(hasOnError) && opErrors == old(opErrors)
      ensures closed && pending == map[] && order == []
      ensures nextAt == old(nextAt) && retryAt == old(retryAt)
      ensures forall o :: o in old(pending).Values ==> CompletedWithNone(o)
    {
      closed := true;
      FailPending();
    }

    /** The worker's handler for an unexpected exception `error`: the outbox
        closes, every pending op completes with `None`, the exception goes to
        `on_outbox_error` when one is set, and the worker ends. */
    method Crash(error: string, hasOutboxErrorHandler: bool)
      requires Valid()
      modifies this, pending.Values
      ensures Valid()
      ensures closed && pending == map[] && order == []
      ensures nextAt == old(nextAt) && retryAt == old(retryAt)
      ensures forall o :: o in old(pending).Values ==> CompletedWithNone(o)
      ensures outboxErrors == old(outboxErrors) + (if hasOutboxErrorHandler then [error] else [])
      ensures hasOnError == old(hasOnError) && opErrors == old(opErrors)
    {
      closed := true;
      FailPending();
      if hasOutboxErrorHandler {
        outboxErrors := outboxErrors + [error];
      }
    }

    /** `pick_locked`: the pending entry that comes first by (priority,
        queued_at); among equals, the one inserted first; none when the table
        is empty. */
    method PickLocked() returns (picked: Option<(K, OutboxOp)>)
      requires Valid()
      ensures picked.None? <==> pending == map[]
      ensures picked.Some? ==> picked.value.0 in pending && pending[picked.value.0] == picked.value.1
      ensures picked.Some? ==> forall k :: k in pending ==> !Before(pending[k], picked.value.1)
      ensures picked.Some? ==> forall i :: 0 <= i < |order| && order[i] == picked.value.0 ==>
        forall j :: 0 <= j < i ==> Before(picked.value.1, pending[order[j]])
    {
      if order == [] {
        assert forall k :: k !in pending;
        return None;
      }
      var best := 0;
      var i := 1;
      while i < |order|
        invariant 1 <= i <= |order| && 0 <= best < i
        invariant forall j :: 0 <= j < i ==> !Before(pending[order[j]], pending[order[best]])
        invariant forall j :: 0 <= j < best ==> Before(pending[order[best]], pending[order[j]])
      {
        if Before(pending[order[i]], pending[order[best]]) {
          best := i;
        }
        i := i + 1;
      }
      forall k | k in pending
        ensures !Before(pending[k], pending[order[best]])
      {
        var j :| 0 <= j < |order| && order[j] == k;
      }
      return Some((order[best], pending[order[best]]));
    }

    /** One pass of the worker loop up to the execution of an operation:
        end when closed and drained, wait when idle, sleep while paced by
        `next_at`/`retry_at`, else take the first operation out of the table. */
    method NextStep(now: real) returns (step: Step<K>)
      requires Valid()
      modifies this
      ensures Valid()
      ensures outboxErrors == old(outboxErrors)
      ensures hasOnError == old(hasOnError) && opErrors == old(opErrors)
      ensures closed == old(closed) && nextAt == old(nextAt) && retryAt == old(retryAt)
      ensures old(pending) == map[] ==> step == (if closed then Exit else Wait) && pending == old(pending)
      ensures old(pending) != map[] && now < Max(nextAt, retryAt) ==>
        step == Sleep(Max(nextAt, retryAt)) && pending == old(pending) && order == old(order)
      ensures old(pending) != map[] && now >= Max(nextAt, retryAt) ==>
        && step.Execute?
        && step.key in old(pending) && old(pending)[step.key] == step.op
        && (forall k :: k in old(pending) ==> !Before(old(pending)[k], step.op))
        && (forall i :: 0 <= i < |old(order)| && old(order)[i] == step.key ==>
              forall j :: 0 <= j < i ==> Before(step.op, old(pending)[old(order)[j]]))
        && pending == old(pending) - {step.key}
        && order == Without(old(order), step.key)
    {
      if pending == map[] {
        if closed {
          return Exit;
        }
        return Wait;
      }
      var blockedUntil := Max(nextAt, retryAt);
      if now < blockedUntil {
        return Sleep(blockedUntil);
      }
      var picked := PickLocked();
      var key := picked.value.0;
      var op := picked.value.1;
      pending := pending - {key};
      order := Without(order, key);
      return Execute(key, op);
    }

    /** The worker after executing `op` (taken from `key`), started at
        `startedAt`, with the clock reading `now` afterwards: a value or a
        failure paces the chat by `interval` from the start and completes the
        op (failures with `None`, after handing the op and its exception to
        `on_error` when one is set); a retry-after pushes `retry_at` forward and
        puts the op back only if the outbox is open and no newer op took its key. */
    method Finish(key: K, op: OutboxOp, startedAt: real, outcome: Outcome, now: real, interval: real)
      requires Valid()
      modifies this, op
      ensures Valid()
      ensures outboxErrors == old(outboxErrors)
      ensures hasOnError == old(hasOnError)
      ensures opErrors == old(opErrors) + (if outcome.Failed? && hasOnError then [(op, outcome.error)] else [])
      ensures closed == old(closed)
      ensures !outcome.RetryAfter? ==>
        && nextAt == startedAt + interval && retryAt == old(retryAt)
        && pending == old(pending) && order == old(order)
        && op.done && op.queuedAt == old(op.queuedAt)
        && op.result == (if old(op.done) then old(op.result) else if outcome.Returned? then outcome.value else Json.Null)
      ensures outcome.RetryAfter? ==>
        && retryAt == Max(old(retryAt), now + outcome.retryAfter) && nextAt == old(nextAt)
        && (if !old(closed) && key !in old(pending) then
              pending == old(pending)[key := op] && order == old(order) + [key]
              && op.done == old(op.done) && op.result == old(op.result) && op.queuedAt == old(op.queuedAt)
            else
              pending == old(pending) && order == old(order) && CompletedWithNone(op))
    {
      match outcome
      case RetryAfter(delay) =>
        retryAt := Max(retryAt, now + delay);
        if closed {
          op.SetResult(Json.Null);
        } else if key !in pending {
          pending := pending[key := op];
          order := order + [key];
        } else {
          op.SetResult(Json.Null);
        }
      case Returned(v) =>
        nextAt := startedAt + interval;
        op.SetResult(v);
      case Failed(error) =>
        if hasOnError {
          opErrors := opErrors + [(op, error)];
        }
        nextAt := startedAt + interval;
        op.SetResult(Json.Null);
    }
  }

  /** Two edits of the same message queued back to back: the first completes
      at once with `None`, only one op is pending, and it keeps the first
      op's queue time. */
  method CoalesceScenario(t1: real, t2: real) returns (firstDone: bool, firstResult: Json.Value, pendingCount: nat, keptQueuedAt: real)
    ensures firstDone && firstResult == Json.Null
    ensures pendingCount == 1
    ensures keptQueuedAt == t1
  {
    var outbox := new TelegramOutbox<int>(false);
    var first := new OutboxOp(EDIT_PRIORITY, t1, Some(7), None);
    var second := new OutboxOp(EDIT_PRIORITY, t2, Some(7), None);
    outbox.Enqueue(42, first);
    outbox.Enqueue(42, second);
    firstDone, firstResult := first.done, first.result;
    pendingCount := |outbox.pending.Keys|;
    keptQueuedAt := outbox.pending[42].queuedAt;
  }

  /** A send queued after an edit is still executed first. */
  method PriorityScenario(now: real) returns (firstKey: int)
    requires now >= 0.0
    ensures firstKey == 2
  {
    var outbox := new TelegramOutbox<int>(false);
    var edit := new OutboxOp(EDIT_PRIORITY, 1.0, Some(7), None);
    var send := new OutboxOp(SEND_PRIORITY, 2.0, Some(7), None);
    outbox.Enqueue(1, edit);
    outbox.Enqueue(2, send);
    assert outbox.pending == map[1 := edit, 2 := send] && outbox.order == [1, 2];
    assert Before(send, edit);
    var step := outbox.NextStep(now);
    firstKey := if step.Execute? then step.key else 0;
  }

  /** A crash while an edit is pending: the edit completes with `None`, the
      error reaches the handler, the worker's next pass ends it, and an op
      queued afterwards completes with `None` at once. */
  method CrashScenario(now: real, error: string) returns (editDone: bool, editResult: Json.Value, errors: seq<string>, step: Step<int>, lateDone: bool)
    ensures editDone && editResult == Json.Null
    ensures errors == [error]
    ensures step == Exit
    ensures lateDone
  {
    var outbox := new TelegramOutbox<int>(false);
    var edit := new OutboxOp(EDIT_PRIORITY, 1.0, Some(7), None);
    outbox.Enqueue(1, edit);
    outbox.Crash(error, true);
    editDone, editResult := edit.done, edit.result;
    errors := outbox.outboxErrors;
    step := outbox.NextStep(now);
    var late := new OutboxOp(SEND_PRIORITY, 2.0, Some(7), None);
    outbox.Enqueue(2, late);
    lateDone := late.done;
  }

  /** An op whose execution fails, with an `on_error` hook set: the hook
      receives that op and its exception, and the op completes with `None`. */
  method FailedOpScenario(now: real, error: string) returns (reported: nat, reportedOp: bool, reportedError: string, done: bool, result: Json.Value)
    requires now >= 0.0
    ensures reported == 1 && reportedOp && reportedError == error
    ensures done && result == Json.Null
  {
    var outbox := new TelegramOutbox<int>(true);
    var send := new OutboxOp(SEND_PRIORITY, 1.0, Some(7), None);
    outbox.Enqueue(1, send);
    var step := outbox.NextStep(now);
    if step.Execute? {
      outbox.Finish(step.key, step.op, now, Failed(error), now, 1.0);
    }
    reported := |outbox.opErrors|;
    reportedOp := reported == 1 && outbox.opErrors[0].0 == send;
    reportedError := if reported == 1 then outbox.opErrors[0].1 else "";
    done, result := send.done, send.result;
  }
}
