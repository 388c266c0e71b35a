/** The per-thread job scheduler: jobs that resume the same engine session
    (the same thread key) run one at a time in arrival order, each key with at
    most one worker. The asynchronous lock and task group are replaced by
    sequential steps: every method below is one critical section, and the
    worker loop is `RunWorker`, built from `PopNext` steps. */
module Scheduler {
  import opened Wrappers
  import opened Model
  import Text

  /** A queued request to resume a thread. */
  datatype ThreadJob = ThreadJob(
    chatId: ChannelId,
    userMsgId: MessageId,
    text: string,
    resumeToken: ResumeToken,
    context: Option<RunContext>,
    threadId: Option<int>,
    sessionKey: Option<(int, Option<int>)>,
    progressRef: Option<MessageRef>)

  /** An `anyio.Event`, named by an identifier; whether it is set is an input of the operations that look. */
  type EventId = nat

  /** The scheduler's thread key of a resume token: `"{engine}:{value}"`. */
  function ThreadKey(token: ResumeToken): (key: string)
    ensures |key| == |token.engine| + 1 + |token.value|
    ensures key[..|token.engine|] == token.engine && key[|token.engine|] == ':'
    ensures key[|token.engine| + 1..] == token.value
  {
    token.engine + ":" + token.value
  }

  /** Without a colon in the engine id, the first colon of the key ends the engine id. */
  lemma FirstColonOfKey(token: ResumeToken)
    requires ':' !in token.engine
    ensures Text.IndexOf(ThreadKey(token), ':') == Some(|token.engine|)
  {
    var k := ThreadKey(token);
    var e := |token.engine|;
    assert k[e] == ':';
    var r := Text.IndexOf(k, ':');
    assert r.Some?;
  }

  /** Engine ids carry no colon, so two tokens share a thread key exactly when they are equal. */
  lemma ThreadKeyInjective(a: ResumeToken, b: ResumeToken)
    requires ':' !in a.engine && ':' !in b.engine
    ensures ThreadKey(a) == ThreadKey(b) <==> a == b
  {
    if ThreadKey(a) == ThreadKey(b) {
      FirstColonOfKey(a);
      FirstColonOfKey(b);
      var k := ThreadKey(a);
      assert |a.engine| == |b.engine|;
      assert a.engine == k[..|a.engine|] == b.engine;
      assert a.value == k[|a.engine| + 1..] == b.value;
    }
  }

  /** The key under which the progress message of a job is indexed, if it has one. */
  function ProgressKey(job: ThreadJob): (pk: Option<(ChannelId, MessageId)>)
    ensures pk.Some? <==> job.progressRef.Some?
    ensures pk.Some? ==> pk.value.0 == job.chatId && pk.value.1 == job.progressRef.value.messageId
  {
    if job.progressRef.Some? then Some((job.chatId, job.progressRef.value.messageId)) else None
  }

  /** Position of the first element equal to `x`. */
  function FirstIndex(q: seq<ThreadJob>, x: ThreadJob): (i: nat)
    requires x in q
    ensures i < |q| && q[i] == x && x !in q[..i]
  {
    if q[0] == x then 0
    else
      var j := FirstIndex(q[1..], x);
      assert q[..j + 1] == [q[0]] + q[1..][..j];
      j + 1
  }

  /** `deque.remove(x)`: drops the first element equal to `x`; the others keep their order. */
  function RemoveFirst(q: seq<ThreadJob>, x: ThreadJob): (r: seq<ThreadJob>)
    requires x in q
    ensures |r| == |q| - 1
    ensures var i := FirstIndex(q, x); r == q[..i] + q[i + 1..]
    ensures multiset(r) == multiset(q) - multiset{x}
  {
    var i := FirstIndex(q, x);
    assert q == q[..i] + [q[i]] + q[i + 1..];
    q[..i] + q[i + 1..]
  }

  /** The queue of a key, empty when the key has none. */
  function QueueOf(pending: map<string, seq<ThreadJob>>, key: string): seq<ThreadJob> {
    if key in pending then pending[key] else []
  }

  /** The progress index after the worker has taken `jobs`, one after the other. */
  function DropProgress(index: map<(ChannelId, MessageId), ThreadJob>, jobs: seq<ThreadJob>): (r: map<(ChannelId, MessageId), ThreadJob>)
    ensures r.Keys <= index.Keys
    ensures forall pk :: pk in r ==> r[pk] == index[pk]
    ensures forall i :: 0 <= i < |jobs| && ProgressKey(jobs[i]).Some? ==> ProgressKey(jobs[i]).value !in r
  {
    if jobs == [] then index
    else
      var first := if ProgressKey(jobs[0]).Some? then index - {ProgressKey(jobs[0]).value} else index;
      DropProgress(first, jobs[1..])
  }

  lemma DropProgressAppend(index: map<(ChannelId, MessageId), ThreadJob>, jobs: seq<ThreadJob>, job: ThreadJob)
    ensures DropProgress(index, jobs + [job])
      == (var m := DropProgress(index, jobs); if ProgressKey(job).Some? then m - {ProgressKey(job).value} else m)
  {
    if jobs != [] {
      assert (jobs + [job])[1..] == jobs[1..] + [job];
    } else {
      assert jobs + [job] == [job];
    }
  }

  /** The jobs among `jobs` for which `fails` holds, in order. */
  function Failing(jobs: seq<ThreadJob>, fails: ThreadJob -> bool): (r: seq<ThreadJob>)
    ensures |r| <= |jobs|
    ensures forall i :: 0 <= i < |r| ==> fails(r[i]) && r[i] in jobs
  {
    if jobs == [] then [] else (if fails(jobs[0]) then [jobs[0]] else []) + Failing(jobs[1..], fails)
  }

  lemma FailingAppend(jobs: seq<ThreadJob>, job: ThreadJob, fails: ThreadJob -> bool)
    ensures Failing(jobs + [job], fails) == Failing(jobs, fails) + (if fails(job) then [job] else [])
  {
    if jobs != [] {
      assert (jobs + [job])[1..] == jobs[1..] + [job];
    } else {
      assert jobs + [job] == [job];
    }
  }

  /** The queue table after `q` has replaced the queue of `key`; an empty queue is dropped. */
  function WithQueue(pending: map<string, seq<ThreadJob>>, key: string, q: seq<ThreadJob>): (r: map<string, seq<ThreadJob>>)
    ensures r.Keys == if q == [] then pending.Keys - {key} else pending.Keys + {key}
    ensures QueueOf(r, key) == q
    ensures forall k :: k != key ==> QueueOf(r, k) == QueueOf(pending, k)
  {
    if q == [] then pending - {key} else pending[key := q]
  }

  /** What `cancel_queued` returns and leaves queued for the job indexed
      under progress key `pk` (see `CancelTakesExactlyThatJob`). */
  function CancelOutcome(pending: map<string, seq<ThreadJob>>, index: map<(ChannelId, MessageId), ThreadJob>,
                         pk: (ChannelId, MessageId)): (r: (Option<ThreadJob>, map<string, seq<ThreadJob>>))
    ensures r.0.None? ==> r.1 == pending
    ensures r.0.Some? ==> pk in index && r.0.value == index[pk]
  {
    if pk !in index then (None, pending)
    else
      var job := index[pk];
      var tk := ThreadKey(job.resumeToken);
      if tk !in pending || job !in pending[tk] then (None, pending)
      else (Some(job), WithQueue(pending, tk, RemoveFirst(pending[tk], job)))
  }

  /** A cancel succeeds exactly when a job is indexed under `pk` and is still
      in its queue; it then removes exactly one copy of that job from that
      queue, drops the queue if it became empty, and touches no other queue. */
  lemma CancelTakesExactlyThatJob(pending: map<string, seq<ThreadJob>>, index: map<(ChannelId, MessageId), ThreadJob>,
                                  pk: (ChannelId, MessageId))
    ensures var (r, after) := CancelOutcome(pending, index, pk);
      r.Some? <==> pk in index && index[pk] in QueueOf(pending, ThreadKey(index[pk].resumeToken))
    ensures var (r, after) := CancelOutcome(pending, index, pk);
      r.Some? ==> var tk := ThreadKey(r.value.resumeToken);
        && multiset(QueueOf(after, tk)) == multiset(QueueOf(pending, tk)) - multiset{r.value}
        && (forall k :: k != tk ==> QueueOf(after, k) == QueueOf(pending, k))
        && (tk in after ==> after[tk] != [])
  {
    if pk in index {
      var job := index[pk];
      var tk := ThreadKey(job.resumeToken);
      if tk in pending && job in pending[tk] {
        var q := RemoveFirst(pending[tk], job);
        assert CancelOutcome(pending, index, pk) == (Some(job), WithQueue(pending, tk, q));
      }
    }
  }

  class ThreadScheduler {
    /** `_pending_by_thread`: the FIFO queue of each thread key. */
    var pending: map<string, seq<ThreadJob>>
    /** `_queued_by_progress`: queued jobs by (chat, progress message). */
    var queuedByProgress: map<(ChannelId, MessageId), ThreadJob>
    /** `_active_threads`: keys whose worker is running. */
    var active: set<string>
    /** `_busy_until`: per key, the event a new worker must wait for before running a job. */
    var busyUntil: map<string, EventId>

    /** Every key with a queue has a running worker to drain it. */
    ghost predicate Valid()
      reads this
    {
      pending.Keys <= active
    }

    constructor ()
      ensures Valid()
      ensures pending == map[] && queuedByProgress == map[] && active == {} && busyUntil == map[]
    {
      pending := map[];
      queuedByProgress := map[];
      active := {};
      busyUntil := map[];
    }

    /** `note_thread_known`: records `done` as the key's busy marker unless a
        marker that is not yet set (`fired` are the set events) is already there. */
    method NoteThreadKnown(token: ResumeToken, done: EventId, fired: set<EventId>)
      requires Valid()
      modifies this
      ensures Valid()
      ensures var key := ThreadKey(token);
        busyUntil == if key !in old(busyUntil) || old(busyUntil)[key] in fired
                     then old(busyUntil)[key := done] else old(busyUntil)
      ensures pending == old(pending) && queuedByProgress == old(queuedByProgress) && active == old(active)
    {
      var key := ThreadKey(token);
      if key !in busyUntil || busyUntil[key] in fired {
        busyUntil := busyUntil[key := done];
      }
    }

    /** `_clear_busy`, once `done` has fired: forgets the marker only if it is still `done`. */
    method ClearBusy(key: string, done: EventId)
      requires Valid()
      modifies this
      ensures Valid()
      ensures busyUntil == if key in old(busyUntil) && old(busyUntil)[key] == done
                           then old(busyUntil) - {key} else old(busyUntil)
      ensures pending == old(pending) && queuedByProgress == old(queuedByProgress) && active == old(active)
    {
      if key in busyUntil && busyUntil[key] == done {
        busyUntil := busyUntil - {key};
      }
    }

    /** `enqueue`: appends the job to its key's queue, indexes its progress
        message, and asks for a worker only when the key has none. */
    method Enqueue(job: ThreadJob) returns (startWorker: bool)
      requires Valid()
      modifies this
      ensures Valid()
      ensures var key := ThreadKey(job.resumeToken);
        && pending == old(pending)[key := QueueOf(old(pending), key) + [job]]
        && active == old(active) + {key}
        && startWorker == (key !in old(active))
      ensures queuedByProgress == if ProgressKey(job).Some?
                                  then old(queuedByProgress)[ProgressKey(job).value := job]
                                  else old(queuedByProgress)
      ensures busyUntil == old(busyUntil)
    {
      var key := ThreadKey(job.resumeToken);
      var queue := if key in pending then pending[key] else [];
      pending := pending[key := queue + [job]];
      if job.progressRef.Some? {
        queuedByProgress := queuedByProgress[(job.chatId, job.progressRef.value.messageId) := job];
      }
      if key in active {
        return false;
      }
      active := active + {key};
      return true;
    }

    /** `cancel_queued`: the index entry of the progress message is always
        dropped; the rest is `CancelOutcome`. */
    method CancelQueued(chatId: ChannelId, progressMsgId: MessageId) returns (r: Option<ThreadJob>)
      requires Valid()
      modifies this
      ensures Valid()
      ensures queuedByProgress == old(queuedByProgress) - {(chatId, progressMsgId)}
      ensures (r, pending) == CancelOutcome(old(pending), old(queuedByProgress), (chatId, progressMsgId))
      ensures active == old(active) && busyUntil == old(busyUntil)
    {
      var pk := (chatId, progressMsgId);
      if pk !in queuedByProgress {
        return None;
      }
      var job := queuedByProgress[pk];
      queuedByProgress := queuedByProgress - {pk};
      var tk := ThreadKey(job.resumeToken);
      if tk !in pending {
        return None;
      }
      var queue := pending[tk];
      if job !in queue {
        return None;
      }
      queue := RemoveFirst(queue, job);
      if queue == [] {
        pending := pending - {tk};
      } else {
        pending := pending[tk := queue];
      }
      return Some(job);
    }

    /** One locked step of `_thread_worker`: with nothing queued the key loses
        its queue and its worker; otherwise the oldest job is taken off the queue
        and out of the progress index. `waitFor` is the busy marker seen. */
    method PopNext(key: string) returns (next: Option<ThreadJob>, waitFor: Option<EventId>)
      requires Valid() && key in active
      modifies this
      ensures Valid()
      ensures waitFor == if key in old(busyUntil) then Some(old(busyUntil)[key]) else None
      ensures var q := QueueOf(old(pending), key);
        if q == [] then
          && next.None?
          && pending == old(pending) - {key}
          && active == old(active) - {key}
          && queuedByProgress == old(queuedByProgress)
        else
          && next == Some(q[0])
          && pending == old(pending)[key := q[1..]]
          && active == old(active)
          && queuedByProgress == DropProgress(old(queuedByProgress), [q[0]])
      ensures busyUntil == old(busyUntil)
    {
      waitFor := if key in busyUntil then Some(busyUntil[key]) else None;
      var queue := if key in pending then pending[key] else [];
      if queue == [] {
        pending := pending - {key};
        active := active - {key};
        return None, waitFor;
      }
      var job := queue[0];
      pending := pending[key := queue[1..]];
      if job.progressRef.Some? {
        queuedByProgress := queuedByProgress - {(job.chatId, job.progressRef.value.messageId)};
      }
      return Some(job), waitFor;
    }

    /** `_thread_worker` run to completion with no other call in between: the
        key's jobs run one at a time in queue order; a job for which `fails`
        holds is logged in `failed` and the worker goes on with the next one.
        At the end the key has neither a queue nor a worker. */
    method RunWorker(key: string, fails: ThreadJob -> bool) returns (ran: seq<ThreadJob>, failed: seq<ThreadJob>)
      requires Valid() && key in active
      modifies this
      ensures Valid()
      ensures ran == QueueOf(old(pending), key)
      ensures failed == Failing(ran, fails)
      ensures pending == old(pending) - {key}
      ensures active == old(active) - {key}
      ensures queuedByProgress == DropProgress(old(queuedByProgress), ran)
      ensures busyUntil == old(busyUntil)
    {
      ran, failed := [], [];
      ghost var q0 := QueueOf(pending, key);
      var next, seen := PopNext(key);
      while next.Some?
        invariant Valid()
        invariant |ran| <= |q0| && ran == q0[..|ran|]
        invariant failed == Failing(ran, fails)
        invariant busyUntil == old(busyUntil)
        invariant next.Some? ==>
          && |ran| < |q0| && next.value == q0[|ran|]
          && key in active && active == old(active)
          && pending == old(pending)[key := q0[|ran| + 1..]]
          && queuedByProgress == DropProgress(old(queuedByProgress), q0[..|ran| + 1])
        invariant next.None? ==>
          && ran == q0
          && active == old(active) - {key}
          && pending == old(pending) - {key}
          && queuedByProgress == DropProgress(old(queuedByProgress), q0)
        decreases |q0| - |ran|
      {
        var job := next.value;
        FailingAppend(ran, job, fails);
        if fails(job) {
          failed := failed + [job];
        }
        assert q0[..|ran| + 1] == ran + [job];
        ran := ran + [job];
        next, seen := PopNext(key);
        if next.Some? {
          assert q0[..|ran| + 1] == q0[..|ran|] + [next.value];
          DropProgressAppend(old(queuedByProgress), q0[..|ran|], next.value);
        } else {
          assert |ran| == |q0|;
        }
      }
    }
  }

  /** Three jobs for one session, enqueued in order: one worker is started
      for the first, and it runs all three in arrival order. */
  method FifoScenario(j1: ThreadJob, j2: ThreadJob, j3: ThreadJob) returns (started: seq<bool>, ran: seq<ThreadJob>)
    requires j1.resumeToken == j2.resumeToken == j3.resumeToken
    ensures started == [true, false, false]
    ensures ran == [j1, j2, j3]
  {
    var s := new ThreadScheduler();
    var a := s.Enqueue(j1);
    var b := s.Enqueue(j2);
    var c := s.Enqueue(j3);
    started := [a, b, c];
    var key := ThreadKey(j1.resumeToken);
    var failed;
    ran, failed := s.RunWorker(key, _ => false);
  }

  /** A job cancelled by its progress message before the worker reaches it is
      returned by the cancel and never run; the others still run in order. */
  method CancelScenario(j1: ThreadJob, j2: ThreadJob, j3: ThreadJob, msg: MessageId) returns (cancelled: Option<ThreadJob>, ran: seq<ThreadJob>)
    requires j1.resumeToken == j2.resumeToken == j3.resumeToken
    requires j1.progressRef.None? && j3.progressRef.None?
    requires j2.progressRef == Some(MessageRef(j2.chatId, msg))
    requires j2 != j1 && j2 != j3
    ensures cancelled == Some(j2)
    ensures ran == [j1, j3]
  {
    var s := new ThreadScheduler();
    var key := ThreadKey(j1.resumeToken);
    var pk := (j2.chatId, msg);
    assert QueueOf(s.pending, key) == [];
    var a := s.Enqueue(j1);
    assert s.pending[key] == [j1];
    assert s.pending == map[key := [j1]] && s.queuedByProgress == map[];
    var b := s.Enqueue(j2);
    assert s.pending[key] == [j1, j2];
    assert s.pending == map[key := [j1, j2]] && s.queuedByProgress == map[pk := j2];
    var c := s.Enqueue(j3);
    assert s.pending[key] == [j1, j2, j3];
    assert s.pending == map[key := [j1, j2, j3]] && s.queuedByProgress == map[pk := j2];
    CancelMiddle(j1, j2, j3, pk);
    cancelled := s.CancelQueued(j2.chatId, msg);
    var failed;
    ran, failed := s.RunWorker(key, _ => false);
  }

  lemma CancelMiddle(j1: ThreadJob, j2: ThreadJob, j3: ThreadJob, pk: (ChannelId, MessageId))
    requires j1.resumeToken == j2.resumeToken == j3.resumeToken
    requires j2 != j1
    ensures var key := ThreadKey(j1.resumeToken);
      CancelOutcome(map[key := [j1, j2, j3]], map[pk := j2], pk) == (Some(j2), map[key := [j1, j3]])
  {
    var key := ThreadKey(j1.resumeToken);
    var m := map[key := [j1, j2, j3]];
    RemoveSecond(j1, j2, j3);
    assert ThreadKey(j2.resumeToken) == key;
    CancelHit(m, map[pk := j2], pk);
    assert RemoveFirst(m[key], j2) == [j1, j3];
    SoleQueue(key, [j1, j2, j3], [j1, j3]);
  }

  /** Replacing the one queue of a map holding only that key. */
  lemma SoleQueue(key: string, q0: seq<ThreadJob>, q: seq<ThreadJob>)
    requires q != []
    ensures WithQueue(map[key := q0], key, q) == map[key := q]
  {
  }

  /** A job indexed under `pk` and still queued is cancelled out of its queue. */
  lemma CancelHit(pending: map<string, seq<ThreadJob>>, index: map<(ChannelId, MessageId), ThreadJob>,
                  pk: (ChannelId, MessageId))
    requires pk in index && ThreadKey(index[pk].resumeToken) in pending
    requires index[pk] in pending[ThreadKey(index[pk].resumeToken)]
    ensures var tk := ThreadKey(index[pk].resumeToken);
      CancelOutcome(pending, index, pk) == (Some(index[pk]), WithQueue(pending, tk, RemoveFirst(pending[tk], index[pk])))
  {
  }

  /** Removing a second job that differs from the first leaves the first and the third. */
  lemma RemoveSecond(j1: ThreadJob, j2: ThreadJob, j3: ThreadJob)
    requires j2 != j1
    ensures j2 in [j1, j2, j3] && RemoveFirst([j1, j2, j3], j2) == [j1, j3]
  {
    var q := [j1, j2, j3];
    assert q[1] == j2;
    assert FirstIndex(q, j2) == 1;
    assert q[..1] + q[2..] == [j1, j3];
  }
}
