/** The list of scheduled jobs the cron feature keeps: add, remove, look
    up, enable and disable jobs by id. */
module CronManager {
  import opened Wrappers

  /** `CronJob`. */
  datatype CronJob = CronJob(
    id: string,
    schedule: string,
    message: string,
    project: string,
    enabled: bool,
    lastRun: string,
    nextRun: string,
    oneTime: bool)

  /** A job with the given id is in the list. */
  predicate HasId(jobs: seq<CronJob>, id: string) {
    exists i :: 0 <= i < |jobs| && jobs[i].id == id
  }

  /** No two jobs share an id. */
  predicate UniqueIds(jobs: seq<CronJob>) {
    forall i, j :: 0 <= i < j < |jobs| ==> jobs[i].id != jobs[j].id
  }

  /** The first job with the given id. */
  function FirstWithId(jobs: seq<CronJob>, id: string): (r: Option<CronJob>)
    ensures r.Some? <==> HasId(jobs, id)
    ensures r.Some? ==> r.value.id == id && r.value in jobs
  {
    if jobs == [] then None
    else if jobs[0].id == id then Some(jobs[0])
    else
      var rest := FirstWithId(jobs[1..], id);
      assert HasId(jobs[1..], id) ==> HasId(jobs, id) by {
        if HasId(jobs[1..], id) {
          var i :| 0 <= i < |jobs[1..]| && jobs[1..][i].id == id;
          assert jobs[i + 1].id == id;
        }
      }
      assert HasId(jobs, id) && jobs[0].id != id ==> HasId(jobs[1..], id) by {
        if HasId(jobs, id) && jobs[0].id != id {
          var i :| 0 <= i < |jobs| && jobs[i].id == id;
          assert jobs[1..][i - 1].id == id;
        }
      }
      rest
  }

  /** `[j for j in jobs if j.id != job_id]`. */
  function WithoutId(jobs: seq<CronJob>, id: string): (r: seq<CronJob>)
    ensures |r| <= |jobs|
    ensures forall j :: j in r <==> j in jobs && j.id != id
  {
    if jobs == [] then []
    else if jobs[0].id == id then WithoutId(jobs[1..], id)
    else [jobs[0]] + WithoutId(jobs[1..], id)
  }

  /** Filtering out an id shortens the list exactly when the id was there. */
  lemma {:induction false} WithoutIdShorter(jobs: seq<CronJob>, id: string)
    ensures |WithoutId(jobs, id)| < |jobs| <==> HasId(jobs, id)
  {
    if jobs != [] {
      WithoutIdShorter(jobs[1..], id);
      if jobs[0].id != id && HasId(jobs, id) {
        var i :| 0 <= i < |jobs| && jobs[i].id == id;
        assert jobs[1..][i - 1].id == id;
      }
      if HasId(jobs[1..], id) {
        var i :| 0 <= i < |jobs[1..]| && jobs[1..][i].id == id;
        assert jobs[i + 1].id == id;
      }
    }
  }

  /** Filtering keeps the other jobs in their order, so their ids stay unique. */
  lemma {:induction false} WithoutIdUnique(jobs: seq<CronJob>, id: string)
    requires UniqueIds(jobs)
    ensures UniqueIds(WithoutId(jobs, id))
  {
    if jobs != [] {
      WithoutIdUnique(jobs[1..], id);
      var rest := WithoutId(jobs[1..], id);
      forall k | 0 <= k < |rest|
        ensures rest[k].id != jobs[0].id
      {
        assert rest[k] in jobs[1..];
      }
    }
  }

  /** The jobs with the first job of the given id switched on or off. */
  function SetEnabled(jobs: seq<CronJob>, id: string, enabled: bool): (r: seq<CronJob>)
    ensures |r| == |jobs|
    ensures forall i :: 0 <= i < |r| ==> r[i].id == jobs[i].id
  {
    if jobs == [] then []
    else if jobs[0].id == id then [jobs[0].(enabled := enabled)] + jobs[1..]
    else [jobs[0]] + SetEnabled(jobs[1..], id, enabled)
  }

  /** After switching a job, looking it up finds it switched, with nothing
      else about it changed; other ids look up as before. */
  lemma {:induction false} SetEnabledLookup(jobs: seq<CronJob>, id: string, enabled: bool, other: string)
    requires HasId(jobs, id)
    ensures FirstWithId(SetEnabled(jobs, id, enabled), id) == Some(FirstWithId(jobs, id).value.(enabled := enabled))
    ensures other != id ==> FirstWithId(SetEnabled(jobs, id, enabled), other) == FirstWithId(jobs, other)
  {
    var rest := jobs[1..];
    assert jobs == [jobs[0]] + rest;
    if jobs[0].id != id {
      IndexOfIdTail(jobs, id);
      SetEnabledLookup(rest, id, enabled, other);
      assert SetEnabled(jobs, id, enabled) == [jobs[0]] + SetEnabled(rest, id, enabled);
      FirstWithIdCons(jobs[0], SetEnabled(rest, id, enabled), id);
      FirstWithIdCons(jobs[0], SetEnabled(rest, id, enabled), other);
    } else {
      assert SetEnabled(jobs, id, enabled) == [jobs[0].(enabled := enabled)] + rest;
      FirstWithIdCons(jobs[0].(enabled := enabled), rest, id);
      FirstWithIdCons(jobs[0].(enabled := enabled), rest, other);
    }
    FirstWithIdCons(jobs[0], rest, id);
    FirstWithIdCons(jobs[0], rest, other);
  }

  /** Looking up an id in a list with one more job in front. */
  lemma FirstWithIdCons(x: CronJob, jobs: seq<CronJob>, id: string)
    ensures FirstWithId([x] + jobs, id) == if x.id == id then Some(x) else FirstWithId(jobs, id)
  {
    assert ([x] + jobs)[1..] == jobs;
  }

  /** The index of the first job with the given id. */
  function IndexOfId(jobs: seq<CronJob>, id: string): (r: nat)
    requires HasId(jobs, id)
    ensures r < |jobs| && jobs[r].id == id
    ensures forall k :: 0 <= k < r ==> jobs[k].id != id
  {
    if jobs[0].id == id then 0
    else
      var i :| 0 <= i < |jobs| && jobs[i].id == id;
      assert jobs[1..][i - 1].id == id;
      1 + IndexOfId(jobs[1..], id)
  }

  /** Switching the first job of an id is replacing it at its index. */
  lemma {:induction false} SetEnabledAt(jobs: seq<CronJob>, id: string, enabled: bool)
    requires HasId(jobs, id)
    ensures SetEnabled(jobs, id, enabled) == jobs[IndexOfId(jobs, id) := jobs[IndexOfId(jobs, id)].(enabled := enabled)]
  {
    if jobs[0].id != id {
      var rest := jobs[1..];
      IndexOfIdTail(jobs, id);
      var k := IndexOfId(rest, id);
      SetEnabledAt(rest, id, enabled);
      ConsUpdate(jobs, k, rest[k].(enabled := enabled));
    }
  }

  /** Past a first job of another id, the index counts from the rest. */
  lemma IndexOfIdTail(jobs: seq<CronJob>, id: string)
    requires HasId(jobs, id) && jobs[0].id != id
    ensures HasId(jobs[1..], id) && IndexOfId(jobs, id) == 1 + IndexOfId(jobs[1..], id)
  {
    var i :| 0 <= i < |jobs| && jobs[i].id == id;
    assert jobs[1..][i - 1].id == id;
  }

  /** Updating the rest behind a first job is updating the whole one place further. */
  lemma ConsUpdate(jobs: seq<CronJob>, k: nat, x: CronJob)
    requires k + 1 < |jobs|
    ensures [jobs[0]] + jobs[1..][k := x] == jobs[k + 1 := x]
  {
  }

  /** `CronManager` with its `jobs` list; the cron file it loads and saves is not part of this model. */
  class CronManager {
    var jobs: seq<CronJob>

    ghost predicate Valid()
      reads this
    {
      UniqueIds(jobs)
    }

    constructor()
      ensures Valid() && jobs == []
    {
      jobs := [];
    }

    /** `add`: refused when the project directory is not a git checkout
        (`_validate_project`, whose file-system answer is the parameter)
        or when the id is taken; otherwise the job goes last. */
    method Add(job: CronJob, projectIsPlainDir: bool) returns (err: Option<string>)
      requires Valid()
      modifies this
      ensures Valid()
      ensures err.Some? <==> (job.project != [] && projectIsPlainDir) || HasId(old(jobs), job.id)
      ensures err.None? ==> jobs == old(jobs) + [job]
      ensures err.Some? ==> jobs == old(jobs)
    {
      if job.project != [] && projectIsPlainDir {
        return Some("不是 git 仓库: " + job.project);
      }
      if HasId(jobs, job.id) {
        return Some("任务 ID 已存在: " + job.id);
      }
      jobs := jobs + [job];
      err := None;
    }

    /** `remove`: true exactly when a job with the id was there; every
        job with the id is dropped and the rest keep their order. */
    method Remove(jobId: string) returns (removed: bool)
      requires Valid()
      modifies this
      ensures Valid()
      ensures removed <==> HasId(old(jobs), jobId)
      ensures jobs == WithoutId(old(jobs), jobId)
      ensures !HasId(jobs, jobId)
    {
      var originalLen := |jobs|;
      WithoutIdShorter(jobs, jobId);
      WithoutIdUnique(jobs, jobId);
      jobs := WithoutId(jobs, jobId);
      assert forall k :: 0 <= k < |jobs| ==> jobs[k] in jobs;
      removed := |jobs| < originalLen;
    }

    /** `get`: the first job with the id, or none. */
    method Get(jobId: string) returns (r: Option<CronJob>)
      ensures r == FirstWithId(jobs, jobId)
    {
      for i := 0 to |jobs|
        invariant FirstWithId(jobs, jobId) == FirstWithId(jobs[i..], jobId)
      {
        if jobs[i].id == jobId {
          return Some(jobs[i]);
        }
        assert jobs[i..][1..] == jobs[i + 1..];
      }
      return None;
    }

    /** `enable` / `disable`: the first job with the id gets the flag;
        false when there is none. */
    method SetFlag(jobId: string, enabled: bool) returns (found: bool)
      requires Valid()
      modifies this
      ensures Valid()
      ensures found <==> HasId(old(jobs), jobId)
      ensures found ==> jobs == SetEnabled(old(jobs), jobId, enabled)
      ensures !found ==> jobs == old(jobs)
    {
      for i := 0 to |jobs|
        invariant forall k :: 0 <= k < i ==> jobs[k].id != jobId
      {
        if jobs[i].id == jobId {
          assert IndexOfId(jobs, jobId) == i;
          SetEnabledAt(jobs, jobId, enabled);
          jobs := jobs[i := jobs[i].(enabled := enabled)];
          return true;
        }
      }
      return false;
    }

    method Enable(jobId: string) returns (found: bool)
      requires Valid()
      modifies this
      ensures Valid()
      ensures found <==> HasId(old(jobs), jobId)
      ensures found ==> jobs == SetEnabled(old(jobs), jobId, true)
      ensures !found ==> jobs == old(jobs)
    {
      found := SetFlag(jobId, true);
    }

    method Disable(jobId: string) returns (found: bool)
      requires Valid()
      modifies this
      ensures Valid()
      ensures found <==> HasId(old(jobs), jobId)
      ensures found ==> jobs == SetEnabled(old(jobs), jobId, false)
      ensures !found ==> jobs == old(jobs)
    {
      found := SetFlag(jobId, false);
    }
  }
}
