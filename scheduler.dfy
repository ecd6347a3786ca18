/**
 * new/scheduler_service.py: the periodic trigger of the crawl. The service
 * keeps a running flag, the crawl interval in minutes and the crawl callback;
 * the `schedule` library's job list is the field `jobs` (the interval of each
 * registered job). The scheduler thread itself, its sleeps and its timing are
 * not modelled: `start` records that the thread was started, and whether it
 * is still alive or how a manual run ends is passed in.
 */
module Scheduler {
  import opened Wrappers

  /** `crawl_interval` when `CRAWL_INTERVAL_MINUTES` is unset. */
  const DefaultInterval := 5

  /** The dictionary `get_status` returns; `nextRun` says whether `next_run` is set. */
  datatype Status = Status(isRunning: bool, crawlIntervalMinutes: int, nextRun: bool, callbackSet: bool, threadAlive: bool)

  /** How the manual crawl thread of `run_now` ends. */
  datatype RunEnd = Succeeded | Raised | TimedOut

  class SchedulerService {
    var isRunning: bool
    var crawlInterval: int
    var callbackSet: bool
    /** Whether `start` has created the scheduler thread. */
    var threadStarted: bool
    /** The intervals of the jobs registered with `schedule`. */
    var jobs: seq<int>
    /** How many times `run_now` has invoked the callback. */
    ghost var manualRuns: nat

    /**
     * What the model keeps true: only a service with a callback runs, a
     * stopped service has no jobs, and a job uses the current interval. The
     * second and third hold of the model only, where the thread never
     * registers a job. In the program `stop` waits at most three seconds for
     * the thread and then clears the jobs, and a thread still in its first
     * crawl registers its job afterwards, so a stopped service can hold a job
     * (and a restart two).
     */
    predicate Valid()
      reads this
    {
      && (isRunning ==> callbackSet)
      && (!isRunning ==> jobs == [])
      && (forall k :: 0 <= k < |jobs| ==> jobs[k] == crawlInterval)
    }

    /** A new service is stopped, has no callback and takes its interval from the environment. */
    constructor(intervalSetting: Option<int>)
      ensures Valid()
      ensures !isRunning && !callbackSet && !threadStarted && jobs == []
      ensures crawlInterval == intervalSetting.GetOr(DefaultInterval)
      ensures manualRuns == 0
    {
      isRunning := false;
      threadStarted := false;
      crawlInterval := intervalSetting.GetOr(DefaultInterval);
      callbackSet := false;
      jobs := [];
      manualRuns := 0;
    }

    /** `set_crawl_callback`. */
    method SetCrawlCallback()
      requires Valid()
      modifies this
      ensures Valid()
      ensures callbackSet
      ensures isRunning == old(isRunning) && crawlInterval == old(crawlInterval) && jobs == old(jobs)
      ensures threadStarted == old(threadStarted) && manualRuns == old(manualRuns)
    {
      callbackSet := true;
    }

    /** `start`: nothing when already running or without a callback; otherwise running, with the thread started. */
    method Start()
      requires Valid()
      modifies this
      ensures Valid()
      ensures old(isRunning) || !old(callbackSet) ==> isRunning == old(isRunning) && threadStarted == old(threadStarted)
      ensures !old(isRunning) && old(callbackSet) ==> isRunning && threadStarted
      ensures crawlInterval == old(crawlInterval) && callbackSet == old(callbackSet) && jobs == old(jobs)
      ensures manualRuns == old(manualRuns)
    {
      if isRunning {
        return;
      }
      if !callbackSet {
        return;
      }
      isRunning := true;
      threadStarted := true;
    }

    /** `stop`: nothing when not running; otherwise stopped, with the jobs cleared. */
    method Stop()
      requires Valid()
      modifies this
      ensures Valid()
      ensures !isRunning && jobs == []
      ensures !old(isRunning) ==> jobs == old(jobs)
      ensures crawlInterval == old(crawlInterval) && callbackSet == old(callbackSet)
      ensures threadStarted == old(threadStarted) && manualRuns == old(manualRuns)
    {
      if !isRunning {
        return;
      }
      isRunning := false;
      jobs := [];
    }

    /** `force_stop`: stopped with the jobs cleared, whatever the state was. */
    method ForceStop()
      requires Valid()
      modifies this
      ensures Valid()
      ensures !isRunning && jobs == []
      ensures crawlInterval == old(crawlInterval) && callbackSet == old(callbackSet)
      ensures threadStarted == old(threadStarted) && manualRuns == old(manualRuns)
    {
      isRunning := false;
      jobs := [];
    }

    /**
     * `get_status`: the stored flag and interval as they are; `threadAlive`
     * reports whether the thread is. That a next run implies running holds of
     * the model only (see `Valid`).
     */
    method GetStatus(threadAlive: bool) returns (s: Status)
      requires Valid()
      ensures s.isRunning == isRunning && s.crawlIntervalMinutes == crawlInterval
      ensures s.callbackSet == callbackSet
      ensures s.nextRun == (jobs != []) && (s.nextRun ==> s.isRunning)
      ensures s.threadAlive == (threadStarted && threadAlive)
    {
      var alive := false;
      if threadStarted {
        alive := threadAlive;
      }
      s := Status(isRunning, crawlInterval, |jobs| > 0, callbackSet, alive);
    }

    /**
     * `update_interval`: an interval under one minute is refused and
     * changes nothing; otherwise it is stored, and a running service has its
     * job replaced by one with the new interval.
     */
    method UpdateInterval(minutes: int) returns (ok: bool)
      requires Valid()
      modifies this
      ensures Valid()
      ensures ok == (minutes >= 1)
      ensures crawlInterval == if ok then minutes else old(crawlInterval)
      ensures jobs == if ok && isRunning then [minutes] else old(jobs)
      ensures isRunning == old(isRunning) && callbackSet == old(callbackSet)
      ensures threadStarted == old(threadStarted) && manualRuns == old(manualRuns)
    {
      if minutes < 1 {
        return false;
      }
      crawlInterval := minutes;
      if isRunning {
        jobs := [crawlInterval];
      }
      return true;
    }

    /**
     * `run_now`: false without a callback; otherwise the callback runs once
     * and the result says whether it finished within the timeout without
     * raising. Whether the service is running plays no part.
     */
    method RunNow(end: RunEnd) returns (ok: bool)
      requires Valid()
      modifies this
      ensures Valid()
      ensures ok == (callbackSet && end == Succeeded)
      ensures manualRuns == old(manualRuns) + (if callbackSet then 1 else 0)
      ensures isRunning == old(isRunning) && crawlInterval == old(crawlInterval) && jobs == old(jobs)
      ensures callbackSet == old(callbackSet) && threadStarted == old(threadStarted)
    {
      if !callbackSet {
        return false;
      }
      manualRuns := manualRuns + 1;
      match end
      case TimedOut =>
        return false;
      case Raised =>
        return false;
      case Succeeded =>
        return true;
    }
  }
}
