/** Check mode of the producer: read the persisted status record and
    response, poll the remote job, and decide the next status. The two remote
    calls are parameters: `poll` is `check_in_progress` applied to the job's
    `status_url` (true while the job is running), and `fallback` is the
    catalog scan (`parse_response_thredds` then `filter_and_parse_datasets`)
    giving the number of usable datasets. Either may raise, and neither
    exception is caught. `now` is the current UTC time in microseconds. */
module CheckMode {
  import opened Records

  /** `datetime.timedelta(days=2)` in microseconds, the resolution of
      Python's time differences. */
  const TwoDays: int := 2 * 24 * 60 * 60 * 1_000_000

  function CheckStep(d: Disk, poll: string -> Result<bool>, fallback: Response -> Result<nat>, now: int): (o: Outcome)
    ensures o.Wrote? ==> d.status.Some? && d.response.Some? && o.response.None?
    ensures o.Wrote? ==> d.status.value.status != Discontinued
    ensures o.Wrote? ==> o.doc.status in {Success, Failed, Skip}
    ensures o.Wrote? ==> (o.doc.dataReady <==> o.doc.status == Success)
    ensures o.Wrote? ==> o.doc == d.status.value.(status := o.doc.status, dataReady := o.doc.dataReady)
  {
    if d.status.None? || d.response.None? then Exited(NoRequestYet)
    else
      var doc, response := d.status.value, d.response.value;
      if doc.status == Discontinued then Exited(StreamDiscontinued)
      else if response.result.None? then Raised("KeyError: 'result'")
      else
        var job := response.result.value;
        if job.statusUrl.None? then Wrote(None, doc.(status := Skip, dataReady := false))
        else
          match poll(job.statusUrl.value)
          case Err(e) => Raised(e)
          case Ok(inProgress) =>
            if !inProgress then Wrote(None, doc.(status := Success, dataReady := true))
            else if job.requestDt.None? then Raised("request_dt missing or unparsable")
            else
              var elapsed := now - job.requestDt.value;
              if elapsed > TwoDays then
                match fallback(response)
                case Err(e) => Raised(e)
                case Ok(datasets) =>
                  if datasets > 0 then Wrote(None, doc.(status := Success, dataReady := true))
                  else Wrote(None, doc.(status := Failed, dataReady := false))
              else Exited(StillRunning(elapsed))
  }

  /** Without both a status record and a response, check mode exits before
      reading or writing anything. */
  lemma CheckNeedsBothFiles(d: Disk, poll: string -> Result<bool>, fallback: Response -> Result<nat>, now: int)
    requires d.status.None? || d.response.None?
    ensures CheckStep(d, poll, fallback, now) == Exited(NoRequestYet)
    ensures Persist(d, CheckStep(d, poll, fallback, now)) == d
  {
  }

  /** A discontinued stream short-circuits check mode: no remote call is
      consulted and neither file changes. */
  lemma CheckKeepsDiscontinued(d: Disk, poll: string -> Result<bool>, fallback: Response -> Result<nat>, now: int)
    requires d.status.Some? && d.status.value.status == Discontinued
    ensures CheckStep(d, poll, fallback, now).Exited?
    ensures d.response.Some? ==> CheckStep(d, poll, fallback, now) == Exited(StreamDiscontinued)
    ensures Persist(d, CheckStep(d, poll, fallback, now)) == d
  {
  }

  /** A response whose `result` has no `status_url` has nothing to poll: the
      record becomes `skip` without data ready. */
  lemma CheckSkipsDirectResponse(d: Disk, poll: string -> Result<bool>, fallback: Response -> Result<nat>, now: int)
    requires d.status.Some? && d.status.value.status != Discontinued
    requires d.response.Some? && d.response.value.result.Some?
    requires d.response.value.result.value.statusUrl.None?
    ensures CheckStep(d, poll, fallback, now) == Wrote(None, d.status.value.(status := Skip, dataReady := false))
  {
  }

  /** A job the remote service no longer reports in progress has finished:
      the record becomes `success` with data ready. */
  lemma CheckFinishedJob(d: Disk, poll: string -> Result<bool>, fallback: Response -> Result<nat>, now: int)
    requires d.status.Some? && d.status.value.status != Discontinued
    requires d.response.Some? && d.response.value.result.Some?
    requires d.response.value.result.value.statusUrl.Some?
    requires poll(d.response.value.result.value.statusUrl.value) == Ok(false)
    ensures CheckStep(d, poll, fallback, now) == Wrote(None, d.status.value.(status := Success, dataReady := true))
  {
  }

  /** A job still in progress more than two days after it was requested is
      decided by the catalog scan: `success` with data ready exactly when at
      least one dataset survives the filter, otherwise `failed`. */
  lemma CheckTimedOut(d: Disk, poll: string -> Result<bool>, fallback: Response -> Result<nat>, now: int, datasets: nat)
    requires d.status.Some? && d.status.value.status != Discontinued
    requires d.response.Some? && d.response.value.result.Some?
    requires d.response.value.result.value.statusUrl.Some?
    requires poll(d.response.value.result.value.statusUrl.value) == Ok(true)
    requires d.response.value.result.value.requestDt.Some?
    requires now - d.response.value.result.value.requestDt.value > TwoDays
    requires fallback(d.response.value) == Ok(datasets)
    ensures CheckStep(d, poll, fallback, now).Wrote?
    ensures CheckStep(d, poll, fallback, now).doc.status == Success <==> datasets > 0
    ensures CheckStep(d, poll, fallback, now).doc.status == Failed <==> datasets == 0
    ensures CheckStep(d, poll, fallback, now).doc.dataReady <==> datasets > 0
  {
  }

  /** A job still in progress at most two days after it was requested ends
      the invocation with nothing written. */
  lemma CheckWithinTimeout(d: Disk, poll: string -> Result<bool>, fallback: Response -> Result<nat>, now: int)
    requires d.status.Some? && d.status.value.status != Discontinued
    requires d.response.Some? && d.response.value.result.Some?
    requires d.response.value.result.value.statusUrl.Some?
    requires poll(d.response.value.result.value.statusUrl.value) == Ok(true)
    requires d.response.value.result.value.requestDt.Some?
    requires now - d.response.value.result.value.requestDt.value <= TwoDays
    ensures CheckStep(d, poll, fallback, now) == Exited(StillRunning(now - d.response.value.result.value.requestDt.value))
    ensures Persist(d, CheckStep(d, poll, fallback, now)) == d
  {
  }

  /** A polling failure is not caught: the invocation aborts and writes
      nothing. */
  lemma CheckPollFailurePropagates(d: Disk, poll: string -> Result<bool>, fallback: Response -> Result<nat>, now: int)
    requires d.status.Some? && d.status.value.status != Discontinued
    requires d.response.Some? && d.response.value.result.Some?
    requires d.response.value.result.value.statusUrl.Some?
    requires poll(d.response.value.result.value.statusUrl.value).Err?
    ensures CheckStep(d, poll, fallback, now) == Raised(poll(d.response.value.result.value.statusUrl.value).error)
    ensures Persist(d, CheckStep(d, poll, fallback, now)) == d
  {
  }

  /** Check mode never breaks the record's consistency rule, and never
      touches the response file. */
  lemma CheckKeepsConsistency(d: Disk, poll: string -> Result<bool>, fallback: Response -> Result<nat>, now: int)
    requires ReadyOnlyOnSuccess(d)
    ensures ReadyOnlyOnSuccess(Persist(d, CheckStep(d, poll, fallback, now)))
    ensures Persist(d, CheckStep(d, poll, fallback, now)).response == d.response
  {
  }

  /** Checking twice with the same remote answers and the same clock leaves
      the same files as checking once. */
  lemma CheckIdempotent(d: Disk, poll: string -> Result<bool>, fallback: Response -> Result<nat>, now: int)
    ensures var d1 := Persist(d, CheckStep(d, poll, fallback, now));
            Persist(d1, CheckStep(d1, poll, fallback, now)) == d1
  {
  }
}
