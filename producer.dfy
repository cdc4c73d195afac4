/** The producer entry point: one invocation in check mode or request mode,
    acting on the two persisted files, and the lifecycle of many invocations
    that an external scheduler strings together through those files. */
module Producer {
  import opened Records
  import opened StreamLookup
  import opened CheckMode
  import opened RequestMode

  /** One invocation: the mode flag, and the environment that mode consults. */
  datatype Invocation =
    | CheckCall(poll: string -> Result<bool>, fallback: Response -> Result<nat>, now: int)
    | RequestCall(tableName: string, opts: HarvestOptions, requestDt: string, remote: Remote)

  /** What one invocation decides, given the files it starts from. */
  function Invoke(d: Disk, inv: Invocation, defaultReady: bool): (o: Outcome)
    ensures inv.CheckCall? && o.Wrote? ==> o.response.None? && o.doc.status in {Success, Failed, Skip}
    ensures inv.RequestCall? ==> !o.Exited?
    ensures inv.RequestCall? && o.Wrote? ==> o.response.Some? && o.doc.status in {Pending, Failed, Discontinued}
  {
    match inv
    case CheckCall(poll, fallback, now) => CheckStep(d, poll, fallback, now)
    case RequestCall(tableName, opts, requestDt, remote) => RequestStep(tableName, opts, requestDt, defaultReady, remote)
  }

  /** The files after a series of invocations, each starting from the files
      the previous one left. */
  function Run(d: Disk, invs: seq<Invocation>, defaultReady: bool): Disk
    decreases |invs|
  {
    if invs == [] then d
    else Run(Persist(d, Invoke(d, invs[0], defaultReady)), invs[1..], defaultReady)
  }

  /** Once the status record says `discontinued`, no series of check-mode
      invocations changes either file. */
  lemma {:induction false} DiscontinuedIsAbsorbing(d: Disk, invs: seq<Invocation>, defaultReady: bool)
    requires d.status.Some? && d.status.value.status == Discontinued
    requires forall i :: 0 <= i < |invs| ==> invs[i].CheckCall?
    ensures Run(d, invs, defaultReady) == d
    decreases |invs|
  {
    if invs != [] {
      var inv := invs[0];
      CheckKeepsDiscontinued(d, inv.poll, inv.fallback, inv.now);
      DiscontinuedIsAbsorbing(d, invs[1..], defaultReady);
    }
  }

  /** When fresh status records start without data ready, every series of
      invocations keeps the rule that only a `success` record carries
      `data_ready`. */
  lemma {:induction false} RunKeepsConsistency(d: Disk, invs: seq<Invocation>)
    requires ReadyOnlyOnSuccess(d)
    ensures ReadyOnlyOnSuccess(Run(d, invs, false))
    decreases |invs|
  {
    if invs != [] {
      var d1 := Persist(d, Invoke(d, invs[0], false));
      match invs[0] {
        case CheckCall(poll, fallback, now) => CheckKeepsConsistency(d, poll, fallback, now);
        case RequestCall(tableName, opts, requestDt, remote) => RequestKeepsConsistency(d, tableName, opts, requestDt, remote);
      }
      RunKeepsConsistency(d1, invs[1..]);
    }
  }

  /** The two persisted files: the status record and the last response. */
  class Store {
    var statusFile: Option<StatusDoc>
    var responseFile: Option<Response>

    function Files(): Disk
      reads this
    {
      Disk(statusFile, responseFile)
    }

    constructor (status: Option<StatusDoc>, response: Option<Response>)
      ensures Files() == Disk(status, response)
    {
      statusFile := status;
      responseFile := response;
    }

    /** Check mode: load both files, update the loaded status record in
        place, and write it back; or stop without writing. */
    method Check(poll: string -> Result<bool>, fallback: Response -> Result<nat>, now: int) returns (o: Outcome)
      modifies this
      ensures o == CheckStep(old(Files()), poll, fallback, now)
      ensures Files() == Persist(old(Files()), o)
      ensures responseFile == old(responseFile)
      ensures ReadyOnlyOnSuccess(old(Files())) ==> ReadyOnlyOnSuccess(Files())
    {
      if statusFile.None? || responseFile.None? {
        return Exited(NoRequestYet);
      }
      var doc := statusFile.value;
      var response := responseFile.value;
      if doc.status == Discontinued {
        return Exited(StreamDiscontinued);
      }
      if response.result.None? {
        return Raised("KeyError: 'result'");
      }
      var job := response.result.value;
      if job.statusUrl.Some? {
        var polled := poll(job.statusUrl.value);
        if polled.Err? {
          return Raised(polled.error);
        }
        if !polled.value {
          doc := doc.(status := Success);
          doc := doc.(dataReady := true);
        } else {
          if job.requestDt.None? {
            return Raised("request_dt missing or unparsable");
          }
          var elapsed := now - job.requestDt.value;
          if elapsed > TwoDays {
            var scanned := fallback(response);
            if scanned.Err? {
              return Raised(scanned.error);
            }
            if scanned.value > 0 {
              doc := doc.(status := Success);
              doc := doc.(dataReady := true);
            } else {
              doc := doc.(status := Failed);
              doc := doc.(dataReady := false);
            }
          } else {
            return Exited(StillRunning(elapsed));
          }
        }
      } else {
        doc := doc.(status := Skip);
        doc := doc.(dataReady := false);
      }
      statusFile := Some(doc);
      o := Wrote(None, doc);
    }

    /** Request mode: resolve the stream, run the selected strategy, then
        overwrite the response file and the status record. */
    method Request(tableName: string, opts: HarvestOptions, requestDt: string,
                   defaultReady: bool, remote: Remote) returns (o: Outcome)
      modifies this
      ensures o == RequestStep(tableName, opts, requestDt, defaultReady, remote)
      ensures Files() == Persist(old(Files()), o)
      ensures o.Wrote? ==> responseFile == o.response && statusFile == Some(o.doc)
    {
      if remote.streams.Err? {
        return Raised(remote.streams.error);
      }
      var lookup := FindStream(remote.streams.value, tableName);
      var response: Response;
      var doc: StatusDoc;
      if lookup.NotFound? {
        response := NotFoundResponse(tableName);
        doc := NewStatus(tableName, requestDt, Discontinued, defaultReady);
      } else if opts.goldcopy {
        var exported := remote.catalogRequest(lookup.stream, opts);
        if exported.Ok? {
          response := exported.value;
          doc := NewStatus(tableName, requestDt, Pending, defaultReady);
        } else {
          response := MessageOnly(exported.error);
          doc := NewStatus(tableName, requestDt, Failed, defaultReady);
        }
      } else {
        var estimated := remote.estimate(lookup.stream, opts);
        if estimated.Err? {
          return Raised(estimated.error);
        }
        var est := estimated.value;
        if est.estimated.None? {
          return Raised("KeyError: 'estimated'");
        }
        if est.estimated.value.requestUuid.Some? {
          var performed := remote.perform(est, opts.refresh);
          if performed.Err? {
            return Raised(performed.error);
          }
          response := performed.value;
          doc := NewStatus(tableName, requestDt, Pending, defaultReady);
        } else {
          response := est;
          doc := NewStatus(tableName, requestDt, Failed, defaultReady);
        }
      }
      responseFile := Some(response);
      statusFile := Some(doc);
      o := Wrote(Some(response), doc);
    }

    /** One invocation of the producer, in the mode `inv` selects. */
    method Produce(inv: Invocation, defaultReady: bool) returns (o: Outcome)
      modifies this
      ensures o == Invoke(old(Files()), inv, defaultReady)
      ensures Files() == Persist(old(Files()), o)
    {
      match inv
      case CheckCall(poll, fallback, now) =>
        o := Check(poll, fallback, now);
      case RequestCall(tableName, opts, requestDt, remote) =>
        o := Request(tableName, opts, requestDt, defaultReady, remote);
    }
  }
}
