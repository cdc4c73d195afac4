/** The values the request/check lifecycle of the producer reads, writes and
    passes between invocations: the status record, the persisted response,
    the entries of the remote stream index, and what one invocation does to
    the two persisted files. */
module Records {

  datatype Option<T> = None | Some(value: T)

  /** What a call into a remote collaborator gives back: its value, or the
      exception it raised (described by `error`). */
  datatype Result<T> = Ok(value: T) | Err(error: string)

  /** The five values of the `status` key of the status record. */
  datatype Status = Pending | Success | Failed | Skip | Discontinued

  /** The persisted status record: `table_name`, `last_request` (an ISO-8601
      timestamp, kept as text), `status` and `data_ready`. */
  datatype StatusDoc = StatusDoc(tableName: string, lastRequest: string, status: Status, dataReady: bool)

  /** The `result` object of a persisted response. `statusUrl` is None when
      the key `status_url` is absent (a direct, gold-copy style response).
      `requestDt` is the `request_dt` timestamp in microseconds, None when
      the key is absent or its text does not parse. */
  datatype JobResult = JobResult(statusUrl: Option<string>, requestDt: Option<int>)

  /** The `estimated` object of a request estimate; `requestUuid` is None when
      the key `requestUUID` is absent. */
  datatype Estimated = Estimated(requestUuid: Option<string>)

  /** A response document as persisted; each field is None when its key is
      absent. A successful request carries `result`; an estimate carries
      `estimated`; a failure carries only `message`. */
  datatype Response = Response(result: Option<JobResult>, estimated: Option<Estimated>, message: Option<string>)

  /** The response written when a stream cannot be resolved: only a message. */
  function MessageOnly(text: string): Response
  {
    Response(None, None, Some(text))
  }

  /** One entry of the remote stream index. `tableName` is None when the
      entry has no `table_name` key. */
  datatype StreamDescriptor = StreamDescriptor(tableName: Option<string>, beginTime: string, endTime: string)

  /** The harvest options forwarded to the request strategies. */
  datatype HarvestOptions = HarvestOptions(
    goldcopy: bool,
    refresh: bool,
    customStart: Option<string>,
    customEnd: Option<string>,
    path: string)

  /** The two persisted files, each None when it does not exist. */
  datatype Disk = Disk(status: Option<StatusDoc>, response: Option<Response>)

  /** Why an invocation ended with `sys.exit(0)` without writing anything. */
  datatype ExitReason =
    | NoRequestYet              // check mode found a file missing
    | StreamDiscontinued        // check mode found the stream discontinued
    | StillRunning(elapsed: int) // job in progress and not yet timed out

  /** What one invocation ends with. `Exited` and `Raised` write nothing;
      `Wrote` overwrites the status file with `doc` and, when `response` is
      present, the response file with it. */
  datatype Outcome =
    | Exited(reason: ExitReason)
    | Raised(error: string)
    | Wrote(response: Option<Response>, doc: StatusDoc)

  /** The files after an invocation that ended with `o`: an exit or an
      uncaught exception leaves both files as they were; a write replaces the
      whole status record, and replaces the response file only when it is
      given a response. */
  function Persist(d: Disk, o: Outcome): (g: Disk)
    ensures !o.Wrote? ==> g == d
    ensures o.Wrote? ==> g.status == Some(o.doc)
    ensures o.Wrote? && o.response.None? ==> g.response == d.response
    ensures o.Wrote? && o.response.Some? ==> g.response == o.response
  {
    match o
    case Wrote(response, doc) =>
      Disk(Some(doc), if response.Some? then response else d.response)
    case _ => d
  }

  /** The status record's consistency rule: only a `success` record may
      carry `data_ready`. */
  predicate ReadyOnlyOnSuccess(d: Disk)
  {
    d.status.Some? && d.status.value.dataReady ==> d.status.value.status == Success
  }
}
