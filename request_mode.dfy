/** Request mode of the producer: resolve the stream in the fetched index and
    submit one of two request strategies, chosen by the `goldcopy` option.
    The remote calls are parameters, each giving its value or the exception
    it raised. `requestDt` is the current UTC time as ISO-8601 text, and
    `defaultReady` is the `data_ready` value a freshly built status record
    carries, whatever it is. */
module RequestMode {
  import opened Records
  import opened StreamLookup

  /** The remote calls of request mode. */
  datatype Remote = Remote(
    streams: Result<seq<StreamDescriptor>>,                                 // fetch_streams_list
    catalogRequest: (StreamDescriptor, HarvestOptions) -> Result<Response>, // create_catalog_request
    estimate: (StreamDescriptor, HarvestOptions) -> Result<Response>,       // create_request_estimate
    perform: (Response, bool) -> Result<Response>)                          // perform_request, given `refresh`

  /** A fresh status record for this request, as `get_status_json` builds it. */
  function NewStatus(tableName: string, requestDt: string, status: Status, defaultReady: bool): (r: StatusDoc)
    ensures r.tableName == tableName && r.lastRequest == requestDt && r.status == status
    ensures r.dataReady == defaultReady
  {
    StatusDoc(tableName, requestDt, status, defaultReady)
  }

  /** The response persisted for a stream the index does not list. */
  function NotFoundResponse(tableName: string): (r: Response)
    ensures r.result.None? && r.estimated.None? && r.message.Some?
    ensures |tableName| <= |r.message.value| && r.message.value[..|tableName|] == tableName
  {
    MessageOnly(tableName + " not found in OOI Database. It may be that this stream has been discontinued.")
  }

  /** The gold-copy strategy as the code stands: the exception is caught and a
      `failed` record is built, but no response is bound, so writing the
      response file raises before either file is written. */
  function GoldCopyAsWritten(stream: StreamDescriptor, tableName: string, opts: HarvestOptions,
                             requestDt: string, defaultReady: bool, remote: Remote): (o: Outcome)
    ensures o.Raised? <==> remote.catalogRequest(stream, opts).Err?
    ensures o.Wrote? ==> o.doc.status == Pending
    ensures remote.catalogRequest(stream, opts).Ok? ==>
      o == Wrote(Some(remote.catalogRequest(stream, opts).value), NewStatus(tableName, requestDt, Pending, defaultReady))
  {
    match remote.catalogRequest(stream, opts)
    case Ok(response) => Wrote(Some(response), NewStatus(tableName, requestDt, Pending, defaultReady))
    case Err(_) => Raised("UnboundLocalError: request_response")
  }

  /** The gold-copy strategy as intended: one call; its exception becomes a
      `failed` record, persisted with a message-only response. */
  function GoldCopy(stream: StreamDescriptor, tableName: string, opts: HarvestOptions,
                    requestDt: string, defaultReady: bool, remote: Remote): (o: Outcome)
    ensures o.Wrote? && o.response.Some?
    ensures o.doc.status == Pending <==> remote.catalogRequest(stream, opts).Ok?
    ensures o.doc.status == Failed <==> remote.catalogRequest(stream, opts).Err?
    ensures remote.catalogRequest(stream, opts).Ok? ==> o.response == Some(remote.catalogRequest(stream, opts).value)
  {
    match remote.catalogRequest(stream, opts)
    case Ok(response) => Wrote(Some(response), NewStatus(tableName, requestDt, Pending, defaultReady))
    case Err(e) => Wrote(Some(MessageOnly(e)), NewStatus(tableName, requestDt, Failed, defaultReady))
  }

  /** The on-demand strategy: an estimate, then the real request only when the
      estimate carries a `requestUUID`; otherwise the estimate itself is the
      persisted response and the request has failed. Exceptions of either
      call, and an estimate without `estimated`, are not caught. */
  function OnDemand(stream: StreamDescriptor, tableName: string, opts: HarvestOptions,
                    requestDt: string, defaultReady: bool, remote: Remote): (o: Outcome)
    ensures o.Wrote? ==> o.response.Some? && o.doc.status in {Pending, Failed}
    ensures o.Wrote? ==> remote.estimate(stream, opts).Ok? && remote.estimate(stream, opts).value.estimated.Some?
    ensures o.Wrote? ==>
      var est := remote.estimate(stream, opts).value;
      (o.doc.status == Pending <==> est.estimated.value.requestUuid.Some?)
  {
    match remote.estimate(stream, opts)
    case Err(e) => Raised(e)
    case Ok(est) =>
      if est.estimated.None? then Raised("KeyError: 'estimated'")
      else if est.estimated.value.requestUuid.Some? then
        match remote.perform(est, opts.refresh)
        case Err(e) => Raised(e)
        case Ok(response) => Wrote(Some(response), NewStatus(tableName, requestDt, Pending, defaultReady))
      else Wrote(Some(est), NewStatus(tableName, requestDt, Failed, defaultReady))
  }

  /** One request-mode invocation. It never produces `success` or `skip`, and
      always persists a response together with the status record. */
  function RequestStep(tableName: string, opts: HarvestOptions, requestDt: string,
                       defaultReady: bool, remote: Remote): (o: Outcome)
    ensures !o.Exited?
    ensures o.Wrote? ==> o.response.Some? && o.doc.status in {Pending, Failed, Discontinued}
    ensures o.Wrote? ==> o.doc.tableName == tableName && o.doc.lastRequest == requestDt
    ensures o.Wrote? ==> o.doc.dataReady == defaultReady
  {
    match remote.streams
    case Err(e) => Raised(e)
    case Ok(streams) =>
      match FindStream(streams, tableName)
      case NotFound =>
        Wrote(Some(NotFoundResponse(tableName)), NewStatus(tableName, requestDt, Discontinued, defaultReady))
      case Found(stream) =>
        if opts.goldcopy then GoldCopy(stream, tableName, opts, requestDt, defaultReady, remote)
        else OnDemand(stream, tableName, opts, requestDt, defaultReady, remote)
  }

  /** A name absent from the index makes the stream `discontinued`, with the
      not-found message as response, whatever the harvest options. */
  lemma AbsentStreamDiscontinued(tableName: string, opts: HarvestOptions, requestDt: string,
                                 defaultReady: bool, remote: Remote)
    requires remote.streams.Ok?
    requires forall i :: 0 <= i < |remote.streams.value| ==> remote.streams.value[i].tableName != Some(tableName)
    ensures RequestStep(tableName, opts, requestDt, defaultReady, remote)
         == Wrote(Some(NotFoundResponse(tableName)), NewStatus(tableName, requestDt, Discontinued, defaultReady))
  {
  }

  /** A stream whose first match in the index is entry `i` is requested with
      that entry, by the strategy `goldcopy` selects. */
  lemma RequestUsesFirstMatch(tableName: string, opts: HarvestOptions, requestDt: string,
                              defaultReady: bool, remote: Remote, i: int)
    requires remote.streams.Ok? && FirstMatchAt(remote.streams.value, tableName, i)
    ensures var stream := remote.streams.value[i];
      RequestStep(tableName, opts, requestDt, defaultReady, remote)
      == if opts.goldcopy then GoldCopy(stream, tableName, opts, requestDt, defaultReady, remote)
         else OnDemand(stream, tableName, opts, requestDt, defaultReady, remote)
  {
    FindStreamIsFirstMatch(remote.streams.value, tableName);
  }

  /** Gold copy: `pending` with the export's response when the call returns,
      `failed` when it raises; the estimate and perform calls are never
      consulted. */
  lemma GoldCopyOutcomes(tableName: string, opts: HarvestOptions, requestDt: string,
                         defaultReady: bool, remote: Remote, stream: StreamDescriptor)
    requires opts.goldcopy && remote.streams.Ok?
    requires FindStream(remote.streams.value, tableName) == Found(stream)
    ensures var o := RequestStep(tableName, opts, requestDt, defaultReady, remote);
      match remote.catalogRequest(stream, opts)
      case Ok(r) => o == Wrote(Some(r), NewStatus(tableName, requestDt, Pending, defaultReady))
      case Err(e) => o == Wrote(Some(MessageOnly(e)), NewStatus(tableName, requestDt, Failed, defaultReady))
  {
  }

  /** On demand: `pending` exactly when the estimate carries a `requestUUID`
      (and the real request returns); without one, the estimate is persisted
      as the response and the status is `failed`. */
  lemma OnDemandOutcomes(tableName: string, opts: HarvestOptions, requestDt: string,
                         defaultReady: bool, remote: Remote, stream: StreamDescriptor, est: Response)
    requires !opts.goldcopy && remote.streams.Ok?
    requires FindStream(remote.streams.value, tableName) == Found(stream)
    requires remote.estimate(stream, opts) == Ok(est) && est.estimated.Some?
    ensures var o := RequestStep(tableName, opts, requestDt, defaultReady, remote);
      && (est.estimated.value.requestUuid.None? ==>
            o == Wrote(Some(est), NewStatus(tableName, requestDt, Failed, defaultReady)))
      && (est.estimated.value.requestUuid.Some? ==>
            match remote.perform(est, opts.refresh)
            case Ok(r) => o == Wrote(Some(r), NewStatus(tableName, requestDt, Pending, defaultReady))
            case Err(e) => o == Raised(e))
  {
  }

  /** The strategy is a function of `goldcopy` alone: with gold copy the
      outcome does not depend on the on-demand calls, and without it, it does
      not depend on the catalog-export call. */
  lemma StrategySelection(tableName: string, opts: HarvestOptions, requestDt: string,
                          defaultReady: bool, remote: Remote, other: Remote)
    requires other.streams == remote.streams
    requires opts.goldcopy ==> other.catalogRequest == remote.catalogRequest
    requires !opts.goldcopy ==> other.estimate == remote.estimate && other.perform == remote.perform
    ensures RequestStep(tableName, opts, requestDt, defaultReady, other)
         == RequestStep(tableName, opts, requestDt, defaultReady, remote)
  {
  }

  /** The code as written never persists the `failed` status of a gold-copy
      export that raised: the invocation itself raises and both files keep
      their old contents, where the intended strategy writes `failed`. */
  lemma GoldCopyFailureNotPersisted(d: Disk, stream: StreamDescriptor, tableName: string, opts: HarvestOptions,
                                    requestDt: string, defaultReady: bool, remote: Remote)
    requires remote.catalogRequest(stream, opts).Err?
    ensures GoldCopyAsWritten(stream, tableName, opts, requestDt, defaultReady, remote).Raised?
    ensures Persist(d, GoldCopyAsWritten(stream, tableName, opts, requestDt, defaultReady, remote)) == d
    ensures Persist(d, GoldCopy(stream, tableName, opts, requestDt, defaultReady, remote)).status
         == Some(NewStatus(tableName, requestDt, Failed, defaultReady))
  {
  }

  /** Request mode never reads the status record: whatever the files held,
      a run that writes replaces the record with the one it built, and the
      response file with the response it obtained. */
  lemma RequestOverwritesRecord(d: Disk, tableName: string, opts: HarvestOptions, requestDt: string,
                                defaultReady: bool, remote: Remote)
    ensures var o := RequestStep(tableName, opts, requestDt, defaultReady, remote);
      o.Wrote? ==> Persist(d, o) == Disk(Some(o.doc), o.response)
  {
  }

  /** So a `discontinued` record does not survive request mode once the
      stream is listed again: a run that writes replaces it with `pending`
      or `failed`, whichever the selected strategy decides. */
  lemma RequestMayReviveDiscontinued(d: Disk, tableName: string, opts: HarvestOptions, requestDt: string,
                                     defaultReady: bool, remote: Remote, i: int)
    requires d.status.Some? && d.status.value.status == Discontinued
    requires remote.streams.Ok? && FirstMatchAt(remote.streams.value, tableName, i)
    ensures var o := RequestStep(tableName, opts, requestDt, defaultReady, remote);
      o.Wrote? ==> Persist(d, o).status == Some(o.doc) && o.doc.status in {Pending, Failed}
  {
    FindStreamIsFirstMatch(remote.streams.value, tableName);
  }

  /** With a status record that starts without data ready, request mode keeps
      the consistency rule of the record. */
  lemma RequestKeepsConsistency(d: Disk, tableName: string, opts: HarvestOptions, requestDt: string, remote: Remote)
    requires ReadyOnlyOnSuccess(d)
    ensures ReadyOnlyOnSuccess(Persist(d, RequestStep(tableName, opts, requestDt, false, remote)))
  {
  }
}
