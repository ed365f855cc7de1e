/**
 * AbstractTemplateServerController: the request checks and the provenance
 * stamp the Play controllers share. Failures are IllegalArgumentExceptions.
 */
module TemplateServerController {
  import opened Wrappers
  import opened Json
  import opened JavaString
  import opened Http
  import opened Paging
  import opened Services
  import JaxRs = TemplateServerResource

  /** The configuration the controller reads once at start-up. */
  datatype ControllerConfig = ControllerConfig(
    defaultPageSize: int,          // pagination default page size
    maxPageSize: int,              // pagination max page size
    userBasePath: string,          // base of user ids
    exclusionList: seq<string>)    // fields left out of a default listing

  const OFFSET_NOT_POSITIVE := "Parameter 'offset' must be positive!"
  const LIMIT_NOT_POSITIVE := "Parameter 'limit' must be greater than zero!"
  const FIELD_NAMES_WITH_SUMMARY := "It is no allowed to specify parameter 'fieldNames' and also set 'summary' to true!"

  function LimitAboveMaximumMessage(maxPageSize: int): string
  {
    "Parameter 'limit' must be at most " + IntText(maxPageSize) + "!"
  }

  const CREATED_ON := "pav:createdOn"
  const LAST_UPDATED_ON := "pav:lastUpdatedOn"
  const CREATED_BY := "pav:createdBy"
  const LAST_UPDATED_BY := "cedar:lastUpdatedBy"

  /** The four keys addProvenanceInfo writes. */
  const ProvenanceKeys: set<string> := {CREATED_ON, LAST_UPDATED_ON, CREATED_BY, LAST_UPDATED_BY}

  /** ensureLimit: a missing limit becomes the configured default page size. */
  function EnsureLimit(limit: Option<int>, defaultPageSize: int): (r: int)
    ensures limit.None? ==> r == defaultPageSize
    ensures limit.Some? ==> r == limit.value
  {
    if limit.None? then defaultPageSize else limit.value
  }

  /** A page request the controller accepts before running the query. */
  predicate ValidPageRequest(limit: int, offset: int, maxPageSize: int)
  {
    offset >= 0 && 0 < limit <= maxPageSize
  }

  /**
   * checkPagingParameters: the offset is checked first, then a non-positive
   * limit, then the maximum page size; the first failing check is reported.
   */
  function CheckPagingParameters(limit: int, offset: int, maxPageSize: int): (thrown: Option<Exception>)
    ensures thrown.None? <==> ValidPageRequest(limit, offset, maxPageSize)
    ensures offset < 0 ==> thrown == Some(IllegalArgument(OFFSET_NOT_POSITIVE))
    ensures offset >= 0 && limit <= 0 ==> thrown == Some(IllegalArgument(LIMIT_NOT_POSITIVE))
    ensures offset >= 0 && limit > 0 && limit > maxPageSize ==>
      thrown == Some(IllegalArgument(LimitAboveMaximumMessage(maxPageSize)))
  {
    if offset < 0 then Some(IllegalArgument(OFFSET_NOT_POSITIVE))
    else if limit <= 0 then Some(IllegalArgument(LIMIT_NOT_POSITIVE))
    else if limit > maxPageSize then Some(IllegalArgument(LimitAboveMaximumMessage(maxPageSize)))
    else None
  }

  /** checkPagingParametersAgainstTotal: a nonzero offset must fall inside the total. */
  function CheckPagingParametersAgainstTotal(offset: int, total: int): (thrown: Option<Exception>)
    ensures thrown.None? <==> OffsetWithinTotal(offset, total)
    ensures thrown.Some? ==> thrown.value == IllegalArgument(OffsetBeyondTotalMessage(total))
  {
    if offset != 0 && offset > total - 1 then Some(IllegalArgument(OffsetBeyondTotalMessage(total))) else None
  }

  /**
   * getAndCheckFieldNames: a field-name string (even "") together with a
   * summary is refused; a non-empty string is split on commas; an empty or
   * missing string yields no list.
   */
  function GetAndCheckFieldNames(fieldNames: Option<string>, summary: bool): (r: Result<Option<seq<string>>, Exception>)
    ensures r.Err? <==> fieldNames.Some? && summary
    ensures r.Err? ==> r.error == IllegalArgument(FIELD_NAMES_WITH_SUMMARY)
    ensures r == Ok(None) <==> fieldNames.None? || (!summary && fieldNames.value == "")
    ensures r.Ok? && r.value.Some? ==> r.value.value == Split(fieldNames.value, ',')
    ensures r.Ok? && r.value.Some? && fieldNames.value[|fieldNames.value| - 1] != ',' ==>
      Join(r.value.value, ',') == fieldNames.value
  {
    if fieldNames.Some? then
      if summary then Err(IllegalArgument(FIELD_NAMES_WITH_SUMMARY))
      else if |fieldNames.value| > 0 then
        var s := fieldNames.value;
        if s[|s| - 1] != ',' then SplitJoin(s, ','); Ok(Some(Split(s, ',')))
        else Ok(Some(Split(s, ',')))
      else Ok(None)
    else Ok(None)
  }

  /**
   * The user id written as creator and last updater: the configured base path
   * followed by the account id, or by "null" when the account lookup failed
   * (Java string concatenation of a null reference).
   */
  function UserId(userBasePath: string, accountId: Option<string>): (r: string)
    ensures userBasePath <= r
    ensures accountId.Some? ==> r[|userBasePath|..] == accountId.value
    ensures accountId.None? ==> r[|userBasePath|..] == "null"
  {
    userBasePath + (if accountId.Some? then accountId.value else "null")
  }

  /**
   * addProvenanceInfo: writes the creation and update timestamps (both the
   * same `now`) and the creator and updater (both the same user id) into the
   * object in place, and changes nothing else. `accountId` is None when the
   * account lookup failed; that failure is swallowed.
   */
  method AddProvenanceInfo(resource: ObjectNode, accountId: Option<string>, now: string, userBasePath: string)
    modifies resource
    ensures resource.fields.Keys == old(resource.fields).Keys + ProvenanceKeys
    ensures resource.fields[CREATED_ON] == resource.fields[LAST_UPDATED_ON] == JString(now)
    ensures resource.fields[CREATED_BY] == resource.fields[LAST_UPDATED_BY] == JString(UserId(userBasePath, accountId))
    ensures forall k :: k in old(resource.fields) && k !in ProvenanceKeys ==> resource.fields[k] == old(resource.fields)[k]
  {
    var userId := UserId(userBasePath, accountId);
    resource.Put(CREATED_ON, JString(now));
    resource.Put(LAST_UPDATED_ON, JString(now));
    resource.Put(CREATED_BY, JString(userId));
    resource.Put(LAST_UPDATED_BY, JString(userId));
  }

  /**
   * The steps both Play listing handlers take before the query: default the
   * limit, check paging, check the field names, then choose the projection.
   */
  function PlanListing(cfg: ControllerConfig, summaryList: seq<string>, limitParam: Option<int>, offset: int,
                       summary: bool, fieldNames: Option<string>): (plan: ListPlan)
    ensures var limit := EnsureLimit(limitParam, cfg.defaultPageSize);
            var paging := CheckPagingParameters(limit, offset, cfg.maxPageSize);
            var names := GetAndCheckFieldNames(fieldNames, summary);
      && (paging.Some? ==> plan == Refused(paging.value))
      && (paging.None? && names.Err? ==> plan == Refused(names.error))
      && (paging.None? && names.Ok? ==> plan.Query? && plan.limit == limit && plan.offset == offset)
  {
    var limit := EnsureLimit(limitParam, cfg.defaultPageSize);
    var paging := CheckPagingParameters(limit, offset, cfg.maxPageSize);
    if paging.Some? then Refused(paging.value)
    else
      var names := GetAndCheckFieldNames(fieldNames, summary);
      if names.Err? then Refused(names.error)
      else Query(limit, offset, ChooseProjection(summary, names.value, summaryList, cfg.exclusionList))
  }

  /**
   * What a Play listing handler answers for a plan, given the store's
   * documents and fault, together with the headers it leaves on `response()`
   * (starting from `headers`). Every exception is caught: a refused plan and
   * a failed query leave the headers alone; once the count is known the total
   * header is set, even when the offset then turns out to be beyond it.
   */
  function PlayListing(env: Collaborators, plan: ListPlan, docs: seq<Doc>, fault: Option<Exception>,
                       headers: map<string, string>, absoluteUrl: string): (answer: (PlayResult, map<string, string>))
    ensures answer.0.status in {OK, FORBIDDEN, INTERNAL_SERVER_ERROR}
    ensures plan.Refused? ==> answer == (PlayCatch(plan.exception, false, false), headers)
    ensures plan.Query? && fault.Some? ==> answer == (PlayCatch(fault.value, false, false), headers)
    ensures plan.Query? && fault.None? && !OffsetWithinTotal(plan.offset, |docs|) ==>
      answer == (PlayCatch(IllegalArgument(OffsetBeyondTotalMessage(|docs|)), false, false),
                 headers[HEADER_TOTAL_COUNT := IntText(|docs|)])
    ensures answer.0.status == OK <==> plan.Query? && fault.None? && OffsetWithinTotal(plan.offset, |docs|)
    ensures answer.0.status == OK ==>
      && answer.0.body == Documents(Listed(docs, plan.limit, plan.offset, plan.projection))
      && answer.1 == headers + ListingHeaders(|docs|, env.pagingLinkHeader(absoluteUrl, |docs|, plan.limit, plan.offset))
  {
    match plan
    case Refused(e) => (PlayCatch(e, false, false), headers)
    case Query(limit, offset, projection) =>
      if fault.Some? then (PlayCatch(fault.value, false, false), headers)
      else
        var total := |docs|;
        var withTotal := headers[HEADER_TOTAL_COUNT := IntText(total)];
        var beyond := CheckPagingParametersAgainstTotal(offset, total);
        if beyond.Some? then (PlayCatch(beyond.value, false, false), withTotal)
        else
          var linkHeader := env.pagingLinkHeader(absoluteUrl, total, limit, offset);
          (PlayResult(OK, Documents(Listed(docs, limit, offset, projection))),
           if linkHeader != "" then withTotal[HEADER_LINK := linkHeader] else withTotal)
  }

  /**
   * A Play listing query only runs for a valid page, and with exactly one
   * projection mode: summary list, split field names, or exclusion list.
   */
  lemma ListingPlanned(cfg: ControllerConfig, summaryList: seq<string>, limitParam: Option<int>, offset: int,
                       summary: bool, fieldNames: Option<string>)
    requires PlanListing(cfg, summaryList, limitParam, offset, summary, fieldNames).Query?
    ensures var plan := PlanListing(cfg, summaryList, limitParam, offset, summary, fieldNames);
      && ValidPageRequest(plan.limit, offset, cfg.maxPageSize)
      && (limitParam.None? ==> plan.limit == cfg.defaultPageSize)
      && (summary ==> fieldNames.None? && plan.projection == Projection(summaryList, Include))
      && (!summary && fieldNames.Some? && fieldNames.value != "" ==>
            plan.projection == Projection(Split(fieldNames.value, ','), Include))
      && (!summary && (fieldNames.None? || fieldNames.value == "") ==>
            plan.projection == Projection(cfg.exclusionList, Exclude))
  {
  }

  /**
   * The Play and JAX-RS field-name checks accept and refuse the same
   * requests and yield the same lists; only the exception type and the
   * parameter name in its message differ.
   */
  lemma FieldNameChecksAgree(fieldNames: Option<string>, summary: bool)
    ensures GetAndCheckFieldNames(fieldNames, summary).Ok? == JaxRs.GetAndCheckFieldNames(fieldNames, summary).Ok?
    ensures GetAndCheckFieldNames(fieldNames, summary).Ok? ==>
      GetAndCheckFieldNames(fieldNames, summary).value == JaxRs.GetAndCheckFieldNames(fieldNames, summary).value
  {
  }

  /** The Play and JAX-RS total checks refuse the same offsets with the same message. */
  lemma TotalChecksAgree(offset: int, total: int)
    ensures CheckPagingParametersAgainstTotal(offset, total).None? == JaxRs.CheckPagingParametersAgainstTotal(offset, total).None?
    ensures CheckPagingParametersAgainstTotal(offset, total).Some? ==>
      CheckPagingParametersAgainstTotal(offset, total).value.message
        == JaxRs.CheckPagingParametersAgainstTotal(offset, total).value.message
  {
  }
}
