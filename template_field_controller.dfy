/**
 * TemplateFieldServerController: the read-only Play handlers for template
 * fields, shaped exactly as the element handlers but over the field store.
 */
module TemplateFieldController {
  import opened Wrappers
  import opened Json
  import opened JavaString
  import opened Http
  import opened Services
  import opened TemplateServerController
  import JsonUtils

  /**
   * findAllTemplateFields: as the element listing, over the field store.
   */
  method FindAllTemplateFields(env: Collaborators, cfg: ControllerConfig, summaryList: seq<string>,
                               fields: Service, ctx: PlayResponse, authorized: bool,
                               limitParam: Option<int>, offset: int, summary: bool, fieldNames: Option<string>,
                               absoluteUrl: string)
    returns (res: PlayResult)
    modifies fields`log, ctx
    ensures res.status in {OK, FORBIDDEN, INTERNAL_SERVER_ERROR}
    ensures !authorized ==>
      res == PlayCatch(AccessDenied, false, false) && fields.log == old(fields.log) && ctx.headers == old(ctx.headers)
    ensures authorized ==>
      var plan := PlanListing(cfg, summaryList, limitParam, offset, summary, fieldNames);
      && fields.log == old(fields.log) + ListingCalls(plan, fields.fault)
      && (res, ctx.headers) == PlayListing(env, plan, fields.docs, fields.fault, old(ctx.headers), absoluteUrl)
  {
    if !authorized {
      return PlayCatch(AccessDenied, false, false);
    }
    ghost var plan := PlanListing(cfg, summaryList, limitParam, offset, summary, fieldNames);
    var limit := EnsureLimit(limitParam, cfg.defaultPageSize);
    var paging := CheckPagingParameters(limit, offset, cfg.maxPageSize);
    if paging.Some? {
      assert plan == Refused(paging.value);
      return PlayCatch(paging.value, false, false);
    }
    var names := GetAndCheckFieldNames(fieldNames, summary);
    if names.Err? {
      assert plan == Refused(names.error);
      return PlayCatch(names.error, false, false);
    }
    var fieldNameList := names.value;
    assert plan == Query(limit, offset, ChooseProjection(summary, fieldNameList, summaryList, cfg.exclusionList));
    var listed: Reply<seq<Doc>>;
    if summary {
      listed := fields.FindAll(limit, offset, Projection(summaryList, Include));
    } else if fieldNameList.Some? {
      listed := fields.FindAll(limit, offset, Projection(fieldNameList.value, Include));
    } else {
      listed := fields.FindAll(limit, offset, Projection(cfg.exclusionList, Exclude));
    }
    assert fields.log == old(fields.log) + [FindAllCall(limit, offset, plan.projection)];
    if listed.Raised? {
      return PlayCatch(listed.exception, false, false);
    }
    assert listed.value == Listed(fields.docs, limit, offset, plan.projection);
    var total := fields.Count();
    assert fields.log == old(fields.log) + ListingCalls(plan, fields.fault);
    ctx.SetHeader(HEADER_TOTAL_COUNT, IntText(total));
    ghost var withTotal := old(ctx.headers)[HEADER_TOTAL_COUNT := IntText(total)];
    assert ctx.headers == withTotal;
    var beyond := CheckPagingParametersAgainstTotal(offset, total);
    if beyond.Some? {
      return PlayCatch(beyond.value, false, false);
    }
    var linkHeader := env.pagingLinkHeader(absoluteUrl, total, limit, offset);
    if linkHeader != "" {
      ctx.SetHeader(HEADER_LINK, linkHeader);
    }
    assert ctx.headers == if linkHeader != "" then withTotal[HEADER_LINK := linkHeader] else withTotal;
    res := PlayResult(OK, Documents(listed.value));
  }

  /** findTemplateField: 404 when the store yields null, else 200 with the field minus "_id". */
  method FindTemplateField(fields: Service, templateFieldId: string, authorized: bool) returns (res: PlayResult)
    modifies fields`log
    ensures !authorized ==> res == PlayCatch(AccessDenied, true, false) && fields.log == old(fields.log)
    ensures authorized ==> fields.log == old(fields.log) + [FindCall(templateFieldId)]
    ensures authorized && fields.fault.Some? ==> res == PlayCatch(fields.fault.value, true, false)
    ensures authorized && fields.fault.None? && Locate(fields.docs, templateFieldId).None? ==>
      res == PlayResult(NOT_FOUND, NoBody)
    ensures authorized && fields.fault.None? && Locate(fields.docs, templateFieldId).Some? ==>
      res == PlayResult(OK, Document(fields.docs[Locate(fields.docs, templateFieldId).value] - {INTERNAL_ID}))
    ensures res.body.Document? ==> INTERNAL_ID !in res.body.doc
  {
    if !authorized {
      return PlayCatch(AccessDenied, true, false);
    }
    var found := fields.Find(templateFieldId);
    if found.Raised? {
      return PlayCatch(found.exception, true, false);
    }
    if found.value.Some? {
      var templateField := JsonUtils.RemoveField(found.value.value, INTERNAL_ID);
      return PlayResult(OK, Document(templateField.fields));
    }
    res := PlayResult(NOT_FOUND, NoBody);
  }
}
