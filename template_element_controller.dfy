/**
 * TemplateElementServerController: the Play handlers for template elements.
 * Every exception is caught and mapped to a status; headers are set on the
 * request's PlayResponse as the handler goes.
 */
module TemplateElementController {
  import opened Wrappers
  import opened Json
  import opened JavaString
  import opened Http
  import opened Services
  import opened TemplateServerController
  import JsonUtils

  /**
   * createTemplateElement: the embedded fields are saved first, then
   * provenance is added, then the element is stored; there is no import mode
   * and no "@id" check. The created element goes back without its "_id" and
   * with a Location header.
   */
  method CreateTemplateElement(env: Collaborators, elements: Service, fieldService: Service,
                               templateElement: ObjectNode, ctx: PlayResponse, authorized: bool, pi: ProvenanceInfo)
    returns (res: PlayResult)
    requires elements != fieldService
    modifies templateElement, elements`docs, elements`nextKey, elements`log, fieldService`docs, fieldService`log, ctx
    ensures !authorized ==>
      && res == PlayCatch(AccessDenied, false, false)
      && templateElement.fields == old(templateElement.fields) && unchanged(elements, fieldService, ctx)
    ensures authorized ==>
      && fieldService.log == old(fieldService.log) + [SaveNewFieldsCall(old(templateElement.fields))]
      && (old(fieldService.fault).Some? ==>
            && res == PlayCatch(old(fieldService.fault).value, false, false)
            && unchanged(elements, ctx)
            && fieldService.docs == old(fieldService.docs) + env.savedBeforeFault(old(templateElement.fields), pi))
      && (old(fieldService.fault).None? ==>
            var stamped := env.addProvenanceInfo(env.replaceNewFieldsWithIds(old(templateElement.fields), pi), pi);
            && fieldService.docs == old(fieldService.docs) + env.newFieldDocuments(old(templateElement.fields), pi)
            && templateElement.fields == stamped
            && elements.log == old(elements.log) + [CreateCall(stamped)]
            && (old(elements.fault).Some? ==>
                  && res == PlayCatch(old(elements.fault).value, false, false)
                  && elements.docs == old(elements.docs) && elements.nextKey == old(elements.nextKey)
                  && ctx.headers == old(ctx.headers))
            && (old(elements.fault).None? ==>
                  var stored := WithInternalId(stamped, old(elements.nextKey));
                  var shown := stored - {INTERNAL_ID};
                  && elements.docs == old(elements.docs) + [stored] && elements.nextKey == old(elements.nextKey) + 1
                  && ("@id" in shown ==>
                        && res == PlayResult(CREATED, Document(shown))
                        && ctx.headers == old(ctx.headers)[HEADER_LOCATION := env.locationOf(AsText(shown["@id"]))])
                  && ("@id" !in shown ==> res == PlayCatch(NullPointer, false, false) && ctx.headers == old(ctx.headers))))
    ensures res.body.Document? ==> INTERNAL_ID !in res.body.doc
  {
    if !authorized {
      return PlayCatch(AccessDenied, false, false);
    }
    var thrown := fieldService.SaveNewFieldsAndReplaceIds(templateElement, pi, env);
    if thrown.Some? {
      return PlayCatch(thrown.value, false, false);
    }
    templateElement.fields := env.addProvenanceInfo(templateElement.fields, pi);
    var created := elements.Create(templateElement.fields);
    if created.Raised? {
      return PlayCatch(created.exception, false, false);
    }
    var createdTemplateElement := JsonUtils.RemoveField(created.value, INTERNAL_ID);
    var idNode := createdTemplateElement.Get("@id");
    if idNode.None? {
      return PlayCatch(NullPointer, false, false);
    }
    ctx.SetHeader(HEADER_LOCATION, env.locationOf(AsText(idNode.value)));
    res := PlayResult(CREATED, Document(createdTemplateElement.fields));
  }

  /**
   * findAllTemplateElements: the plan is made before the store is touched;
   * then the query runs, the count is taken, the total header is set, and
   * only then is the offset checked against the total.
   */
  method FindAllTemplateElements(env: Collaborators, cfg: ControllerConfig, summaryList: seq<string>,
                                 elements: Service, ctx: PlayResponse, authorized: bool,
                                 limitParam: Option<int>, offset: int, summary: bool, fieldNames: Option<string>,
                                 absoluteUrl: string)
    returns (res: PlayResult)
    modifies elements`log, ctx
    ensures res.status in {OK, FORBIDDEN, INTERNAL_SERVER_ERROR}
    ensures !authorized ==>
      res == PlayCatch(AccessDenied, false, false) && elements.log == old(elements.log) && ctx.headers == old(ctx.headers)
    ensures authorized ==>
      var plan := PlanListing(cfg, summaryList, limitParam, offset, summary, fieldNames);
      && elements.log == old(elements.log) + ListingCalls(plan, elements.fault)
      && (res, ctx.headers) == PlayListing(env, plan, elements.docs, elements.fault, old(ctx.headers), absoluteUrl)
  {
    if !authorized {
      return PlayCatch(AccessDenied, false, false);
    }
    ghost var plan := PlanListing(cfg, summaryList, limitParam, offset, summary, fieldNames);
    var limit := EnsureLimit(limitParam, cfg.defaultPageSize);
    var paging := CheckPagingParameters(limit, offset, cfg.maxPageSize);
    if paging.Some? {
      assert plan == Refused(paging.value);
      return PlayCatch(paging.value, false, false);
    }
    var names := GetAndCheckFieldNames(fieldNames, summary);
    if names.Err? {
      assert plan == Refused(names.error);
      return PlayCatch(names.error, false, false);
    }
    var fieldNameList := names.value;
    assert plan == Query(limit, offset, ChooseProjection(summary, fieldNameList, summaryList, cfg.exclusionList));
    var listed: Reply<seq<Doc>>;
    if summary {
      listed := elements.FindAll(limit, offset, Projection(summaryList, Include));
    } else if fieldNameList.Some? {
      listed := elements.FindAll(limit, offset, Projection(fieldNameList.value, Include));
    } else {
      listed := elements.FindAll(limit, offset, Projection(cfg.exclusionList, Exclude));
    }
    assert elements.log == old(elements.log) + [FindAllCall(limit, offset, plan.projection)];
    if listed.Raised? {
      return PlayCatch(listed.exception, false, false);
    }
    assert listed.value == Listed(elements.docs, limit, offset, plan.projection);
    var total := elements.Count();
    assert elements.log == old(elements.log) + ListingCalls(plan, elements.fault);
    ctx.SetHeader(HEADER_TOTAL_COUNT, IntText(total));
    ghost var withTotal := old(ctx.headers)[HEADER_TOTAL_COUNT := IntText(total)];
    assert ctx.headers == withTotal;
    var beyond := CheckPagingParametersAgainstTotal(offset, total);
    if beyond.Some? {
      return PlayCatch(beyond.value, false, false);
    }
    var linkHeader := env.pagingLinkHeader(absoluteUrl, total, limit, offset);
    if linkHeader != "" {
      ctx.SetHeader(HEADER_LINK, linkHeader);
    }
    assert ctx.headers == if linkHeader != "" then withTotal[HEADER_LINK := linkHeader] else withTotal;
    res := PlayResult(OK, Documents(listed.value));
  }

  /** findTemplateElement: 404 when the store yields null, else 200 with the element minus "_id". */
  method FindTemplateElement(elements: Service, templateElementId: string, authorized: bool) returns (res: PlayResult)
    modifies elements`log
    ensures !authorized ==> res == PlayCatch(AccessDenied, true, false) && elements.log == old(elements.log)
    ensures authorized ==> elements.log == old(elements.log) + [FindCall(templateElementId)]
    ensures authorized && elements.fault.Some? ==> res == PlayCatch(elements.fault.value, true, false)
    ensures authorized && elements.fault.None? && Locate(elements.docs, templateElementId).None? ==>
      res == PlayResult(NOT_FOUND, NoBody)
    ensures authorized && elements.fault.None? && Locate(elements.docs, templateElementId).Some? ==>
      res == PlayResult(OK, Document(elements.docs[Locate(elements.docs, templateElementId).value] - {INTERNAL_ID}))
    ensures res.body.Document? ==> INTERNAL_ID !in res.body.doc
  {
    if !authorized {
      return PlayCatch(AccessDenied, true, false);
    }
    var found := elements.Find(templateElementId);
    if found.Raised? {
      return PlayCatch(found.exception, true, false);
    }
    if found.value.Some? {
      var templateElement := JsonUtils.RemoveField(found.value.value, INTERNAL_ID);
      return PlayResult(OK, Document(templateElement.fields));
    }
    res := PlayResult(NOT_FOUND, NoBody);
  }

  /**
   * updateTemplateElement: provenance is patched first, then the embedded
   * fields are saved, then the element is replaced; a missing id is 404 and
   * an illegal argument 400.
   */
  method UpdateTemplateElement(env: Collaborators, elements: Service, fieldService: Service,
                               modifications: ObjectNode, templateElementId: string, authorized: bool,
                               pi: ProvenanceInfo)
    returns (res: PlayResult)
    requires elements != fieldService
    modifies modifications, elements`docs, elements`log, fieldService`docs, fieldService`log
    ensures !authorized ==>
      && res == PlayCatch(AccessDenied, true, true)
      && modifications.fields == old(modifications.fields) && unchanged(elements, fieldService)
    ensures authorized ==>
      var patched := env.patchProvenanceInfo(old(modifications.fields), pi);
      && fieldService.log == old(fieldService.log) + [SaveNewFieldsCall(patched)]
      && (old(fieldService.fault).Some? ==>
            && res == PlayCatch(old(fieldService.fault).value, true, true)
            && unchanged(elements) && fieldService.docs == old(fieldService.docs) + env.savedBeforeFault(patched, pi))
      && (old(fieldService.fault).None? ==>
            var parent := env.replaceNewFieldsWithIds(patched, pi);
            var at := Locate(old(elements.docs), templateElementId);
            && elements.log == old(elements.log) + [UpdateCall(templateElementId, parent)]
            && (old(elements.fault).Some? ==>
                  res == PlayCatch(old(elements.fault).value, true, true) && elements.docs == old(elements.docs))
            && (old(elements.fault).None? && at.None? ==>
                  res == PlayResult(NOT_FOUND, NoBody) && elements.docs == old(elements.docs))
            && (old(elements.fault).None? && at.Some? ==>
                  && elements.docs == old(elements.docs)[at.value := Replaced(old(elements.docs)[at.value], parent)]
                  && res == PlayResult(OK, Document(elements.docs[at.value] - {INTERNAL_ID}))))
    ensures res.body.Document? ==> INTERNAL_ID !in res.body.doc
  {
    if !authorized {
      return PlayCatch(AccessDenied, true, true);
    }
    modifications.fields := env.patchProvenanceInfo(modifications.fields, pi);
    var thrown := fieldService.SaveNewFieldsAndReplaceIds(modifications, pi, env);
    if thrown.Some? {
      return PlayCatch(thrown.value, true, true);
    }
    var updated := elements.Update(templateElementId, modifications.fields);
    if updated.Raised? {
      return PlayCatch(updated.exception, true, true);
    }
    var updatedTemplateElement := JsonUtils.RemoveField(updated.value, INTERNAL_ID);
    res := PlayResult(OK, Document(updatedTemplateElement.fields));
  }

  /** deleteTemplateElement: 204 when the element was there, 404 (never 204) when it was not. */
  method DeleteTemplateElement(elements: Service, templateElementId: string, authorized: bool) returns (res: PlayResult)
    modifies elements`docs, elements`log
    ensures !authorized ==> res == PlayCatch(AccessDenied, true, true) && unchanged(elements)
    ensures authorized ==>
      var at := Locate(old(elements.docs), templateElementId);
      && elements.log == old(elements.log) + [DeleteCall(templateElementId)]
      && (elements.fault.Some? ==> res == PlayCatch(elements.fault.value, true, true) && elements.docs == old(elements.docs))
      && (elements.fault.None? && at.None? ==> res == PlayResult(NOT_FOUND, NoBody) && elements.docs == old(elements.docs))
      && (elements.fault.None? && at.Some? ==>
            res == PlayResult(NO_CONTENT, NoBody)
            && elements.docs == old(elements.docs)[..at.value] + old(elements.docs)[at.value + 1..])
  {
    if !authorized {
      return PlayCatch(AccessDenied, true, true);
    }
    var thrown := elements.Delete(templateElementId);
    if thrown.Some? {
      return PlayCatch(thrown.value, true, true);
    }
    res := PlayResult(NO_CONTENT, NoBody);
  }
}
