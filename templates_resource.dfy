/**
 * TemplatesResource: the JAX-RS handlers for /templates. Each handler runs
 * its checks and store calls in a fixed order; exceptions it does not catch
 * are thrown to the framework.
 */
module TemplatesResource {
  import opened Wrappers
  import opened Json
  import opened JavaString
  import opened Http
  import opened Services
  import opened TemplateServerResource
  import opened Paging
  import JsonUtils

  /** The field lists read from the configuration at start-up. */
  datatype ResourceConfig = ResourceConfig(summaryList: seq<string>, exclusionList: seq<string>)

  /**
   * ensureLimit, ensureOffset and checkPagingParameters, inherited from
   * CedarMicroserviceResource; that class is not part of this model.
   */
  datatype Inherited = Inherited(
    ensureLimit: Option<int> -> int,
    ensureOffset: Option<int> -> int,
    checkPagingParameters: (int, int) -> Option<Exception>)

  /**
   * The steps of findAllTemplates before the query: defaults, paging check,
   * field-name check, then the choice of projection.
   */
  function PlanListing(cfg: ResourceConfig, inherited: Inherited, limitParam: Option<int>, offsetParam: Option<int>,
                       summaryParam: Option<bool>, fieldNamesParam: Option<string>): (plan: ListPlan)
    ensures var limit := inherited.ensureLimit(limitParam);
            var offset := inherited.ensureOffset(offsetParam);
            var paging := inherited.checkPagingParameters(limit, offset);
            var names := GetAndCheckFieldNames(fieldNamesParam, EnsureSummary(summaryParam));
      && (paging.Some? ==> plan == Refused(paging.value))
      && (paging.None? && names.Err? ==> plan == Refused(names.error))
      && (paging.None? && names.Ok? ==> plan.Query? && plan.limit == limit && plan.offset == offset)
  {
    var limit := inherited.ensureLimit(limitParam);
    var offset := inherited.ensureOffset(offsetParam);
    var summary := EnsureSummary(summaryParam);
    var paging := inherited.checkPagingParameters(limit, offset);
    if paging.Some? then Refused(paging.value)
    else
      var names := GetAndCheckFieldNames(fieldNamesParam, summary);
      if names.Err? then Refused(names.error)
      else Query(limit, offset, ChooseProjection(summary, names.value, cfg.summaryList, cfg.exclusionList))
  }

  /**
   * A listing runs with exactly one projection mode: the summary list only
   * when a summary was asked for without field names, the split field names
   * only when they were given without a summary, the exclusion list otherwise.
   */
  lemma ListingProjection(cfg: ResourceConfig, inherited: Inherited, limitParam: Option<int>, offsetParam: Option<int>,
                          summaryParam: Option<bool>, fieldNamesParam: Option<string>)
    requires PlanListing(cfg, inherited, limitParam, offsetParam, summaryParam, fieldNamesParam).Query?
    ensures var p := PlanListing(cfg, inherited, limitParam, offsetParam, summaryParam, fieldNamesParam).projection;
      && (summaryParam == Some(true) ==> fieldNamesParam.None? && p == Projection(cfg.summaryList, Include))
      && (summaryParam != Some(true) && fieldNamesParam.Some? && fieldNamesParam.value != "" ==>
            p == Projection(Split(fieldNamesParam.value, ','), Include))
      && (summaryParam != Some(true) && (fieldNamesParam.None? || fieldNamesParam.value == "") ==>
            p == Projection(cfg.exclusionList, Exclude))
  {
  }

  /** The 201 answer to a create: Location points at the created "@id"; no "@id" is a NullPointerException. */
  function CreatedOutcome(env: Collaborators, created: Doc): Outcome
  {
    if "@id" in created then
      Returned(Response(CREATED, map[HEADER_LOCATION := env.locationOf(AsText(created["@id"]))], Document(created)))
    else Thrown(NullPointer)
  }

  /** A caught IOException becomes a 500 with the handler's error key; anything else propagates. */
  function CatchIO(e: Exception, key: ErrorKey): (out: Outcome)
    ensures out.Returned? <==> e == IOError
    ensures out.Returned? ==> out.response.status == INTERNAL_SERVER_ERROR
    ensures out.Returned? ==> out.response.headers == map[] && out.response.body == CedarError(key, Some(e))
    ensures !out.Returned? ==> out == Thrown(e)
  {
    if e == IOError then Returned(Response(INTERNAL_SERVER_ERROR, map[], CedarError(key, Some(e)))) else Thrown(e)
  }

  /** The catch blocks of update and delete: a missing id is 404, an IOException 500. */
  function CatchNotFoundOrIO(e: Exception, ioKey: ErrorKey): (out: Outcome)
    ensures out.Returned? <==> e == InstanceNotFound || e == IOError
    ensures out.Returned? ==> out.response.status == (if e == InstanceNotFound then NOT_FOUND else INTERNAL_SERVER_ERROR)
    ensures out.Returned? ==>
      && out.response.headers == map[]
      && out.response.body == CedarError(if e == InstanceNotFound then TemplateNotFound else ioKey, Some(e))
    ensures !out.Returned? ==> out == Thrown(e)
  {
    if e == InstanceNotFound then Returned(Response(NOT_FOUND, map[], CedarError(TemplateNotFound, Some(e))))
    else CatchIO(e, ioKey)
  }

  /**
   * createTemplate: the import-mode/@id check runs first and a refusal
   * reaches neither service; then the embedded fields are saved, then the
   * template is stored, and the stored copy goes back without its "_id".
   */
  method CreateTemplate(env: Collaborators, templates: Service, fieldService: Service, template: ObjectNode,
                        authorized: bool, importMode: Option<bool>, pi: ProvenanceInfo, newId: string)
    returns (out: Outcome)
    requires templates != fieldService
    modifies template, templates`docs, templates`nextKey, templates`log, fieldService`docs, fieldService`log
    ensures !authorized ==> out == Thrown(AccessDenied) && unchanged(template, templates, fieldService)
    ensures authorized ==>
      var prepared := SetProvenanceAndId(old(template.fields), importMode, pi, newId, env.addProvenanceInfo);
      && (prepared.Err? ==>
            out == Thrown(prepared.error) && template.fields == old(template.fields) && unchanged(templates, fieldService))
      && (prepared.Ok? ==> fieldService.log == old(fieldService.log) + [SaveNewFieldsCall(prepared.value)])
      && (prepared.Ok? && old(fieldService.fault).Some? ==>
            && out == CatchIO(old(fieldService.fault).value, TemplateNotCreated)
            && unchanged(templates)
            && fieldService.docs == old(fieldService.docs) + env.savedBeforeFault(prepared.value, pi))
      && (prepared.Ok? && old(fieldService.fault).None? ==>
            var parent := env.replaceNewFieldsWithIds(prepared.value, pi);
            && fieldService.docs == old(fieldService.docs) + env.newFieldDocuments(prepared.value, pi)
            && templates.log == old(templates.log) + [CreateCall(parent)]
            && (old(templates.fault).Some? ==>
                  && out == CatchIO(old(templates.fault).value, TemplateNotCreated)
                  && templates.docs == old(templates.docs) && templates.nextKey == old(templates.nextKey))
            && (old(templates.fault).None? ==>
                  var stored := WithInternalId(parent, old(templates.nextKey));
                  && templates.docs == old(templates.docs) + [stored] && templates.nextKey == old(templates.nextKey) + 1
                  && out == CreatedOutcome(env, stored - {INTERNAL_ID})))
    ensures out.Returned? && out.response.body.Document? ==> INTERNAL_ID !in out.response.body.doc
  {
    if !authorized {
      return Thrown(AccessDenied);
    }
    var thrown := CheckImportModeSetProvenanceAndId(template, pi, importMode, newId, env.addProvenanceInfo);
    if thrown.Some? {
      return Thrown(thrown.value);
    }
    thrown := fieldService.SaveNewFieldsAndReplaceIds(template, pi, env);
    if thrown.Some? {
      return CatchIO(thrown.value, TemplateNotCreated);
    }
    var created := templates.Create(template.fields);
    if created.Raised? {
      return CatchIO(created.exception, TemplateNotCreated);
    }
    var createdTemplate := JsonUtils.RemoveField(created.value, INTERNAL_ID);
    var idNode := createdTemplate.Get("@id");
    if idNode.None? {
      return Thrown(NullPointer);
    }
    var id := AsText(idNode.value);
    out := Returned(Response(CREATED, map[HEADER_LOCATION := env.locationOf(id)], Document(createdTemplate.fields)));
  }

  /** findTemplate: 404 when the store has no such "@id", else 200 with the document minus "_id". */
  method FindTemplate(templates: Service, id: string, authorized: bool) returns (out: Outcome)
    modifies templates`log
    ensures !authorized ==> out == Thrown(AccessDenied) && templates.log == old(templates.log)
    ensures authorized ==> templates.log == old(templates.log) + [FindCall(id)]
    ensures authorized && templates.fault.Some? ==>
      var e := templates.fault.value;
      out == if e == IOError || e == SchemaProcessing
             then Returned(Response(INTERNAL_SERVER_ERROR, map[], CedarError(TemplateNotFound, Some(e))))
             else Thrown(e)
    ensures authorized && templates.fault.None? && Locate(templates.docs, id).None? ==>
      out == Returned(Response(NOT_FOUND, map[], CedarError(TemplateNotFound, None)))
    ensures authorized && templates.fault.None? && Locate(templates.docs, id).Some? ==>
      out == Returned(Response(OK, map[], Document(templates.docs[Locate(templates.docs, id).value] - {INTERNAL_ID})))
    ensures out.Returned? && out.response.body.Document? ==> INTERNAL_ID !in out.response.body.doc
  {
    if !authorized {
      return Thrown(AccessDenied);
    }
    var found := templates.Find(id);
    if found.Raised? {
      var e := found.exception;
      if e == IOError || e == SchemaProcessing {
        return Returned(Response(INTERNAL_SERVER_ERROR, map[], CedarError(TemplateNotFound, Some(e))));
      }
      return Thrown(e);
    }
    if found.value.None? {
      return Returned(Response(NOT_FOUND, map[], CedarError(TemplateNotFound, None)));
    }
    var template := JsonUtils.RemoveField(found.value.value, INTERNAL_ID);
    out := Returned(Response(OK, map[], Document(template.fields)));
  }

  /**
   * What findAllTemplates answers for a plan, given the store's documents and
   * fault: a refused plan is thrown, a failed query is a 500, an offset
   * beyond the total is thrown, and otherwise the page comes back with 200.
   */
  function ListingOutcome(env: Collaborators, plan: ListPlan, docs: seq<Doc>, fault: Option<Exception>,
                          absoluteUrl: string): (out: Outcome)
    ensures plan.Refused? ==> out == Thrown(plan.exception)
    ensures plan.Query? && fault.Some? ==> out == CatchIO(fault.value, TemplatesNotListed)
    ensures plan.Query? && fault.None? && !OffsetWithinTotal(plan.offset, |docs|) ==>
      out == Thrown(CedarProcessing(OffsetBeyondTotalMessage(|docs|)))
    ensures (out.Returned? && out.response.status == OK) <==>
      plan.Query? && fault.None? && OffsetWithinTotal(plan.offset, |docs|)
    ensures out.Returned? && out.response.status == OK ==>
      && out.response.body == Documents(Listed(docs, plan.limit, plan.offset, plan.projection))
      && out.response.headers == ListingHeaders(|docs|, env.pagingLinkHeader(absoluteUrl, |docs|, plan.limit, plan.offset))
  {
    match plan
    case Refused(e) => Thrown(e)
    case Query(limit, offset, projection) =>
      if fault.Some? then CatchIO(fault.value, TemplatesNotListed)
      else
        var total := |docs|;
        var beyond := CheckPagingParametersAgainstTotal(offset, total);
        if beyond.Some? then Thrown(beyond.value)
        else
          var linkHeader := env.pagingLinkHeader(absoluteUrl, total, limit, offset);
          Returned(Response(OK, ListingHeaders(total, linkHeader), Documents(Listed(docs, limit, offset, projection))))
  }

  /**
   * findAllTemplates: the plan is made before the store is touched; then the
   * query runs, then the count, and only then the offset-vs-total check.
   */
  method FindAllTemplates(env: Collaborators, cfg: ResourceConfig, inherited: Inherited, templates: Service,
                          authorized: bool, limitParam: Option<int>, offsetParam: Option<int>,
                          summaryParam: Option<bool>, fieldNamesParam: Option<string>, absoluteUrl: string)
    returns (out: Outcome)
    modifies templates`log
    ensures !authorized ==> out == Thrown(AccessDenied) && templates.log == old(templates.log)
    ensures authorized ==>
      var plan := PlanListing(cfg, inherited, limitParam, offsetParam, summaryParam, fieldNamesParam);
      && templates.log == old(templates.log) + ListingCalls(plan, templates.fault)
      && out == ListingOutcome(env, plan, templates.docs, templates.fault, absoluteUrl)
  {
    if !authorized {
      return Thrown(AccessDenied);
    }
    ghost var plan := PlanListing(cfg, inherited, limitParam, offsetParam, summaryParam, fieldNamesParam);
    var limit := inherited.ensureLimit(limitParam);
    var offset := inherited.ensureOffset(offsetParam);
    var summary := EnsureSummary(summaryParam);
    var paging := inherited.checkPagingParameters(limit, offset);
    if paging.Some? {
      assert plan == Refused(paging.value);
      return Thrown(paging.value);
    }
    var names := GetAndCheckFieldNames(fieldNamesParam, summary);
    if names.Err? {
      assert plan == Refused(names.error);
      return Thrown(names.error);
    }
    var fieldNameList := names.value;
    assert plan == Query(limit, offset, ChooseProjection(summary, fieldNameList, cfg.summaryList, cfg.exclusionList));
    var listed: Reply<seq<Doc>>;
    if summary {
      listed := templates.FindAll(limit, offset, Projection(cfg.summaryList, Include));
    } else if fieldNameList.Some? {
      listed := templates.FindAll(limit, offset, Projection(fieldNameList.value, Include));
    } else {
      listed := templates.FindAll(limit, offset, Projection(cfg.exclusionList, Exclude));
    }
    assert templates.log == old(templates.log) + [FindAllCall(limit, offset, plan.projection)];
    if listed.Raised? {
      return CatchIO(listed.exception, TemplatesNotListed);
    }
    assert listed.value == Listed(templates.docs, limit, offset, plan.projection);
    var total := templates.Count();
    assert templates.log == old(templates.log) + ListingCalls(plan, templates.fault);
    var beyond := CheckPagingParametersAgainstTotal(offset, total);
    if beyond.Some? {
      return Thrown(beyond.value);
    }
    var linkHeader := env.pagingLinkHeader(absoluteUrl, total, limit, offset);
    var headers := map[HEADER_TOTAL_COUNT := IntText(total)];
    if linkHeader != "" {
      headers := headers[HEADER_LINK := linkHeader];
    }
    assert headers == ListingHeaders(total, linkHeader);
    out := Returned(Response(OK, headers, Documents(listed.value)));
  }

  /**
   * updateTemplate: provenance is patched first, then the embedded fields are
   * saved, then the template is replaced; a missing id is 404.
   */
  method UpdateTemplate(env: Collaborators, templates: Service, fieldService: Service, newTemplate: ObjectNode,
                        id: string, authorized: bool, pi: ProvenanceInfo)
    returns (out: Outcome)
    requires templates != fieldService
    modifies newTemplate, templates`docs, templates`log, fieldService`docs, fieldService`log
    ensures !authorized ==> out == Thrown(AccessDenied) && unchanged(newTemplate, templates, fieldService)
    ensures authorized ==>
      var patched := env.patchProvenanceInfo(old(newTemplate.fields), pi);
      && fieldService.log == old(fieldService.log) + [SaveNewFieldsCall(patched)]
      && (old(fieldService.fault).Some? ==>
            && out == CatchNotFoundOrIO(old(fieldService.fault).value, TemplateNotUpdated)
            && unchanged(templates) && fieldService.docs == old(fieldService.docs) + env.savedBeforeFault(patched, pi))
      && (old(fieldService.fault).None? ==>
            var parent := env.replaceNewFieldsWithIds(patched, pi);
            var at := Locate(old(templates.docs), id);
            && templates.log == old(templates.log) + [UpdateCall(id, parent)]
            && (old(templates.fault).Some? ==>
                  out == CatchNotFoundOrIO(old(templates.fault).value, TemplateNotUpdated)
                  && templates.docs == old(templates.docs))
            && (old(templates.fault).None? && at.None? ==>
                  out == Returned(Response(NOT_FOUND, map[], CedarError(TemplateNotFound, Some(InstanceNotFound))))
                  && templates.docs == old(templates.docs))
            && (old(templates.fault).None? && at.Some? ==>
                  && templates.docs == old(templates.docs)[at.value := Replaced(old(templates.docs)[at.value], parent)]
                  && out == Returned(Response(OK, map[], Document(templates.docs[at.value] - {INTERNAL_ID})))))
    ensures out.Returned? && out.response.body.Document? ==> INTERNAL_ID !in out.response.body.doc
  {
    if !authorized {
      return Thrown(AccessDenied);
    }
    newTemplate.fields := env.patchProvenanceInfo(newTemplate.fields, pi);
    var thrown := fieldService.SaveNewFieldsAndReplaceIds(newTemplate, pi, env);
    if thrown.Some? {
      return CatchNotFoundOrIO(thrown.value, TemplateNotUpdated);
    }
    var updated := templates.Update(id, newTemplate.fields);
    if updated.Raised? {
      return CatchNotFoundOrIO(updated.exception, TemplateNotUpdated);
    }
    var updatedTemplate := JsonUtils.RemoveField(updated.value, INTERNAL_ID);
    out := Returned(Response(OK, map[], Document(updatedTemplate.fields)));
  }

  /** deleteTemplate: 204 when the document was there, 404 (never 204) when it was not. */
  method DeleteTemplate(templates: Service, id: string, authorized: bool) returns (out: Outcome)
    modifies templates`docs, templates`log
    ensures !authorized ==> out == Thrown(AccessDenied) && unchanged(templates)
    ensures authorized ==>
      var at := Locate(old(templates.docs), id);
      && templates.log == old(templates.log) + [DeleteCall(id)]
      && (templates.fault.Some? ==>
            out == CatchNotFoundOrIO(templates.fault.value, TemplateNotDeleted) && templates.docs == old(templates.docs))
      && (templates.fault.None? && at.None? ==>
            out == Returned(Response(NOT_FOUND, map[], CedarError(TemplateNotFound, Some(InstanceNotFound))))
            && templates.docs == old(templates.docs))
      && (templates.fault.None? && at.Some? ==>
            out == Returned(Response(NO_CONTENT, map[], NoBody))
            && templates.docs == old(templates.docs)[..at.value] + old(templates.docs)[at.value + 1..])
  {
    if !authorized {
      return Thrown(AccessDenied);
    }
    var thrown := templates.Delete(id);
    if thrown.Some? {
      return CatchNotFoundOrIO(thrown.value, TemplateNotDeleted);
    }
    out := Returned(Response(NO_CONTENT, map[], NoBody));
  }
}
