/**
 * AbstractTemplateServerResource: the checks the JAX-RS template resource
 * runs on a request before it reaches the store. Failures are thrown.
 */
module TemplateServerResource {
  import opened Wrappers
  import opened Json
  import opened JavaString
  import opened Http
  import opened Services
  import opened Paging

  const ID_REQUIRED_ON_IMPORT := "You must specify @id when importing data"
  const ID_NOT_ALLOWED := "Specifying @id for new objects is not allowed"
  const FIELD_NAMES_WITH_SUMMARY := "It is no allowed to specify parameter 'field_names' and also set 'summary' to true!"

  /** Import mode is on only for a present flag that is true. */
  predicate IsImportMode(importMode: Option<bool>)
  {
    importMode == Some(true)
  }

  /** The document carries an "@id" that is not JSON null. */
  predicate HasNonNullId(doc: Doc)
  {
    "@id" in doc && doc["@id"] != JNull
  }

  /**
   * The document `checkImportModeSetProvenanceAndId` leaves behind, or the
   * exception it throws. An imported document must bring its own non-null
   * "@id" and is left as it is; any other document must not bring one, and
   * gets provenance and the newly built id.
   */
  function SetProvenanceAndId(doc: Doc, importMode: Option<bool>, pi: ProvenanceInfo, newId: string,
                              addProvenanceInfo: (Doc, ProvenanceInfo) -> Doc): (r: Result<Doc, Exception>)
    ensures r.Err? <==> IsImportMode(importMode) != HasNonNullId(doc)
    ensures r.Err? ==> r.error == IllegalArgument(if IsImportMode(importMode) then ID_REQUIRED_ON_IMPORT else ID_NOT_ALLOWED)
    ensures r.Ok? ==> HasNonNullId(r.value)
    ensures r.Ok? && IsImportMode(importMode) ==> r.value == doc
    ensures r.Ok? && !IsImportMode(importMode) ==>
      && r.value["@id"] == JString(newId)
      && forall k :: k != "@id" && k in addProvenanceInfo(doc, pi) ==> k in r.value && r.value[k] == addProvenanceInfo(doc, pi)[k]
    ensures r.Ok? && !IsImportMode(importMode) ==> r.value.Keys == addProvenanceInfo(doc, pi).Keys + {"@id"}
  {
    if IsImportMode(importMode) then
      if !HasNonNullId(doc) then Err(IllegalArgument(ID_REQUIRED_ON_IMPORT)) else Ok(doc)
    else if HasNonNullId(doc) then Err(IllegalArgument(ID_NOT_ALLOWED))
    else Ok(addProvenanceInfo(doc, pi)["@id" := JString(newId)])
  }

  /**
   * checkImportModeSetProvenanceAndId: throws, leaving the element untouched,
   * or stamps it in place. `newId` is what buildNewLinkedDataId yields for
   * the node type; it is written only outside import mode.
   */
  method CheckImportModeSetProvenanceAndId(element: ObjectNode, pi: ProvenanceInfo, importMode: Option<bool>,
                                           newId: string, addProvenanceInfo: (Doc, ProvenanceInfo) -> Doc)
    returns (thrown: Option<Exception>)
    modifies element
    ensures var r := SetProvenanceAndId(old(element.fields), importMode, pi, newId, addProvenanceInfo);
      && (r.Err? ==> thrown == Some(r.error) && element.fields == old(element.fields))
      && (r.Ok? ==> thrown.None? && element.fields == r.value)
  {
    var im := importMode.Some? && importMode.value;
    var id := element.Get("@id");
    if im {
      if id.None? || id.value == JNull {
        return Some(IllegalArgument(ID_REQUIRED_ON_IMPORT));
      }
    } else {
      if id.Some? && id.value != JNull {
        return Some(IllegalArgument(ID_NOT_ALLOWED));
      }
      element.fields := addProvenanceInfo(element.fields, pi);
      element.Put("@id", JString(newId));
    }
    thrown := None;
  }

  /**
   * A document stamped outside import mode carries exactly what import mode
   * demands: importing it leaves it unchanged, while stamping it a second time
   * is refused.
   */
  lemma StampedDocumentImports(doc: Doc, importMode: Option<bool>, pi: ProvenanceInfo, newId: string,
                               addProvenanceInfo: (Doc, ProvenanceInfo) -> Doc,
                               pi': ProvenanceInfo, newId': string)
    requires !IsImportMode(importMode)
    requires SetProvenanceAndId(doc, importMode, pi, newId, addProvenanceInfo).Ok?
    ensures var stamped := SetProvenanceAndId(doc, importMode, pi, newId, addProvenanceInfo).value;
      && SetProvenanceAndId(stamped, Some(true), pi', newId', addProvenanceInfo) == Ok(stamped)
      && SetProvenanceAndId(stamped, importMode, pi', newId', addProvenanceInfo) == Err(IllegalArgument(ID_NOT_ALLOWED))
  {
  }

  /** ensureSummary: an absent flag means no summary. */
  function EnsureSummary(summary: Option<bool>): (r: bool)
    ensures r <==> summary == Some(true)
  {
    if summary.None? then false else summary.value
  }

  /**
   * getAndCheckFieldNames: a present field-name string together with a
   * summary is refused; a present non-empty string is split on commas;
   * anything else yields no list (Java null).
   */
  function GetAndCheckFieldNames(fieldNames: Option<string>, summary: bool): (r: Result<Option<seq<string>>, Exception>)
    ensures r.Err? <==> fieldNames.Some? && summary
    ensures r.Err? ==> r.error == CedarAssertion(FIELD_NAMES_WITH_SUMMARY)
    ensures r == Ok(None) <==> fieldNames.None? || (!summary && fieldNames.value == "")
    ensures r.Ok? && r.value.Some? ==> r.value.value == Split(fieldNames.value, ',')
    ensures r.Ok? && r.value.Some? && fieldNames.value[|fieldNames.value| - 1] != ',' ==>
      Join(r.value.value, ',') == fieldNames.value
  {
    if fieldNames.Some? then
      if summary then Err(CedarAssertion(FIELD_NAMES_WITH_SUMMARY))
      else if |fieldNames.value| > 0 then
        var s := fieldNames.value;
        if s[|s| - 1] != ',' then SplitJoin(s, ','); Ok(Some(Split(s, ',')))
        else Ok(Some(Split(s, ',')))
      else Ok(None)
    else Ok(None)
  }

  /**
   * checkPagingParametersAgainstTotal: once the total is known, a nonzero
   * offset must fall inside it (`offset > total - 1` is refused).
   */
  function CheckPagingParametersAgainstTotal(offset: int, total: int): (thrown: Option<Exception>)
    ensures thrown.None? <==> OffsetWithinTotal(offset, total)
    ensures thrown.Some? ==> thrown.value == CedarProcessing(OffsetBeyondTotalMessage(total))
  {
    if offset != 0 && offset > total - 1 then Some(CedarProcessing(OffsetBeyondTotalMessage(total))) else None
  }
}
