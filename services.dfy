/**
 * The collaborators a handler talks to. The template, element and field
 * services are one abstract document store (the shape of GenericDao); the
 * code that decomposes documents, stamps provenance, builds ids, builds link
 * headers and builds URLs is not part of this model and is passed in as
 * opaque functions.
 */
module Services {
  import opened Wrappers
  import opened Json
  import opened JavaString
  import opened Http

  /** Who acts and when (ProvenanceInfo); built from the request user and the clock. */
  datatype ProvenanceInfo = ProvenanceInfo(user: string, timestamp: string)

  /** Code outside this model, seen only through its inputs and outputs. */
  datatype Collaborators = Collaborators(
    addProvenanceInfo: (Doc, ProvenanceInfo) -> Doc,        // ProvenanceUtil.addProvenanceInfo
    patchProvenanceInfo: (Doc, ProvenanceInfo) -> Doc,      // ProvenanceUtil.patchProvenanceInfo
    replaceNewFieldsWithIds: (Doc, ProvenanceInfo) -> Doc,  // saveNewFieldsAndReplaceIds: the rewritten parent
    newFieldDocuments: (Doc, ProvenanceInfo) -> seq<Doc>,   // saveNewFieldsAndReplaceIds: the fields it stores
    savedBeforeFault: (Doc, ProvenanceInfo) -> seq<Doc>,    // saveNewFieldsAndReplaceIds: what stays stored when it fails
    rewrittenBeforeFault: (Doc, ProvenanceInfo) -> Doc,     // saveNewFieldsAndReplaceIds: the parent as it leaves it when it fails
    pagingLinkHeader: (string, int, int, int) -> string,    // LinkHeaderUtil.getPagingLinkHeader(url, total, limit, offset)
    locationOf: string -> string)                           // absolute URL of the resource with a given id

  /** FieldNameInEx: whether a listing keeps only the named fields or all but them. */
  datatype FieldNameInEx = Include | Exclude

  /** The field selection a listing query is run with. */
  datatype Projection = Projection(names: seq<string>, inex: FieldNameInEx)

  /** What a listing returns of one document under a projection. */
  function Select(doc: Doc, p: Projection): (r: Doc)
    ensures p.inex == Include ==> r.Keys == set k | k in doc && k in p.names
    ensures p.inex == Exclude ==> r.Keys == set k | k in doc && k !in p.names
    ensures forall k :: k in r ==> k in doc && r[k] == doc[k]
  {
    if p.inex == Include then map k | k in doc && k in p.names :: doc[k]
    else map k | k in doc && k !in p.names :: doc[k]
  }

  /**
   * The projection a listing handler runs its query with: the summary list
   * when a summary is asked for, else the explicit field list when there is
   * one, else the configured exclusion list.
   */
  function ChooseProjection(summary: bool, fieldNameList: Option<seq<string>>,
                            summaryList: seq<string>, exclusionList: seq<string>): (p: Projection)
    ensures p.inex == Include <==> summary || fieldNameList.Some?
    ensures p.names == (if summary then summaryList
                        else if fieldNameList.Some? then fieldNameList.value
                        else exclusionList)
  {
    if summary then Projection(summaryList, Include)
    else if fieldNameList.Some? then Projection(fieldNameList.value, Include)
    else Projection(exclusionList, Exclude)
  }

  /** What a listing request turns into before the store is asked: a refusal or the query to run. */
  datatype ListPlan =
    | Refused(exception: Exception)
    | Query(limit: int, offset: int, projection: Projection)

  /** The key under which the store keeps its internal identifier. */
  const INTERNAL_ID := "_id"

  predicate HasLinkedDataId(doc: Doc, id: string)
  {
    "@id" in doc && doc["@id"] == JString(id)
  }

  /** The position of the first stored document whose "@id" is `id`. */
  function Locate(docs: seq<Doc>, id: string): (r: Option<nat>)
    ensures r.Some? ==> r.value < |docs| && HasLinkedDataId(docs[r.value], id)
    ensures r.Some? ==> forall j :: 0 <= j < r.value ==> !HasLinkedDataId(docs[j], id)
    ensures r.None? <==> forall j :: 0 <= j < |docs| ==> !HasLinkedDataId(docs[j], id)
  {
    if |docs| == 0 then None
    else if HasLinkedDataId(docs[0], id) then Some(0)
    else
      match Locate(docs[1..], id)
      case None => None
      case Some(k) => Some(k + 1)
  }

  /** A document stored under an "@id" no earlier document has is the one a later lookup finds. */
  lemma LocateAppended(docs: seq<Doc>, d: Doc, id: string)
    requires Locate(docs, id).None? && HasLinkedDataId(d, id)
    ensures Locate(docs + [d], id) == Some(|docs|)
  {
    assert (docs + [d])[|docs|] == d;
    assert forall j :: 0 <= j < |docs| ==> (docs + [d])[j] == docs[j];
  }

  /** Storing another document does not move a document a lookup already finds. */
  lemma LocateAppendedKeeps(docs: seq<Doc>, d: Doc, id: string)
    requires Locate(docs, id).Some?
    ensures Locate(docs + [d], id) == Locate(docs, id)
  {
    assert forall j :: 0 <= j < |docs| ==> (docs + [d])[j] == docs[j];
  }

  /** The stored documents from `offset` on, at most `limit` of them. */
  function Page(docs: seq<Doc>, limit: int, offset: int): (r: seq<Doc>)
    ensures |r| <= |docs|
    ensures limit >= 0 ==> |r| <= limit
    ensures 0 <= offset && 0 <= limit ==>
      |r| == (if offset >= |docs| then 0 else if limit < |docs| - offset then limit else |docs| - offset)
    ensures 0 <= offset ==> forall i :: 0 <= i < |r| ==> offset + i < |docs| && r[i] == docs[offset + i]
  {
    var lo := if offset < 0 then 0 else if offset > |docs| then |docs| else offset;
    var hi := if limit <= 0 then lo else if lo + limit > |docs| then |docs| else lo + limit;
    docs[lo..hi]
  }

  /**
   * A listing: the page, each document cut down by the projection. Its i-th
   * entry comes from the stored document at `offset + i` and keeps exactly
   * the named keys (INCLUDE) or exactly the unnamed ones (EXCLUDE), with
   * their stored values.
   */
  function Listed(docs: seq<Doc>, limit: int, offset: int, p: Projection): (r: seq<Doc>)
    ensures |r| == |Page(docs, limit, offset)|
    ensures 0 <= offset ==> forall i :: 0 <= i < |r| ==>
      && offset + i < |docs|
      && (forall k :: k in r[i] ==> k in docs[offset + i] && r[i][k] == docs[offset + i][k])
    ensures 0 <= offset && p.inex == Include ==> forall i :: 0 <= i < |r| ==>
      r[i].Keys == set k | k in docs[offset + i] && k in p.names
    ensures 0 <= offset && p.inex == Exclude ==> forall i :: 0 <= i < |r| ==>
      r[i].Keys == set k | k in docs[offset + i] && k !in p.names
  {
    var page := Page(docs, limit, offset);
    seq(|page|, i requires 0 <= i < |page| => Select(page[i], p))
  }

  /** A stored document with the internal key the store adds on insertion. */
  function WithInternalId(doc: Doc, key: nat): Doc
  {
    doc[INTERNAL_ID := JNumber(NatText(key))]
  }

  /** An update replaces the document and keeps its internal key. */
  function Replaced(stored: Doc, doc: Doc): Doc
  {
    if INTERNAL_ID in stored then doc[INTERNAL_ID := stored[INTERNAL_ID]] else doc
  }

  /** A call a handler made on a service, with its arguments. */
  datatype Call =
    | CreateCall(doc: Doc)
    | FindCall(id: string)
    | FindAllCall(limit: int, offset: int, projection: Projection)
    | CountCall
    | UpdateCall(id: string, doc: Doc)
    | DeleteCall(id: string)
    | SaveNewFieldsCall(doc: Doc)

  /**
   * The calls a listing handler makes on its service: none for a refused
   * plan; otherwise the query, followed by the count unless the query threw.
   */
  function ListingCalls(plan: ListPlan, fault: Option<Exception>): (calls: seq<Call>)
    ensures calls == [] <==> plan.Refused?
    ensures plan.Query? ==> calls[0] == FindAllCall(plan.limit, plan.offset, plan.projection)
    ensures plan.Query? ==> (CountCall in calls <==> fault.None?)
    ensures plan.Query? ==> |calls| == (if fault.None? then 2 else 1)
  {
    if plan.Refused? then []
    else if fault.Some? then [FindAllCall(plan.limit, plan.offset, plan.projection)]
    else [FindAllCall(plan.limit, plan.offset, plan.projection), CountCall]
  }

  /** The reply of a service call: a value or a thrown exception. */
  datatype Reply<+T> = Done(value: T) | Raised(exception: Exception)

  /**
   * A document service (TemplateService, TemplateElementService,
   * TemplateFieldService) over a collection kept in insertion order. While
   * `fault` is set, every call except `Count` throws it: that is how an
   * unreachable database enters the model. `log` records every call made.
   */
  class Service {
    var docs: seq<Doc>
    var nextKey: nat
    var fault: Option<Exception>
    ghost var log: seq<Call>

    constructor (fault: Option<Exception>)
      ensures docs == [] && nextKey == 0 && this.fault == fault && log == []
    {
      docs := [];
      nextKey := 0;
      this.fault := fault;
      log := [];
    }

    /** Stores a new document; the stored copy gains the internal key the store's counter gives next. */
    method Create(doc: Doc) returns (r: Reply<ObjectNode>)
      modifies this`docs, this`nextKey, this`log
      ensures log == old(log) + [CreateCall(doc)]
      ensures fault.Some? ==> r == Raised(fault.value) && docs == old(docs) && nextKey == old(nextKey)
      ensures fault.None? ==>
        && r.Done? && fresh(r.value)
        && r.value.fields == WithInternalId(doc, old(nextKey))
        && docs == old(docs) + [WithInternalId(doc, old(nextKey))]
        && nextKey == old(nextKey) + 1
    {
      log := log + [CreateCall(doc)];
      if fault.Some? {
        r := Raised(fault.value);
      } else {
        var stored := WithInternalId(doc, nextKey);
        docs := docs + [stored];
        nextKey := nextKey + 1;
        var node := new ObjectNode(stored);
        r := Done(node);
      }
    }

    /** Looks a document up by "@id"; None is Java's null for a missing one. */
    method Find(id: string) returns (r: Reply<Option<ObjectNode>>)
      modifies this`log
      ensures log == old(log) + [FindCall(id)]
      ensures fault.Some? ==> r == Raised(fault.value)
      ensures fault.None? && Locate(docs, id).None? ==> r == Done(None)
      ensures fault.None? && Locate(docs, id).Some? ==>
        r.Done? && r.value.Some? && fresh(r.value.value) && r.value.value.fields == docs[Locate(docs, id).value]
    {
      log := log + [FindCall(id)];
      if fault.Some? {
        r := Raised(fault.value);
      } else {
        match Locate(docs, id)
        case None =>
          r := Done(None);
        case Some(i) =>
          var node := new ObjectNode(docs[i]);
          r := Done(Some(node));
      }
    }

    /** Lists one page of documents under a projection. */
    method FindAll(limit: int, offset: int, p: Projection) returns (r: Reply<seq<Doc>>)
      modifies this`log
      ensures log == old(log) + [FindAllCall(limit, offset, p)]
      ensures fault.Some? ==> r == Raised(fault.value)
      ensures fault.None? ==> r == Done(Listed(docs, limit, offset, p))
    {
      log := log + [FindAllCall(limit, offset, p)];
      if fault.Some? {
        r := Raised(fault.value);
      } else {
        r := Done(Listed(docs, limit, offset, p));
      }
    }

    /** The number of stored documents. */
    method Count() returns (n: int)
      modifies this`log
      ensures log == old(log) + [CountCall]
      ensures n == |docs|
    {
      log := log + [CountCall];
      n := |docs|;
    }

    /** Replaces the document with the given "@id"; a missing id throws InstanceNotFound. */
    method Update(id: string, doc: Doc) returns (r: Reply<ObjectNode>)
      modifies this`docs, this`log
      ensures log == old(log) + [UpdateCall(id, doc)]
      ensures fault.Some? ==> r == Raised(fault.value) && docs == old(docs)
      ensures fault.None? && Locate(old(docs), id).None? ==> r == Raised(InstanceNotFound) && docs == old(docs)
      ensures fault.None? && Locate(old(docs), id).Some? ==>
        var i := Locate(old(docs), id).value;
        && docs == old(docs)[i := Replaced(old(docs)[i], doc)]
        && r.Done? && fresh(r.value) && r.value.fields == docs[i]
    {
      log := log + [UpdateCall(id, doc)];
      if fault.Some? {
        r := Raised(fault.value);
      } else {
        match Locate(docs, id)
        case None =>
          r := Raised(InstanceNotFound);
        case Some(i) =>
          docs := docs[i := Replaced(docs[i], doc)];
          var node := new ObjectNode(docs[i]);
          r := Done(node);
      }
    }

    /** Deletes the document with the given "@id"; a missing id throws InstanceNotFound. */
    method Delete(id: string) returns (thrown: Option<Exception>)
      modifies this`docs, this`log
      ensures log == old(log) + [DeleteCall(id)]
      ensures fault.Some? ==> thrown == fault && docs == old(docs)
      ensures fault.None? && Locate(old(docs), id).None? ==> thrown == Some(InstanceNotFound) && docs == old(docs)
      ensures fault.None? && Locate(old(docs), id).Some? ==>
        var i := Locate(old(docs), id).value;
        thrown.None? && docs == old(docs)[..i] + old(docs)[i + 1..]
    {
      log := log + [DeleteCall(id)];
      if fault.Some? {
        thrown := fault;
      } else {
        match Locate(docs, id)
        case None =>
          thrown := Some(InstanceNotFound);
        case Some(i) =>
          docs := docs[..i] + docs[i + 1..];
          thrown := None;
      }
    }

    /**
     * saveNewFieldsAndReplaceIds (on the field service): stores the fields
     * embedded in `parent` and rewrites `parent` in place to refer to them.
     * What it stores and how it rewrites are opaque. There is no rollback:
     * when it fails, the fields it saved before the failure stay stored and
     * the parent stays as far as it was rewritten; both are opaque too.
     */
    method SaveNewFieldsAndReplaceIds(parent: ObjectNode, pi: ProvenanceInfo, env: Collaborators)
      returns (thrown: Option<Exception>)
      modifies this`docs, this`log, parent
      ensures log == old(log) + [SaveNewFieldsCall(old(parent.fields))]
      ensures old(docs) <= docs
      ensures fault.Some? ==>
        && thrown == fault
        && docs == old(docs) + env.savedBeforeFault(old(parent.fields), pi)
        && parent.fields == env.rewrittenBeforeFault(old(parent.fields), pi)
      ensures fault.None? ==>
        && thrown.None?
        && docs == old(docs) + env.newFieldDocuments(old(parent.fields), pi)
        && parent.fields == env.replaceNewFieldsWithIds(old(parent.fields), pi)
    {
      log := log + [SaveNewFieldsCall(parent.fields)];
      if fault.Some? {
        docs := docs + env.savedBeforeFault(parent.fields, pi);
        parent.fields := env.rewrittenBeforeFault(parent.fields, pi);
        thrown := fault;
      } else {
        docs := docs + env.newFieldDocuments(parent.fields, pi);
        parent.fields := env.replaceNewFieldsWithIds(parent.fields, pi);
        thrown := None;
      }
    }
  }
}
