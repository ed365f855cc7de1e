# CEDAR template server: request validation, document stamping and handler order

This project models the request-handling core of the CEDAR template server in Dafny. Two server flavours are covered:

- the JAX-RS resource for `/templates`, with its shared base class `AbstractTemplateServerResource`;
- the Play controllers for template elements and template fields, with their shared base class `AbstractTemplateServerController`.

The model covers:

- what each handler checks before it touches storage: permission, import mode and `@id`, paging parameters, and the field-name/summary conflict;
- in which order it calls the document services;
- how provenance and a new `@id` are stamped onto a document;
- how the internal `_id` is stripped before a document leaves the server;
- which status code and headers each outcome produces.

Modules follow the source files:

| module | models |
|---|---|
| `TemplateServerResource` | `AbstractTemplateServerResource.java` |
| `TemplateServerController` | `AbstractTemplateServerController.java` |
| `TemplatesResource` | `TemplatesResource.java` |
| `TemplateElementController` | `TemplateElementServerController.java` |
| `TemplateFieldController` | `TemplateFieldServerController.java` |
| `JsonUtils` | `JsonUtils.java` |

Supporting modules:

- `Json`: Jackson's mutable `ObjectNode`, as a class.
- `JavaString`: `String.split` with a one-character separator that is not a regular-expression metacharacter, such as the `,` the source splits on. A string without the separator is one piece; otherwise trailing empty pieces are dropped.
- `Http`: statuses, exceptions, responses, and Play's mutable `response()` headers.
- `Paging`: the offset-against-total rule the two flavours share.
- `Services`: an abstract document store in the shape of `GenericDao`.

The store holds its documents in insertion order and finds them by `@id`. It has a `fault` that, while set, every call except `count` throws; this is how I/O failures enter the model. It also keeps a ghost log of every call with its arguments. Handler contracts use that log to state call order, for example:

- a create refused by the `@id` check makes no call on either service;
- a listing with bad parameters never reaches the store;
- the embedded fields are saved before the parent is stored.

Handlers that mutate their input document in place do so through `ObjectNode` and carry `modifies` clauses. Pure checks are functions with contracts. Each handler method is proved against these functions.

The Play and JAX-RS versions of the same check are modelled separately because they differ in the source. The Play checks throw `IllegalArgumentException` and name the parameter `fieldNames`. The JAX-RS checks throw Cedar exceptions and name it `field_names`. Lemmas show the two accept and refuse the same inputs.

Where the code and the system's design description differ, the model follows the code:

- **Play listing errors are 500, not 400.** The design describes paging and projection conflicts on a listing as client errors (400). The Play listing handlers (`findAllTemplateElements`, `findAllTemplateFields`) have no `IllegalArgumentException` catch, so a bad `limit`, `offset` or `fieldNames` gives 500. `FindAllTemplateElements` and `FindAllTemplateFields` state this: their status is always 200, 403 or 500.
- **A failed account lookup is swallowed.** The design says no error is swallowed. `AbstractTemplateServerController.addProvenanceInfo` catches a failed account lookup and writes the user id as the base path followed by `null`. `UserId` and `AddProvenanceInfo` model this.
- **The total header survives an error.** In the Play listing handlers, `X-Total-Count` is set on `response()` before the offset is checked against the total. A 500 for an offset past the end therefore still carries the total header. The JAX-RS listing only adds the header to a successful response.

## Model

| member | source | states |
|---|---|---|
| JsonUtils.RemoveField | cedar-repo-server-play/app/utils/JsonUtils.java:14-18 | The same object comes back with `fieldName` gone. Every other key keeps its value, and removing an absent key changes nothing. |
| Http.PlayCatch | cedar-template-server-play/app/controllers/TemplateElementServerController.java:152-164 | A Play catch chain gives 400 exactly for a caught IllegalArgumentException and 404 exactly for a caught InstanceNotFoundException. It gives 403 exactly for an access failure and 500 for anything else. |
| Http.PlayResponse.SetHeader | cedar-template-server-play/app/controllers/TemplateElementServerController.java:96 | Setting a header on `response()` overwrites that one header and keeps the others. |
| JavaString.JoinPieces | cedar-template-server-play/app/controllers/AbstractTemplateServerController.java:63 | Joining the comma-separated pieces of a string with commas gives the string back. |
| JavaString.LastPieceEmpty | cedar-template-server-play/app/controllers/AbstractTemplateServerController.java:63 | The last piece is empty exactly when the string is empty or ends with the separator. This is what `split` drops. |
| JavaString.SplitJoin | cedar-template-server-play/app/controllers/AbstractTemplateServerController.java:63 | For a non-empty string that does not end with a comma, `split(",")` loses nothing: no piece holds a comma, and joining the pieces restores the string. |
| JavaString.SplitDropsTrailing | cedar-template-server-play/app/controllers/AbstractTemplateServerController.java:63 | `","` splits into no names, and `"a,b,"` gives the same names as `"a,b"`. |
| JavaString.SplitIgnoresTrailingSeparator | cedar-template-server-play/app/controllers/AbstractTemplateServerController.java:63 | For every non-empty string, appending one more separator leaves its split unchanged: the trailing empty piece is dropped. |
| JavaString.SplitKeepsInner | cedar-template-server-play/app/controllers/AbstractTemplateServerController.java:63 | `"a,,b"` keeps its inner empty name, and `"ab"` is one name. |
| Services.Select | cedar-template-server-application/src/main/java/org/metadatacenter/cedar/template/resources/TemplatesResource.java:142-146 | An INCLUDE projection keeps exactly the listed keys the document has. An EXCLUDE projection keeps exactly the unlisted ones. Values are never changed. |
| Services.ChooseProjection | cedar-template-server-application/src/main/java/org/metadatacenter/cedar/template/resources/TemplatesResource.java:141-147 | A listing uses INCLUDE exactly when a summary or an explicit field list was asked for. The names come from the summary list, the field list, or the exclusion list, in that priority. |
| Services.Locate | cedar-template-server-play/app/controllers/TemplateElementServerController.java:119-126 | A lookup by `@id` yields the first stored document with that `@id`, or nothing exactly when no stored document has it. |
| Services.LocateAppended | cedar-template-server-core/src/main/java/org/metadatacenter/templates/dao/GenericDao.java:11-15 | A document created under an `@id` no stored document has is the one a later find returns. |
| Services.LocateAppendedKeeps | cedar-template-server-core/src/main/java/org/metadatacenter/templates/dao/GenericDao.java:11-15 | Creating a document does not change what a find already returns. |
| Services.Page | cedar-template-server-play/app/controllers/TemplateElementServerController.java:86-94 | A page holds the stored documents from `offset` on, in order. It has exactly `limit` of them, or fewer when the store runs out first, and none when `offset` is at or past the end. |
| Services.Listed | cedar-template-server-application/src/main/java/org/metadatacenter/cedar/template/resources/TemplatesResource.java:142-146 | A listing has one entry per document on the page. Entry `i` keeps only keys of the stored document at `offset + i`, with their stored values. Under INCLUDE it keeps exactly the named keys; under EXCLUDE, exactly the unnamed ones. |
| Services.ListingCalls | cedar-template-server-play/app/controllers/TemplateElementServerController.java:81-97 | A listing makes no store call when its parameters are refused. Otherwise its first call is the query; a query that throws is the only call, and one that succeeds is followed by exactly one count. |
| Services.Service.Create | cedar-template-server-core/src/main/java/org/metadatacenter/templates/dao/GenericDao.java:11 | Create appends the document with an internal `_id` numbered by the store's counter, advances the counter, and returns a new node holding the stored copy. On a fault it throws and stores nothing. |
| Services.Service.Find | cedar-template-server-core/src/main/java/org/metadatacenter/templates/dao/GenericDao.java:15 | Find returns the located document, null when none has the `@id`, or the fault. |
| Services.Service.FindAll | cedar-template-server-core/src/main/java/org/metadatacenter/templates/dao/GenericDao.java:13 | FindAll returns the projected page, or the fault. |
| Services.Service.Count | cedar-template-server-play/app/controllers/TemplateElementServerController.java:95 | Count is the number of stored documents. |
| Services.Service.Update | cedar-template-server-core/src/main/java/org/metadatacenter/templates/dao/GenericDao.java:19 | Update replaces the located document and keeps its `_id`. A missing `@id` throws InstanceNotFound and changes nothing. |
| Services.Service.Delete | cedar-template-server-core/src/main/java/org/metadatacenter/templates/dao/GenericDao.java:21 | Delete removes exactly the located document. A missing `@id` throws InstanceNotFound and changes nothing. |
| Services.Service.SaveNewFieldsAndReplaceIds | cedar-template-server-application/src/main/java/org/metadatacenter/cedar/template/resources/TemplatesResource.java:71-72 | It stores the fields extracted from the parent and rewrites the parent in place. Nothing stored is ever removed. On a fault there is no rollback: the fields saved before the failure stay stored and the parent stays as far as it was rewritten. Both are opaque. |
| Paging.OffsetCheckMatchesPage | cedar-template-server-play/app/controllers/AbstractTemplateServerController.java:50-55 | For a positive limit and a non-negative offset, the offset-against-total check accepts exactly offset 0 and the offsets whose page holds at least one document. |
| TemplateServerResource.SetProvenanceAndId | cedar-template-server-application/src/main/java/org/metadatacenter/cedar/template/resources/AbstractTemplateServerResource.java:36-51 | The request fails exactly when import mode and "has a non-null `@id`" disagree, with the message for that mode. An imported document is kept as it is. Otherwise the result holds exactly the keys `addProvenanceInfo` produced plus `@id`: the new `@id`, and every other key with its stamped value. Either way the result has a non-null `@id`. |
| TemplateServerResource.CheckImportModeSetProvenanceAndId | cedar-template-server-application/src/main/java/org/metadatacenter/cedar/template/resources/AbstractTemplateServerResource.java:36-51 | The in-place check throws `SetProvenanceAndId`'s error and leaves the element untouched, or leaves exactly its result in the element. |
| TemplateServerResource.StampedDocumentImports | cedar-template-server-application/src/main/java/org/metadatacenter/cedar/template/resources/AbstractTemplateServerResource.java:38-46 | A document stamped outside import mode passes the import-mode check unchanged, and a second stamping is refused with "Specifying @id …". |
| TemplateServerResource.EnsureSummary | cedar-template-server-application/src/main/java/org/metadatacenter/cedar/template/resources/AbstractTemplateServerResource.java:53-59 | A summary is requested exactly when the flag is present and true. |
| TemplateServerResource.GetAndCheckFieldNames | cedar-template-server-application/src/main/java/org/metadatacenter/cedar/template/resources/AbstractTemplateServerResource.java:61-72 | Field names together with a summary are refused with the `field_names` assertion. An absent or empty string gives no list. Otherwise the list is `split(",")`, which round-trips when the string does not end with a comma. |
| TemplateServerResource.CheckPagingParametersAgainstTotal | cedar-template-server-application/src/main/java/org/metadatacenter/cedar/template/resources/AbstractTemplateServerResource.java:74-81 | An offset is refused exactly when it is nonzero and not below the total, with a processing exception naming the total. |
| TemplateServerController.EnsureLimit | cedar-template-server-play/app/controllers/AbstractTemplateServerController.java:31-33 | A missing limit becomes the default page size, and a given one is kept. |
| TemplateServerController.CheckPagingParameters | cedar-template-server-play/app/controllers/AbstractTemplateServerController.java:35-48 | Paging passes exactly when the offset is at least 0 and the limit is between 1 and the maximum. The offset error wins over the limit errors, and the non-positive-limit error wins over the maximum error. |
| TemplateServerController.CheckPagingParametersAgainstTotal | cedar-template-server-play/app/controllers/AbstractTemplateServerController.java:50-55 | An offset is refused exactly when it is nonzero and not below the total, with an IllegalArgumentException naming the total. |
| TemplateServerController.GetAndCheckFieldNames | cedar-template-server-play/app/controllers/AbstractTemplateServerController.java:57-67 | Field names (even empty ones) together with a summary are refused. An empty or missing string gives no list. Otherwise the list is `split(",")`, which round-trips when the string does not end with a comma. |
| TemplateServerController.UserId | cedar-template-server-play/app/controllers/AbstractTemplateServerController.java:70-81 | The user id is the base path followed by the account id, or by `null` when the lookup failed. |
| TemplateServerController.AddProvenanceInfo | cedar-template-server-play/app/controllers/AbstractTemplateServerController.java:70-86 | Exactly the four provenance keys are added or overwritten. Both timestamps are the same instant, both users are the same `UserId`, and every other key is kept. |
| TemplateServerController.PlanListing | cedar-template-server-play/app/controllers/TemplateElementServerController.java:81-94 | A Play listing is refused with the paging error first, then the field-name error. Otherwise it queries with the defaulted limit and the given offset. |
| TemplateServerController.ListingPlanned | cedar-template-server-play/app/controllers/TemplateElementServerController.java:81-94 | A Play listing query runs only for a valid page and uses the default limit when none is given. It uses exactly one projection: the summary list, the split field names, or the exclusion list. |
| TemplateServerController.PlayListing | cedar-template-server-play/app/controllers/TemplateElementServerController.java:86-112 | The status is 200, 403 or 500. A refused plan or a failed query leaves the headers untouched. An offset past the total gives 500 but still sets `X-Total-Count`. A 200 carries the projected page and adds exactly `ListingHeaders` to the headers. |
| TemplateServerController.FieldNameChecksAgree | cedar-template-server-play/app/controllers/AbstractTemplateServerController.java:57-67 | The Play and JAX-RS field-name checks accept the same requests and yield the same lists. |
| TemplateServerController.TotalChecksAgree | cedar-template-server-play/app/controllers/AbstractTemplateServerController.java:50-55 | The Play and JAX-RS total checks refuse the same offsets with the same message. |
| TemplatesResource.PlanListing | cedar-template-server-application/src/main/java/org/metadatacenter/cedar/template/resources/TemplatesResource.java:132-147 | A JAX-RS listing is refused with the inherited paging error first, then the field-name error. Otherwise it queries with the defaulted limit and offset. |
| TemplatesResource.ListingProjection | cedar-template-server-application/src/main/java/org/metadatacenter/cedar/template/resources/TemplatesResource.java:132-147 | A JAX-RS listing uses the summary list only for `summary=true` without field names, and the split field names only when they were given without a summary. Otherwise it uses the exclusion list. |
| Paging.ListingHeaders | cedar-template-server-application/src/main/java/org/metadatacenter/cedar/template/resources/TemplatesResource.java:158-164 | A successful listing always carries `X-Total-Count`, and carries `Link` exactly when the link header is non-empty. It has no other headers. |
| TemplatesResource.CatchIO | cedar-template-server-application/src/main/java/org/metadatacenter/cedar/template/resources/TemplatesResource.java:74-80 | Only an IOException is turned into a response: 500 with no headers and the handler's error key and the exception in the body. Every other exception is re-thrown unchanged. |
| TemplatesResource.CatchNotFoundOrIO | cedar-template-server-application/src/main/java/org/metadatacenter/cedar/template/resources/TemplatesResource.java:184-198 | InstanceNotFound becomes 404 with TEMPLATE_NOT_FOUND, and IOException becomes 500 with the handler's error key, each with the exception in the body and no headers. Every other exception is re-thrown unchanged. |
| TemplatesResource.CreateTemplate | cedar-template-server-application/src/main/java/org/metadatacenter/cedar/template/resources/TemplatesResource.java:56-87 | If the `@id` check fails, no service is called and nothing is stored. Otherwise the fields are saved first (the call is logged even when it fails), then the rewritten template is created. The answer is 201 with a Location for its `@id`, or 500 with TEMPLATE_NOT_CREATED on an I/O fault. A field fault leaves the template store untouched and keeps the fields saved before it. Only the stores' documents, log and (template) counter change; the counter advances exactly when a template is stored. No body contains `_id`. |
| TemplatesResource.FindTemplate | cedar-template-server-application/src/main/java/org/metadatacenter/cedar/template/resources/TemplatesResource.java:92-118 | The answer is 200 with the located document minus `_id`, 404 TEMPLATE_NOT_FOUND when there is none, or 500 for I/O and processing faults. |
| TemplatesResource.ListingOutcome | cedar-template-server-application/src/main/java/org/metadatacenter/cedar/template/resources/TemplatesResource.java:139-165 | A refused plan is thrown, and a failed query is 500 TEMPLATES_NOT_LISTED. An offset past the total is thrown as a processing exception. The answer is 200 exactly for a valid query and offset, with the projected page and `ListingHeaders`. |
| TemplatesResource.FindAllTemplates | cedar-template-server-application/src/main/java/org/metadatacenter/cedar/template/resources/TemplatesResource.java:122-166 | The handler answers `ListingOutcome` of its plan and makes exactly `ListingCalls` on the store: nothing for a refused plan, then the query, then the count, and only then the total check. |
| TemplatesResource.UpdateTemplate | cedar-template-server-application/src/main/java/org/metadatacenter/cedar/template/resources/TemplatesResource.java:171-201 | Provenance is patched, then the fields are saved, then the template is replaced. The answer is 200 without `_id`, 404 for a missing id, or 500 on I/O. A field fault leaves the template store untouched and keeps the fields saved before it. Only the stores' documents and logs change. |
| TemplatesResource.DeleteTemplate | cedar-template-server-application/src/main/java/org/metadatacenter/cedar/template/resources/TemplatesResource.java:206-229 | The answer is 204 after removing exactly the located template, 404 when it is missing, or 500 on I/O. |
| TemplateElementController.CreateTemplateElement | cedar-template-server-play/app/controllers/TemplateElementServerController.java:49-75 | Fields are saved first, then provenance is added, then the element is created. The answer is 201 with a Location header for its `@id` and no `_id` in the body. Every failure except an access failure is 500. A field fault leaves the element store and the headers untouched and keeps the fields saved before it. Only the stores' documents, log and (element) counter change; the counter advances exactly when an element is stored. |
| TemplateElementController.FindAllTemplateElements | cedar-template-server-play/app/controllers/TemplateElementServerController.java:77-113 | The status is always 200, 403 or 500. The handler answers, and leaves on `response()`, exactly `PlayListing` of its plan, and makes exactly `ListingCalls` on the store. |
| TemplateElementController.FindTemplateElement | cedar-template-server-play/app/controllers/TemplateElementServerController.java:115-137 | The answer is 200 with the element minus `_id`, 404 when it is missing, 400 for an illegal argument, or 500. |
| TemplateElementController.UpdateTemplateElement | cedar-template-server-play/app/controllers/TemplateElementServerController.java:139-165 | Provenance is patched, then the fields are saved, then the element is replaced. The answer is 200 without `_id`, 404 for a missing id, 400 for an illegal argument, 403 or 500. A field fault leaves the element store untouched and keeps the fields saved before it. Only the stores' documents and logs change. |
| TemplateElementController.DeleteTemplateElement | cedar-template-server-play/app/controllers/TemplateElementServerController.java:167-186 | The answer is 204 after removing exactly the located element, or 404 (never 204) when it is missing. |
| TemplateFieldController.FindAllTemplateFields | cedar-template-server-play/app/controllers/TemplateFieldServerController.java:39-75 | The field listing is the element listing over the field store: `PlayListing` of its plan and `ListingCalls` on the store, with status 200, 403 or 500. |
| TemplateFieldController.FindTemplateField | cedar-template-server-play/app/controllers/TemplateFieldServerController.java:77-99 | The answer is 200 with the field minus `_id`, 404 when it is missing, 400 for an illegal argument, or 500. |

## Left out

- Authentication and permissions are reduced to one boolean per request. A refused JAX-RS request throws the `CedarAssertionException` that `c.must(...)` raises; a refused Play request answers 403. The model names both `AccessDenied`.
- Request bodies are assumed to be JSON objects. A missing or non-object body, and the NullPointerException or ClassCastException it would cause, are not modelled.
- The Play handlers take `offset` as an `int`. A null `Integer` offset, which would unbox to a NullPointerException and give 500, is not modelled.
- `CedarMicroserviceResource` is not part of this model. Its `ensureLimit`, `ensureOffset` and `checkPagingParameters`, which the JAX-RS listing inherits, are parameters of `TemplatesResource.PlanListing` and are not assumed to match the Play versions.
- `MongoUtils` is not part of this model. `removeIdField` is modelled as removing the `_id` key, the same as `JsonUtils.removeField`.
- The Play template controllers call `org.metadatacenter.util.json.JsonUtils.removeField`, which is not part of this model. It is assumed to behave like the `utils.JsonUtils.removeField` that `JsonUtils.RemoveField` models.
- JavaString.Split: models `String.split` only for a separator that is not a regular-expression metacharacter. The source only ever splits on `,`.
- Services.Service.Create: the internal `_id` comes from a per-store counter. That it differs from every `_id` already stored is not proved, because the fields the decomposition stores have opaque content and do not advance the counter.
- `ProvenanceUtil` (add and patch), the field service's `saveNewFieldsAndReplaceIds` decomposition, `LinkHeaderUtil.getPagingLinkHeader`, `LinkedDataUtil.buildNewLinkedDataId` and URL building (`CedarUrlUtil.getIdURI`, `absoluteURL`, `UrlUtil.trimUrlParameters`) are not part of this model. They are opaque functions passed to the handlers, and the new `@id` is a parameter. That the new `@id` is non-empty and globally unique is therefore not modelled.
- The clock and the xsd date formatting in `addProvenanceInfo` are not modelled; the formatted time is a parameter. The account lookup is a parameter that is absent when it failed.
- Configuration loading is not modelled. Page sizes, the user base path, and the summary and exclusion lists are parameters.
- The stores behind `GenericDao` and `MongoFactory` are not modelled. The store is an abstract in-memory collection in insertion order, found by `@id`, where an update keeps the stored `_id`. That is a choice of this model, not the MongoDB implementation.
- The store's I/O failures are a single sticky fault per service rather than independent failures per call.
- Logging is not modelled.
- The `parameter(...)` context attached to `CedarProcessingException` is not modelled; only its message is kept.
- The `CedarResponse` error message text is not modelled; only its status, error key and cause are kept.
- Concurrency between requests is not modelled.
- JSON numbers are kept as their text, with no numeric semantics.
- Java `int` and `long` overflow is not modelled. Limits, offsets and totals are unbounded integers, so `offset > total - 1` cannot overflow in the model, and in the source it cannot either, since `total` is a `long`.
- Key order within a JSON object is not modelled; objects are maps.
