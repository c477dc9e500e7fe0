/** Domain-specific views of resources. A resource `/assets/{id}` is also
    offered as `/domains/{domainId}/assets/{id}`; the store keeps only the
    main form, so a domain-specific URI is split into the domain and the main
    URI, and each revision found under the main URI is rewritten into the
    domain's view of its content. */
module DomainService {
  import opened Wrappers
  import opened Json
  import opened Uuids
  import opened Dtos

  /** The element types that have domain-specific forms, in the order the
      service lists them (the singular "document" is part of the list). */
  const ElementTypes: seq<string> :=
    ["assets", "controls", "document", "incidents", "persons", "processes", "scenarios", "scopes"]

  const DomainsPrefix: string := "/domains/"

  /** A recognised domain-specific URI: the URI itself, the main URI of the
      resource it shows, and the domain. */
  datatype DomainSpecificResource = DomainSpecificResource(
    domainSpecificUri: string,
    mainUri: string,
    domainId: Uuid)

  /** The whole text is the domain-specific form: `/domains/`, a UUID,
      `/`, a listed element type, `/`, a UUID. */
  ghost predicate IsDomainSpecificUri(uri: string) {
    exists id: string, elementType: string, resourceId: string ::
      IsUuidText(id) && elementType in ElementTypes && IsUuidText(resourceId) &&
      uri == DomainsPrefix + id + "/" + elementType + "/" + resourceId
  }

  /** `tryParseDomainSpecificUri`: `pattern.matchEntire(uri)` with the domain
      id as the first group and `/{elementType}/{id}` as the second. */
  function TryParseDomainSpecificUri(uri: string): (r: Option<DomainSpecificResource>)
    ensures r.Some? <==> IsDomainSpecificUri(uri)
    ensures r.Some? ==>
      && r.value.domainSpecificUri == uri
      && IsUuidText(uri[9..45])
      && r.value.domainId == ParseUuid(uri[9..45])
      && DomainsPrefix + uri[9..45] + r.value.mainUri == uri
      && exists elementType: string, resourceId: string ::
           elementType in ElementTypes && IsUuidText(resourceId) &&
           r.value.mainUri == "/" + elementType + "/" + resourceId
  {
    if Matches(uri) then
      MatchIsDomainSpecific(uri);
      assert DomainsPrefix + uri[9..45] + uri[45..] == uri;
      Some(DomainSpecificResource(uri, uri[45..], ParseUuid(uri[9..45])))
    else
      assert !IsDomainSpecificUri(uri) by {
        if IsDomainSpecificUri(uri) {
          DomainSpecificMatches(uri);
        }
      }
      None
  }

  /** The position-by-position check the regular expression performs; every
      part but the element type has a fixed length. */
  predicate Matches(uri: string) {
    && |uri| >= 83
    && uri[..9] == DomainsPrefix
    && IsUuidText(uri[9..45])
    && uri[45] == '/'
    && uri[|uri| - 37] == '/'
    && IsUuidText(uri[|uri| - 36..])
    && uri[46..|uri| - 37] in ElementTypes
  }

  lemma MatchIsDomainSpecific(uri: string)
    requires Matches(uri)
    ensures IsDomainSpecificUri(uri)
    ensures uri[45..] == "/" + uri[46..|uri| - 37] + "/" + uri[|uri| - 36..]
  {
    var id, elementType, resourceId := uri[9..45], uri[46..|uri| - 37], uri[|uri| - 36..];
    assert uri == DomainsPrefix + id + "/" + elementType + "/" + resourceId;
    assert uri[45..] == "/" + elementType + "/" + resourceId;
  }

  lemma DomainSpecificMatches(uri: string)
    requires IsDomainSpecificUri(uri)
    ensures Matches(uri)
  {
    var id: string, elementType: string, resourceId: string :|
      IsUuidText(id) && elementType in ElementTypes && IsUuidText(resourceId) &&
      uri == DomainsPrefix + id + "/" + elementType + "/" + resourceId;
    var n := |uri|;
    assert n == 9 + 36 + 1 + |elementType| + 1 + 36;
    assert uri[..9] == DomainsPrefix;
    assert uri[9..45] == id;
    assert uri[45] == '/';
    assert uri[46..n - 37] == elementType;
    assert uri[n - 37] == '/';
    assert uri[n - 36..] == resourceId;
  }

  /** Why something cannot be converted: Kotlin's `as ObjectNode` failing
      with a ClassCastException. */
  datatype ConvertError = NotAnObject

  /** The top-level fields the domain view drops. */
  const DroppedFields: set<string> := {"requirementImplementations", "domains"}

  /** `content.remove("domains")?.get(key)`: the entry for the domain inside
      the removed `domains` field; absent when there is no such field, when it
      is not an object, or when it has no entry for the key. */
  function DomainEntry(content: map<string, Json>, key: string): (r: Option<Json>)
    ensures r.Some? <==> "domains" in content && content["domains"].JObject? && key in content["domains"].fields
    ensures r.Some? ==> r.value == content["domains"].fields[key]
  {
    if "domains" in content then Get(content["domains"], key) else None
  }

  /** The domain view of a content document: a failure when the document is
      not an object, or when the domain's entry exists but is not an object
      (the JSON `null` included); otherwise the document without
      `requirementImplementations` and `domains`, overlaid with the fields of
      the domain's entry, which win over fields of the same name. */
  function ProjectContent(content: Json, key: string): (r: Result<Json, ConvertError>)
    ensures r.Failure? <==>
      !content.JObject? || (DomainEntry(content.fields, key).Some? && !DomainEntry(content.fields, key).value.JObject?)
    ensures r.Success? ==> r.value.JObject?
    ensures r.Success? ==> forall k :: k in r.value.fields <==>
      (DomainEntry(content.fields, key).Some? && k in DomainEntry(content.fields, key).value.fields) ||
      (k in content.fields && k !in DroppedFields)
    ensures r.Success? ==> forall k :: k in r.value.fields ==>
      r.value.fields[k] ==
        if DomainEntry(content.fields, key).Some? && k in DomainEntry(content.fields, key).value.fields
        then DomainEntry(content.fields, key).value.fields[k]
        else content.fields[k]
  {
    if !content.JObject? then Failure(NotAnObject)
    else
      var kept := content.fields - DroppedFields;
      match DomainEntry(content.fields, key)
      case None => Success(JObject(kept))
      case Some(entry) =>
        if entry.JObject? then Success(JObject(kept + entry.fields)) else Failure(NotAnObject)
  }

  /** Without an entry for the domain, the view is the document minus the two
      dropped fields, whatever else `domains` holds. */
  lemma NoEntryOnlyDrops(content: map<string, Json>, key: string)
    requires DomainEntry(content, key).None?
    ensures ProjectContent(JObject(content), key) == Success(JObject(content - DroppedFields))
  {
  }

  /** Projecting a view again for the same domain changes nothing more,
      unless the overlay itself brought back a `domains` field. */
  lemma ProjectionIdempotent(content: Json, key: string)
    requires ProjectContent(content, key).Success?
    requires "domains" !in ProjectContent(content, key).value.fields
    requires "requirementImplementations" !in ProjectContent(content, key).value.fields
    ensures ProjectContent(ProjectContent(content, key).value, key) == ProjectContent(content, key)
  {
    var v := ProjectContent(content, key).value;
    assert v.fields - DroppedFields == v.fields;
  }

  /** A process with associations to two domains, seen from each of them and
      from a third it has no association with. */
  lemma ProjectionExample(keyA: string, keyB: string, keyC: string)
    requires keyA != keyB && keyC != keyA && keyC != keyB
    ensures var content := JObject(map[
        "name" := JString("Ultra Process 1"),
        "status" := JString("draft"),
        "requirementImplementations" := JArray([]),
        "domains" := JObject(map[
          keyA := JObject(map["subType" := JString("fastProcess"), "status" := JString("verified")]),
          keyB := JObject(map[])])]);
      && ProjectContent(content, keyA) == Success(JObject(map[
           "name" := JString("Ultra Process 1"),
           "subType" := JString("fastProcess"),
           "status" := JString("verified")]))
      && ProjectContent(content, keyB) == Success(JObject(map[
           "name" := JString("Ultra Process 1"),
           "status" := JString("draft")]))
      && ProjectContent(content, keyC) == ProjectContent(content, keyB)
  {
    var entryA := JObject(map["subType" := JString("fastProcess"), "status" := JString("verified")]);
    var domains := JObject(map[keyA := entryA, keyB := JObject(map[])]);
    var fields := map[
      "name" := JString("Ultra Process 1"),
      "status" := JString("draft"),
      "requirementImplementations" := JArray([]),
      "domains" := domains];
    var kept := map["name" := JString("Ultra Process 1"), "status" := JString("draft")];
    assert fields - DroppedFields == kept;
    assert DomainEntry(fields, keyA) == Some(entryA);
    assert DomainEntry(fields, keyB) == Some(JObject(map[]));
    assert DomainEntry(fields, keyC) == None;
    assert kept + entryA.fields == map[
      "name" := JString("Ultra Process 1"),
      "subType" := JString("fastProcess"),
      "status" := JString("verified")];
    assert kept + map[] == kept;
  }

  /** `convert(revisionDto)`: the DTO under the domain-specific URI with the
      domain view of its content. The content is read through the DTO's
      getter, so the in-place edits below work on a fresh copy and the DTO
      passed in is left as it was. The domain's key is the lower-case text
      form of its id, `domainId.toString()`. */
  method Convert(resource: DomainSpecificResource, dto: RevisionDto) returns (r: Result<RevisionDto, ConvertError>)
    ensures r.Failure? <==>
      dto.storedContent.Some? && ProjectContent(dto.storedContent.value, UuidToString(resource.domainId)).Failure?
    ensures r.Success? ==>
      && r.value.id == dto.id
      && r.value.uri == resource.domainSpecificUri
      && r.value.changeNumber == dto.changeNumber
      && r.value.revisionType == dto.revisionType
      && r.value.time == dto.time
      && r.value.author == dto.author
      && (r.value.storedContent.None? <==> dto.storedContent.None?)
      && (r.value.storedContent.Some? ==>
           Success(r.value.storedContent.value) == ProjectContent(dto.storedContent.value, UuidToString(resource.domainId)))
  {
    var content := dto.Content();
    if content == null {
      return Success(dto.(uri := resource.domainSpecificUri));
    }
    if !content.tree.JObject? {
      return Failure(NotAnObject);
    }
    var key := UuidToString(resource.domainId);
    var _ := content.Remove("requirementImplementations");
    var domains := content.Remove("domains");
    var entry := if domains.Some? then Get(domains.value, key) else None;
    assert entry == DomainEntry(dto.storedContent.value.fields, key);
    if entry.Some? {
      if !entry.value.JObject? {
        return Failure(NotAnObject);
      }
      content.SetAll(entry.value.fields);
    }
    var kept := dto.storedContent.value.fields - DroppedFields;
    if entry.Some? {
      assert content.tree == JObject(kept + entry.value.fields);
    } else {
      assert content.tree == JObject(kept);
    }
    r := Success(dto.(uri := resource.domainSpecificUri, storedContent := Some(content.tree)));
  }
}
