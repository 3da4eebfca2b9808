/**
 * Partial-attribute updates from an untyped attribute map, and the per-tenant name
 * uniqueness rule for volume configurations and templates.
 */
module Attributes {
  import opened Outcomes
  import opened Model
  import opened JavaInt

  /** A value of a Map<String, Object> of attributes, by its runtime class. */
  datatype AttrValue =
    | Null
    | Text(s: string)
    | Number(n: Int32)
    | Properties(p: map<string, string>)

  /** The cast `(String) value`: null stays null, a non-String raises ClassCastException. */
  function AsText(v: AttrValue): (r: Result<Option<string>>)
    ensures r.Ok? <==> v.Null? || v.Text?
    ensures v.Text? ==> r == Ok(Some(v.s))
    ensures v.Null? ==> r == Ok(None)
  {
    match v
    case Null => Ok(None)
    case Text(s) => Ok(Some(s))
    case _ => Err(ClassCast)
  }

  /** The cast `(Integer) value`. */
  function AsNumber(v: AttrValue): (r: Result<Option<int>>)
    ensures r.Ok? <==> v.Null? || v.Number?
    ensures v.Number? ==> r == Ok(Some(v.n))
    ensures v.Null? ==> r == Ok(None)
  {
    match v
    case Null => Ok(None)
    case Number(n) => Ok(Some(n))
    case _ => Err(ClassCast)
  }

  /** The cast `(Map<String, String>) value`. */
  function AsProperties(v: AttrValue): (r: Result<Option<map<string, string>>>)
    ensures r.Ok? <==> v.Null? || v.Properties?
    ensures v.Properties? ==> r == Ok(Some(v.p))
    ensures v.Null? ==> r == Ok(None)
  {
    match v
    case Null => Ok(None)
    case Properties(p) => Ok(Some(p))
    case _ => Err(ClassCast)
  }

  /** Every key present among `keys` holds a value of the class its setter casts to. */
  predicate CastsSucceed(attributes: map<string, AttrValue>)
  {
    && ("name" in attributes ==> AsText(attributes["name"]).Ok?)
    && ("description" in attributes ==> AsText(attributes["description"]).Ok?)
    && ("properties" in attributes ==> AsProperties(attributes["properties"]).Ok?)
  }

  /**
   * updateCloudEntityAttributes: each of name, description and properties is set from the
   * map exactly when its key is present (a null value clears it); `updated` is true exactly
   * when one of the three keys is present. A value of the wrong class raises
   * ClassCastException.
   */
  method UpdateCloudEntityAttributes(entity: CloudEntity, attributes: map<string, AttrValue>)
    returns (r: Result<CloudEntity>, updated: bool)
    ensures r.Ok? <==> CastsSucceed(attributes)
    ensures r.Err? ==> r.error == ClassCast
    ensures r.Ok? ==>
      && r.value.name == (if "name" in attributes then AsText(attributes["name"]).value else entity.name)
      && r.value.description ==
           (if "description" in attributes then AsText(attributes["description"]).value else entity.description)
      && r.value.properties ==
           (if "properties" in attributes then AsProperties(attributes["properties"]).value else entity.properties)
      && r.value.tenant == entity.tenant
      && r.value.created == entity.created
      && r.value.updated == entity.updated
    ensures r.Ok? ==> (updated <==> "name" in attributes || "description" in attributes || "properties" in attributes)
  {
    var e := entity;
    updated := false;
    if "name" in attributes {
      var name := AsText(attributes["name"]);
      if name.Err? {
        return Err(name.error), updated;
      }
      e := e.(name := name.value);
      updated := true;
    }
    if "description" in attributes {
      var description := AsText(attributes["description"]);
      if description.Err? {
        return Err(description.error), updated;
      }
      e := e.(description := description.value);
      updated := true;
    }
    if "properties" in attributes {
      var properties := AsProperties(attributes["properties"]);
      if properties.Err? {
        return Err(properties.error), updated;
      }
      e := e.(properties := properties.value);
      updated := true;
    }
    r := Ok(e);
  }

  /** The JPQL existence query: an entity of the tenant already has the name. */
  predicate NameTaken(entities: map<int, CloudEntity>, tenant: int, name: string): (taken: bool)
    ensures !taken ==>
      forall id :: id in entities && entities[id].tenant == Some(tenant) ==> entities[id].name != Some(name)
  {
    exists id :: id in entities && entities[id].tenant == Some(tenant) && entities[id].name == Some(name)
  }

  /** No two entities of one tenant share a name. */
  ghost predicate NamesUnique(entities: map<int, CloudEntity>)
  {
    forall i, j ::
      i in entities && j in entities && i != j &&
      entities[i].tenant.Some? && entities[i].name.Some? && entities[i].tenant == entities[j].tenant
      ==> entities[i].name != entities[j].name
  }

  /**
   * Once an entity with a name is added under a new key, its name is taken in its tenant, and
   * every name taken before is still taken: a second create with that name is refused.
   */
  lemma NameTakenOnceAdded(entities: map<int, CloudEntity>, id: int, e: CloudEntity, tenant: int, name: string)
    requires id !in entities
    ensures e.tenant.Some? && e.name.Some? ==> NameTaken(entities[id := e], e.tenant.value, e.name.value)
    ensures NameTaken(entities, tenant, name) ==> NameTaken(entities[id := e], tenant, name)
  {
    if e.tenant.Some? && e.name.Some? {
      assert id in entities[id := e];
    }
    if NameTaken(entities, tenant, name) {
      var k :| k in entities && entities[k].tenant == Some(tenant) && entities[k].name == Some(name);
      assert k in entities[id := e] && entities[id := e][k] == entities[k];
    }
  }

  /**
   * Adding an entity under a new key keeps names unique within each tenant when the name
   * check passed: the name is null or not yet taken in the entity's tenant.
   */
  lemma {:induction false} AddingUntakenNameKeepsNamesUnique(entities: map<int, CloudEntity>, id: int, e: CloudEntity)
    requires NamesUnique(entities) && id !in entities
    requires e.tenant.Some?
    requires e.name.Some? ==> !NameTaken(entities, e.tenant.value, e.name.value)
    ensures NamesUnique(entities[id := e])
  {
    var es := entities[id := e];
    forall i, j |
      i in es && j in es && i != j &&
      es[i].tenant.Some? && es[i].name.Some? && es[i].tenant == es[j].tenant
      ensures es[i].name != es[j].name
    {
      if i == id {
        assert j in entities && es[j] == entities[j];
      } else if j == id {
        assert i in entities && es[i] == entities[i];
      }
    }
  }
}
