/**
 * The template registry: an append-only list of (id, template) entries,
 * looked up by id. The lookups are functions of the list; the list itself
 * lives in a TemplateRegistry object whose CreateTemplate appends to it.
 */
module Registry {
  import opened Wrappers
  import opened Templates

  /** Some entry of the store carries this id. */
  predicate Registered(store: seq<TemplateMetadata>, id: string) {
    exists i | 0 <= i < |store| :: store[i].id == id
  }

  /** No two entries share an id. */
  ghost predicate UniqueIds(store: seq<TemplateMetadata>) {
    forall i, j :: 0 <= i < j < |store| ==> store[i].id != store[j].id
  }

  /** The first entry whose id is `id`, as `Array.prototype.find` returns it. */
  function Find(store: seq<TemplateMetadata>, id: string): (r: Option<TemplateMetadata>)
    ensures r.None? <==> !Registered(store, id)
    ensures r.Some? ==> exists i :: 0 <= i < |store| && store[i] == r.value
                                    && r.value.id == id
                                    && forall j :: 0 <= j < i ==> store[j].id != id
  {
    if store == [] then None
    else if store[0].id == id then Some(store[0])
    else
      var r := Find(store[1..], id);
      assert forall i :: 0 <= i < |store[1..]| ==> store[1..][i] == store[i + 1];
      r
  }

  /** The entry registered under `id`, or TemplateNotFound. */
  function GetTemplateMetadata(store: seq<TemplateMetadata>, id: string): (r: Result<TemplateMetadata, Error>)
    ensures r.Ok? <==> Registered(store, id)
    ensures r.Err? ==> r.error == TemplateNotFound(id)
    ensures r.Ok? ==> r.value.id == id && r.value in store
    ensures UniqueIds(store) ==> forall i :: 0 <= i < |store| && store[i].id == id ==> r == Ok(store[i])
  {
    match Find(store, id)
    case None => Err(TemplateNotFound(id))
    case Some(metadata) => Ok(metadata)
  }

  /** The template registered under `id`, or TemplateNotFound. */
  function GetTemplate(store: seq<TemplateMetadata>, id: string): (r: Result<EmailTemplate, Error>)
    ensures r.Ok? <==> Registered(store, id)
    ensures r.Err? ==> r.error == TemplateNotFound(id)
    ensures r.Ok? ==> TemplateMetadata(id, r.value) in store
  {
    match GetTemplateMetadata(store, id)
    case Err(e) => Err(e)
    case Ok(metadata) => Ok(metadata.template)
  }

  /** Every registered template, one per entry, in registration order. */
  function GetTemplates(store: seq<TemplateMetadata>): (r: seq<EmailTemplate>)
    ensures |r| == |store|
    ensures forall i :: 0 <= i < |store| ==> r[i] == store[i].template
  {
    seq(|store|, i requires 0 <= i < |store| => store[i].template)
  }

  /** Appending an entry does not change what an earlier id finds; a new id finds the new entry. */
  lemma {:induction false} FindAfterAppend(store: seq<TemplateMetadata>, m: TemplateMetadata, id: string)
    ensures Find(store + [m], id) ==
      if Registered(store, id) then Find(store, id)
      else if m.id == id then Some(m)
      else None
  {
    if store != [] {
      assert (store + [m])[1..] == store[1..] + [m];
      if store[0].id != id {
        FindAfterAppend(store[1..], m, id);
        assert Registered(store, id) <==> Registered(store[1..], id) by {
          if Registered(store, id) {
            var i :| 0 <= i < |store| && store[i].id == id;
            assert store[1..][i - 1].id == id;
          }
          if Registered(store[1..], id) {
            var i :| 0 <= i < |store[1..]| && store[1..][i].id == id;
            assert store[i + 1].id == id;
          }
        }
      }
    }
  }

  /** Lookups that succeed keep succeeding, with the same result, however many entries follow. */
  lemma {:induction false} GetTemplateStable(store: seq<TemplateMetadata>, later: seq<TemplateMetadata>, id: string)
    requires Registered(store, id)
    ensures GetTemplate(store + later, id) == GetTemplate(store, id)
    decreases |later|
  {
    if later == [] {
      assert store + later == store;
    } else {
      var front := later[..|later| - 1];
      var last := later[|later| - 1];
      assert later == front + [last];
      assert store + later == (store + front) + [last];
      GetTemplateStable(store, front, id);
      var i :| 0 <= i < |store| && store[i].id == id;
      assert (store + front)[i].id == id;
      FindAfterAppend(store + front, last, id);
    }
  }

  /** Registering a fresh id makes it retrievable and leaves every other lookup as it was. */
  lemma RegisterThenGet(store: seq<TemplateMetadata>, id: string, t: EmailTemplate, other: string)
    requires !Registered(store, id)
    ensures GetTemplate(store + [TemplateMetadata(id, t)], id) == Ok(t)
    ensures other != id ==> GetTemplate(store + [TemplateMetadata(id, t)], other) == GetTemplate(store, other)
  {
    FindAfterAppend(store, TemplateMetadata(id, t), id);
    FindAfterAppend(store, TemplateMetadata(id, t), other);
  }

  /** A registration adds exactly its template at the end of the listing. */
  lemma GetTemplatesAfterRegister(store: seq<TemplateMetadata>, m: TemplateMetadata)
    ensures GetTemplates(store + [m]) == GetTemplates(store) + [m.template]
  {
  }

  /**
   * The process-wide template list of the source, as an object: CreateTemplate
   * pushes onto it, everything else only reads it.
   */
  class TemplateRegistry {
    var templates: seq<TemplateMetadata>

    ghost predicate Valid()
      reads this
    {
      UniqueIds(templates)
    }

    constructor ()
      ensures Valid() && templates == []
    {
      templates := [];
    }

    /**
     * Registers `template` under `id`, failing with TemplateAlreadyExists when
     * the id is taken; on success the template is returned unchanged.
     */
    method CreateTemplate(id: string, template: EmailTemplate) returns (r: Result<EmailTemplate, Error>)
      requires Valid()
      modifies this
      ensures Valid()
      ensures Registered(old(templates), id) ==>
        r == Err(TemplateAlreadyExists(id)) && templates == old(templates)
      ensures !Registered(old(templates), id) ==>
        r == Ok(template) && templates == old(templates) + [TemplateMetadata(id, template)]
      ensures GetTemplate(templates, id).Ok?
      ensures !Registered(old(templates), id) ==> GetTemplate(templates, id) == Ok(template)
      ensures GetTemplates(templates) == GetTemplates(old(templates)) + (if r.Ok? then [template] else [])
    {
      if Registered(templates, id) {
        return Err(TemplateAlreadyExists(id));
      }
      RegisterThenGet(templates, id, template, id);
      GetTemplatesAfterRegister(templates, TemplateMetadata(id, template));
      templates := templates + [TemplateMetadata(id, template)];
      return Ok(template);
    }
  }
}
