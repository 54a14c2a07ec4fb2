/**
 * The entity manager: the table of loaded entities (in load order), one
 * common service manager whose services are copied into the entities that
 * list them, and the lookups across all entities.
 *
 * The current manager (dizzy/entity/manager.py) also binds actions after
 * copying and can run a workflow by name; the older one (the `EntityManager`
 * of dizzy/entity.py) only copies.
 */
module EntityManagers {
  import opened Wrappers
  import opened Values
  import opened OrderedMaps
  import opened Actions
  import opened Tasks
  import opened Services
  import opened ServiceManagers
  import opened Entities

  type EntityTable = OMap<string, Entity>

  /** Every entity is stored under its own name. */
  predicate Named(es: EntityTable) {
    forall k :: k in es.entries ==> es.entries[k].name == k
  }

  /** The i-th entity in load order. */
  function EntityAt(es: EntityTable, i: nat): Entity
    requires i < |es.keys|
  {
    es.entries[es.keys[i]]
  }

  // ----- loading -----

  /** `_copy_common_services`: each listed service the common manager holds replaces (or joins) the entity's own. */
  function CopiedInto(c: Catalog, names: seq<string>, common: Catalog): Catalog
    decreases |names|
  {
    if names == [] then c
    else
      var next := if names[0] in common.entries then Put(c, names[0], common.entries[names[0]]) else c;
      CopiedInto(next, names[1..], common)
  }

  /**
   * After copying, a name maps to the common service when the entity lists
   * it and the common manager holds it, and to the entity's own service
   * otherwise.
   */
  lemma {:induction false} CopiedIntoSpec(c: Catalog, names: seq<string>, common: Catalog, k: string)
    ensures Get(CopiedInto(c, names, common), k) ==
      if k in names && k in common.entries then Some(common.entries[k]) else Get(c, k)
    decreases |names|
  {
    if names != [] {
      var next := if names[0] in common.entries then Put(c, names[0], common.entries[names[0]]) else c;
      CopiedIntoSpec(next, names[1..], common, k);
      assert names == [names[0]] + names[1..];
    }
  }

  /** Copying only appends names: the entity's own names keep their positions in front. */
  lemma {:induction false} CopiedIntoKeys(c: Catalog, names: seq<string>, common: Catalog)
    ensures |c.keys| <= |CopiedInto(c, names, common).keys|
    ensures CopiedInto(c, names, common).keys[..|c.keys|] == c.keys
    decreases |names|
  {
    if names != [] {
      var next := if names[0] in common.entries then Put(c, names[0], common.entries[names[0]]) else c;
      CopiedIntoKeys(next, names[1..], common);
      assert next.keys[..|c.keys|] == c.keys;
      var r := CopiedInto(next, names[1..], common);
      assert r.keys[..|c.keys|] == r.keys[..|next.keys|][..|c.keys|];
    }
  }

  /**
   * An entity as `load_entities` stores it: common services copied in, then
   * (current manager only) every task of its catalog offered the entity's
   * own actions.
   */
  function LoadedEntity(e: Entity, common: Catalog, rebind: bool): Entity {
    var copied := CopiedInto(e.catalog, e.services, common);
    e.(catalog := if rebind then RebindCatalog(copied, e.actions) else copied)
  }

  /** The service a loaded entity holds under `k`: the common one wins, and with `rebind` it is bound to the entity's actions. */
  lemma LoadedEntityCatalog(e: Entity, common: Catalog, rebind: bool, k: string)
    ensures LoadedEntity(e, common, rebind).name == e.name
    ensures LoadedEntity(e, common, rebind).workflows == e.workflows
    ensures var own := if k in e.services && k in common.entries then Some(common.entries[k]) else Get(e.catalog, k);
      Get(LoadedEntity(e, common, rebind).catalog, k) ==
        match own
        case None => None
        case Some(s) => Some(if rebind then RebindService(s, e.actions) else s)
  {
    CopiedIntoSpec(e.catalog, e.services, common, k);
  }

  /** The table after `load_entities`; a later entity replaces an earlier one of the same name. */
  function LoadedEntities(m: EntityTable, es: seq<Entity>, common: Catalog, rebind: bool): EntityTable
    decreases |es|
  {
    if es == [] then m
    else LoadedEntities(Put(m, es[0].name, LoadedEntity(es[0], common, rebind)), es[1..], common, rebind)
  }

  /** The position of the last entity named `k`. */
  function LastNamed(es: seq<Entity>, k: string): (r: Option<nat>)
    ensures r.Some? ==> r.value < |es| && es[r.value].name == k
    ensures r.Some? ==> forall j :: r.value < j < |es| ==> es[j].name != k
    ensures r.None? ==> forall j :: 0 <= j < |es| ==> es[j].name != k
    decreases |es|
  {
    if es == [] then None
    else
      var later := LastNamed(es[1..], k);
      assert forall i :: 1 <= i < |es| ==> es[i] == es[1..][i - 1];
      if later.Some? then Some(later.value + 1)
      else if es[0].name == k then Some(0)
      else None
  }

  /** Each name maps to the last loaded entity of that name, or to what the table held before. */
  lemma {:induction false} LoadedEntitiesSpec(m: EntityTable, es: seq<Entity>, common: Catalog, rebind: bool, k: string)
    ensures Get(LoadedEntities(m, es, common, rebind), k) ==
      match LastNamed(es, k)
      case Some(i) => Some(LoadedEntity(es[i], common, rebind))
      case None => Get(m, k)
    decreases |es|
  {
    if es != [] {
      LoadedEntitiesSpec(Put(m, es[0].name, LoadedEntity(es[0], common, rebind)), es[1..], common, rebind, k);
    }
  }

  /** Storing an entity under its own name keeps `Named`. */
  lemma NamedPut(m: EntityTable, e: Entity)
    requires Named(m)
    ensures Named(Put(m, e.name, e))
  {
  }

  /** Loading keeps every entity stored under its own name. */
  lemma {:induction false} LoadedEntitiesNamed(m: EntityTable, es: seq<Entity>, common: Catalog, rebind: bool)
    requires Named(m)
    ensures Named(LoadedEntities(m, es, common, rebind))
    decreases |es|
  {
    if es != [] {
      var e := LoadedEntity(es[0], common, rebind);
      NamedPut(m, e);
      LoadedEntitiesNamed(Put(m, e.name, e), es[1..], common, rebind);
    }
  }

  /** One turn of a loading loop: the i-th entity is stored, the rest remain. */
  lemma LoadedStep(m: EntityTable, es: seq<Entity>, i: nat, common: Catalog, rebind: bool)
    requires i < |es|
    ensures LoadedEntities(m, es[i..], common, rebind) ==
      LoadedEntities(Put(m, es[i].name, LoadedEntity(es[i], common, rebind)), es[i + 1..], common, rebind)
  {
    assert es[i..][1..] == es[i + 1..];
  }

  /** The copying loop of both managers' `load_entities`. */
  method CopyServices(e: Entity, common: Catalog) returns (copied: Entity)
    ensures copied == e.(catalog := CopiedInto(e.catalog, e.services, common))
  {
    var c := e.catalog;
    var i := 0;
    while i < |e.services|
      invariant 0 <= i <= |e.services|
      invariant CopiedInto(c, e.services[i..], common) == CopiedInto(e.catalog, e.services, common)
    {
      var name := e.services[i];
      if name in common.entries {
        c := Put(c, name, common.entries[name]);
      }
      assert e.services[i..][1..] == e.services[i + 1..];
      i := i + 1;
    }
    copied := e.(catalog := c);
  }

  // ----- get_workflows -----

  /** The (entity, workflow) pairs of one entity, in the order its workflows were declared. */
  function Pairs(e: Entity): (r: seq<(string, string)>)
    ensures |r| == |e.workflows.keys|
    ensures forall j :: 0 <= j < |r| ==> r[j] == (e.name, e.workflows.keys[j])
  {
    seq(|e.workflows.keys|, j requires 0 <= j < |e.workflows.keys| => (e.name, e.workflows.keys[j]))
  }

  /** The pairs of the first i entities. */
  function PairsBefore(es: EntityTable, i: nat): seq<(string, string)>
    requires i <= |es.keys|
  {
    if i == 0 then [] else PairsBefore(es, i - 1) + Pairs(EntityAt(es, i - 1))
  }

  /** `get_workflows`: entity by entity in load order, workflow by workflow in declaration order. */
  function WorkflowPairs(es: EntityTable): seq<(string, string)> {
    PairsBefore(es, |es.keys|)
  }

  /** One entity's pairs are its name with each workflow it declares. */
  lemma PairsSpec(e: Entity, n: string, w: string)
    ensures (n, w) in Pairs(e) <==> n == e.name && w in e.workflows.entries
  {
    if n == e.name && w in e.workflows.entries {
      var j := IndexOf(e.workflows, w);
      assert Pairs(e)[j] == (n, w);
    }
  }

  lemma {:induction false} PairsBeforeSpec(es: EntityTable, i: nat, n: string, w: string)
    requires Named(es) && i <= |es.keys|
    ensures (n, w) in PairsBefore(es, i) <==> n in es.keys[..i] && w in es.entries[n].workflows.entries
  {
    if i > 0 {
      PairsBeforeSpec(es, i - 1, n, w);
      var e := EntityAt(es, i - 1);
      PairsSpec(e, n, w);
      assert e.name == es.keys[i - 1];
      var before, own := PairsBefore(es, i - 1), Pairs(e);
      assert PairsBefore(es, i) == before + own;
      assert (n, w) in before + own <==> (n, w) in before || (n, w) in own;
      PrefixStep(es.keys, i, n);
      if n == es.keys[i - 1] {
        assert es.entries[n] == e;
      }
    }
  }

  lemma PrefixStep<T>(s: seq<T>, i: nat, x: T)
    requires 0 < i <= |s|
    ensures x in s[..i] <==> x in s[..i - 1] || x == s[i - 1]
  {
    assert s[..i] == s[..i - 1] + [s[i - 1]];
  }

  /** A pair is listed exactly when the entity of that name declares the workflow. */
  lemma WorkflowPairsSpec(es: EntityTable, n: string, w: string)
    requires Named(es)
    ensures (n, w) in WorkflowPairs(es) <==> n in es.entries && w in es.entries[n].workflows.entries
  {
    PairsBeforeSpec(es, |es.keys|, n, w);
    assert es.keys[..|es.keys|] == es.keys;
  }

  // ----- searching the entities -----

  /** What a search across the entities looks for. */
  datatype Query =
    | DeclaresTask(task: string)
    | HoldsService(service: string)

  predicate Matches(e: Entity, q: Query) {
    match q
    case DeclaresTask(task) => FindOwnerService(e.catalog, task).Some?
    case HoldsService(service) => service in e.catalog.entries
  }

  /** The position of the first of the first i entities that matches. */
  function FirstWhere(es: EntityTable, q: Query, i: nat): (r: Option<nat>)
    requires i <= |es.keys|
    ensures r.Some? ==> r.value < i && Matches(EntityAt(es, r.value), q)
    ensures r.Some? ==> forall j :: 0 <= j < r.value ==> !Matches(EntityAt(es, j), q)
    ensures r.None? ==> forall j :: 0 <= j < i ==> !Matches(EntityAt(es, j), q)
  {
    if i == 0 then None
    else
      var earlier := FirstWhere(es, q, i - 1);
      if earlier.Some? then earlier
      else if Matches(EntityAt(es, i - 1), q) then Some(i - 1)
      else None
  }

  /** The first matching entity in load order. */
  function First(es: EntityTable, q: Query): Option<nat> {
    FirstWhere(es, q, |es.keys|)
  }

  /** `find_owner_entity`: the first entity some service of which declares the task. */
  function FindOwnerEntity(es: EntityTable, task: string): (r: Option<Entity>)
    ensures r.None? <==> forall j :: 0 <= j < |es.keys| ==> FindOwnerService(EntityAt(es, j).catalog, task).None?
    ensures r.Some? ==> exists i :: (0 <= i < |es.keys| && r.value == EntityAt(es, i) &&
      FindOwnerService(r.value.catalog, task).Some? &&
      forall j :: 0 <= j < i ==> FindOwnerService(EntityAt(es, j).catalog, task).None?)
  {
    match First(es, DeclaresTask(task))
    case None => None
    case Some(i) => Some(EntityAt(es, i))
  }

  /**
   * `find_task`: the owner entity's answer -- the declaring service's
   * loaded task, or its ValueError -- and None when no entity declares it.
   */
  function FindTask(es: EntityTable, task: string): (r: Result<Option<Task>>)
    ensures FindOwnerEntity(es, task).None? ==> r == Ok(None)
    ensures FindOwnerEntity(es, task).Some? ==>
      r == ServiceManagers.FindTask(FindOwnerEntity(es, task).value.catalog, task) && r != Ok(None)
  {
    match FindOwnerEntity(es, task)
    case None => Ok(None)
    case Some(e) =>
      match FindOwnerService(e.catalog, task)
      case None => Ok(None)
      case Some(s) =>
        match GetTask(s, task)
        case Ok(t) => Ok(Some(t))
        case Err(err) => Err(err)
  }

  /** `find_service`: the service of that name in the first entity that holds one. */
  function FindService(es: EntityTable, service: string): (r: Option<Service>)
    ensures r.None? <==> forall j :: 0 <= j < |es.keys| ==> service !in EntityAt(es, j).catalog.entries
    ensures r.Some? ==> exists i :: (0 <= i < |es.keys| && service in EntityAt(es, i).catalog.entries &&
      r.value == EntityAt(es, i).catalog.entries[service] &&
      forall j :: 0 <= j < i ==> service !in EntityAt(es, j).catalog.entries)
  {
    match First(es, HoldsService(service))
    case None => None
    case Some(i) => GetService(EntityAt(es, i).catalog, service)
  }

  const Unhashable := "unhashable type: 'Service'"

  /**
   * `find_owner_service` as written: it hands the Service object itself to
   * `get_service`, whose `in` test hashes it; a dataclass with the default
   * `eq` is unhashable, so every found owner ends in a TypeError.
   */
  function FindOwnerServiceAsWritten(es: EntityTable, task: string): (r: Result<Option<Service>>)
    ensures r.Err? <==> FindOwnerEntity(es, task).Some?
    ensures r.Err? ==> r.error == TypeError(Unhashable)
    ensures r.Ok? ==> r.value.None?
  {
    match FindOwnerEntity(es, task)
    case None => Ok(None)
    case Some(_) => Err(TypeError(Unhashable))
  }

  /** `find_owner_service` as intended: the first declaring service of the first declaring entity. */
  function FindOwnerServiceOf(es: EntityTable, task: string): (r: Option<Service>)
    ensures r.Some? <==> FindOwnerEntity(es, task).Some?
    ensures r.Some? ==> task in r.value.tasks
    ensures r.Some? ==> r == FindOwnerService(FindOwnerEntity(es, task).value.catalog, task)
  {
    match FindOwnerEntity(es, task)
    case None => None
    case Some(e) => FindOwnerService(e.catalog, task)
  }

  /** The as-written lookup fails exactly where the intended one finds a service. */
  lemma OwnerServiceDiscrepancy(es: EntityTable, task: string)
    ensures FindOwnerServiceAsWritten(es, task).Err? <==> FindOwnerServiceOf(es, task).Some?
    ensures FindOwnerServiceOf(es, task).None? ==> FindOwnerServiceAsWritten(es, task) == Ok(None)
  {
  }

  /** The task `find_task` returns is the one the intended owner service holds. */
  lemma FindTaskThroughOwner(es: EntityTable, task: string)
    ensures FindOwnerServiceOf(es, task).None? ==> FindTask(es, task) == Ok(None)
    ensures FindOwnerServiceOf(es, task).Some? ==>
      FindTask(es, task) ==
        match GetTask(FindOwnerServiceOf(es, task).value, task)
        case Ok(t) => Ok(Some(t))
        case Err(err) => Err(err)
  {
  }

  /** `get_entity`: the entity stored under the name, or None. */
  function GetEntity(es: EntityTable, name: string): (r: Option<Entity>)
    ensures r.Some? <==> name in es.entries
    ensures r.Some? ==> r.value == es.entries[name]
    ensures Named(es) && r.Some? ==> r.value.name == name
  {
    Get(es, name)
  }

  /** `get_entities`: the entities in load order. */
  function GetEntities(es: EntityTable): seq<Entity> {
    ValuesOf(es)
  }

  /** `get_entity_names`: the names in load order. */
  function GetEntityNames(es: EntityTable): seq<string> {
    es.keys
  }

  /** `get_entity_items` (legacy): each entity's name with its listed services. */
  function GetEntityItems(es: EntityTable): seq<(string, seq<string>)> {
    seq(|es.keys|, i requires 0 <= i < |es.keys| => (EntityAt(es, i).name, EntityAt(es, i).services))
  }

  /**
   * The enumerations walk the same table: position i of the names is the
   * name of the i-th entity and of the i-th item, and `get_entity` returns
   * that entity for it; no name repeats.
   */
  lemma EntitiesAligned(es: EntityTable)
    requires Named(es)
    ensures |GetEntities(es)| == |GetEntityNames(es)| == |GetEntityItems(es)|
    ensures forall i :: 0 <= i < |GetEntityNames(es)| ==>
      && GetEntity(es, GetEntityNames(es)[i]) == Some(GetEntities(es)[i])
      && GetEntities(es)[i].name == GetEntityNames(es)[i]
      && GetEntityItems(es)[i] == (GetEntityNames(es)[i], GetEntities(es)[i].services)
    ensures forall i, j :: 0 <= i < j < |GetEntityNames(es)| ==> GetEntityNames(es)[i] != GetEntityNames(es)[j]
  {
  }

  // ----- run_workflow -----

  /** Each entity's catalog resolves without cycles under its own rank. */
  ghost predicate AllRanked(es: EntityTable, ranks: string -> string -> nat) {
    forall n :: n in es.entries ==> Ranked(es.entries[n].catalog, ranks(n), false)
  }

  /**
   * The entity `run_workflow` picks: the named one if it is loaded, else the
   * entity of the first `get_workflows` pair naming the workflow -- that is,
   * the first entity in load order that declares it.
   */
  function Target(es: EntityTable, workflow: string, entityName: Option<string>): (r: Option<string>)
    requires Named(es)
    ensures entityName.Some? && entityName.value in es.entries ==> r == entityName
    ensures !(entityName.Some? && entityName.value in es.entries) ==>
      (r.None? <==> forall n :: n in es.entries ==> workflow !in es.entries[n].workflows.entries)
    ensures r.Some? ==> r.value in es.entries
    ensures r.Some? && !(entityName.Some? && entityName.value in es.entries) ==> workflow in es.entries[r.value].workflows.entries
  {
    if entityName.Some? && entityName.value in es.entries then entityName
    else
      var found := FirstPairFor(WorkflowPairs(es), workflow);
      FirstPairForSpec(WorkflowPairs(es), workflow);
      if found.Some? then
        WorkflowPairsSpec(es, found.value, workflow);
        found
      else
        assert forall n :: n in es.entries ==> workflow !in es.entries[n].workflows.entries by {
          forall n | n in es.entries
            ensures workflow !in es.entries[n].workflows.entries
          {
            WorkflowPairsSpec(es, n, workflow);
          }
        }
        found
  }

  /** The TypeError of calling the one-argument `Entity.run_workflow` with two arguments. */
  const ArityError := "Entity.run_workflow() takes 2 positional arguments but 3 were given"

  function Lift(r: Result<Ctx>): Result<Option<Ctx>> {
    match r
    case Ok(ctx) => Ok(Some(ctx))
    case Err(e) => Err(e)
  }

  /** `run_workflow` as intended: run the workflow on the chosen entity, or return None when there is none. */
  ghost function RunWorkflowSpec(es: EntityTable, workflow: string, entityName: Option<string>, ranks: string -> string -> nat): Result<Option<Ctx>>
    requires Named(es) && AllRanked(es, ranks)
  {
    match Target(es, workflow, entityName)
    case None => Ok(None)
    case Some(n) => Lift(WorkflowSpec(es.entries[n], workflow, false, ranks(n)))
  }

  /** The first pair naming the workflow. */
  function FirstPairFor(pairs: seq<(string, string)>, workflow: string): Option<string>
    decreases |pairs|
  {
    if pairs == [] then None
    else if pairs[0].1 == workflow then Some(pairs[0].0)
    else FirstPairFor(pairs[1..], workflow)
  }

  /** The scan finds an entity listed with the workflow, and finds none only when no pair names the workflow. */
  lemma {:induction false} FirstPairForSpec(pairs: seq<(string, string)>, workflow: string)
    ensures FirstPairFor(pairs, workflow).Some? ==> (FirstPairFor(pairs, workflow).value, workflow) in pairs
    ensures FirstPairFor(pairs, workflow).None? ==> forall p :: p in pairs ==> p.1 != workflow
    decreases |pairs|
  {
    if pairs != [] {
      FirstPairForSpec(pairs[1..], workflow);
      assert forall p :: p in pairs ==> p == pairs[0] || p in pairs[1..];
    }
  }

  // ----- the managers -----

  /** The current entity manager. */
  class EntityManager {
    var entities: EntityTable
    const common: ServiceManager
    const registry: ActionRegistry

    ghost predicate Valid()
      reads this
    {
      Named(entities)
    }

    /**
     * The given service manager is shared (a manager object is always truthy);
     * without one a fresh manager is made.  The manager offers `entity_info`.
     */
    constructor (serviceManager: ServiceManager?, serviceInfo: Action, entityInfo: Action)
      ensures Valid() && entities.keys == []
      ensures serviceManager != null ==> common == serviceManager
      ensures serviceManager == null ==> (fresh(common) && common.services.keys == [] &&
        GetAction(common.registry.table, "service_info") == (Some(""), Some(serviceInfo)))
      ensures fresh(registry) && registry.table.keys == ["entity_info"]
      ensures GetAction(registry.table, "entity_info") == (Some(""), Some(entityInfo))
    {
      entities := Empty();
      if serviceManager != null {
        common := serviceManager;
      } else {
        common := new ServiceManager(serviceInfo);
      }
      registry := new ActionRegistry();
      new;
      var _ := registry.RegisterAction("entity_info", "", Some(entityInfo));
    }

    /** `reset` as written: the table is emptied, then the call to the service manager's missing `reset` fails. */
    method ResetAsWritten() returns (r: Result<()>)
      modifies this
      ensures Valid() && entities.keys == []
      ensures r == Err(AttributeError("'ServiceManager' object has no attribute 'reset'"))
    {
      entities := Empty();
      r := Err(AttributeError("'ServiceManager' object has no attribute 'reset'"));
    }

    /** `reset` as intended: both the entities and the common services are dropped. */
    method Reset()
      modifies this, common
      ensures Valid() && entities.keys == [] && common.services.keys == []
    {
      entities := Empty();
      common.services := Empty();
    }

    /** `_copy_common_services` */
    method CopyCommonServices(e: Entity) returns (copied: Entity)
      ensures copied == e.(catalog := CopiedInto(e.catalog, e.services, common.services))
    {
      copied := CopyServices(e, common.services);
    }

    /** The store-copy-bind sequence `load_entities` applies to one entity. */
    method LoadEntity(e: Entity) returns (loaded: Entity)
      ensures loaded == LoadedEntity(e, common.services, true)
    {
      var copied := CopyCommonServices(e);
      loaded := BindEntityActions(copied);
    }

    /** One entity stored under its name, after its copy and its binding. */
    method StoreEntity(e: Entity)
      requires Valid()
      modifies this
      ensures Valid()
      ensures entities == Put(old(entities), e.name, LoadedEntity(e, common.services, true))
    {
      var loaded := LoadEntity(e);
      NamedPut(entities, loaded);
      entities := Put(entities, e.name, loaded);
    }

    /** `load_entities`: store each entity under its name, copy the common services in, bind its actions. */
    method LoadEntities(es: seq<Entity>)
      requires Valid()
      modifies this
      ensures Valid()
      ensures entities == LoadedEntities(old(entities), es, common.services, true)
    {
      var i := 0;
      while i < |es|
        invariant 0 <= i <= |es|
        invariant Named(entities)
        invariant LoadedEntities(entities, es[i..], common.services, true) == LoadedEntities(old(entities), es, common.services, true)
      {
        LoadedStep(entities, es, i, common.services, true);
        StoreEntity(es[i]);
        i := i + 1;
      }
    }

    /**
     * `load`: the common services are loaded, then every task of every common
     * service is offered this manager's actions, then the entities are loaded.
     */
    method Load(files: seq<Option<Service>>, es: seq<Entity>)
      requires Valid()
      modifies this, common
      ensures Valid()
      ensures common.services == RebindCatalog(LoadedServices(old(common.services), files, common.registry.table), registry.table)
      ensures entities == LoadedEntities(old(entities), es, common.services, true)
    {
      common.LoadServices(files);
      var bound := BindCatalog(common.services, registry.table);
      common.services := bound;
      LoadEntities(es);
    }

    /** `get_workflows` */
    method GetWorkflows() returns (workflows: seq<(string, string)>)
      ensures workflows == WorkflowPairs(entities)
    {
      workflows := [];
      var i := 0;
      while i < |entities.keys|
        invariant 0 <= i <= |entities.keys|
        invariant workflows == PairsBefore(entities, i)
      {
        var e := entities.entries[entities.keys[i]];
        var j := 0;
        while j < |e.workflows.keys|
          invariant 0 <= j <= |e.workflows.keys|
          invariant workflows == PairsBefore(entities, i) + Pairs(e)[..j]
        {
          workflows := workflows + [(e.name, e.workflows.keys[j])];
          assert Pairs(e)[..j + 1] == Pairs(e)[..j] + [Pairs(e)[j]];
          j := j + 1;
        }
        assert Pairs(e)[..j] == Pairs(e);
        i := i + 1;
      }
    }

    /**
     * `run_workflow` as written: both calls pass `step_options` to the
     * entity's one-argument `run_workflow`, so whenever an entity is chosen
     * the call fails with a TypeError, whatever the options hold.
     */
    method RunWorkflowAsWritten(workflow: string, stepOptions: Option<Ctx>, entityName: Option<string>) returns (r: Result<Option<Ctx>>)
      requires Valid()
      ensures Target(entities, workflow, entityName).Some? ==>
        r == Err(TypeError(ArityError))
      ensures Target(entities, workflow, entityName).None? ==> r == Ok(None)
    {
      if entityName.Some? && entityName.value in entities.entries {
        return Err(TypeError(ArityError));
      }
      var pairs := GetWorkflows();
      var found := FindWorkflowEntity(pairs, workflow);
      if found.Some? {
        return Err(TypeError(ArityError));
      }
      r := Ok(None);
    }

    /** `run_workflow` as intended: the workflow runs on the chosen entity and its final context is returned. */
    method RunWorkflow(workflow: string, entityName: Option<string>, ghost ranks: string -> string -> nat) returns (r: Result<Option<Ctx>>)
      requires Valid() && AllRanked(entities, ranks)
      ensures r == RunWorkflowSpec(entities, workflow, entityName, ranks)
    {
      if entityName.Some? && entityName.value in entities.entries {
        var ctx := Entities.RunWorkflow(entities.entries[entityName.value], workflow, ranks(entityName.value));
        return Lift(ctx);
      }
      var pairs := GetWorkflows();
      var found := FindWorkflowEntity(pairs, workflow);
      if found.Some? {
        var n := found.value;
        assert Target(entities, workflow, entityName) == Some(n);
        var ctx := Entities.RunWorkflow(entities.entries[n], workflow, ranks(n));
        return Lift(ctx);
      }
      r := Ok(None);
    }
  }

  /**
   * The scan `run_workflow` makes over `get_workflows` when no entity is
   * named: the entity of the first pair naming the workflow.
   */
  method FindWorkflowEntity(pairs: seq<(string, string)>, workflow: string) returns (found: Option<string>)
    ensures found == FirstPairFor(pairs, workflow)
  {
    var i := 0;
    while i < |pairs|
      invariant 0 <= i <= |pairs|
      invariant FirstPairFor(pairs[i..], workflow) == FirstPairFor(pairs, workflow)
    {
      if pairs[i].1 == workflow {
        return Some(pairs[i].0);
      }
      assert pairs[i..][1..] == pairs[i + 1..];
      i := i + 1;
    }
    found := None;
  }

  /** The older entity manager of dizzy/entity.py: it copies common services but binds nothing. */
  class LegacyEntityManager {
    var entities: EntityTable
    const main: ServiceManager

    ghost predicate Valid()
      reads this
    {
      Named(entities)
    }

    constructor (serviceManager: ServiceManager?, serviceInfo: Action)
      ensures Valid() && entities.keys == []
      ensures serviceManager != null ==> main == serviceManager
      ensures serviceManager == null ==> fresh(main) && main.services.keys == []
    {
      entities := Empty();
      if serviceManager != null {
        main := serviceManager;
      } else {
        main := new ServiceManager(serviceInfo);
      }
    }

    /** `load_entities`: store each entity under its name and copy the main manager's services it lists. */
    method LoadEntities(es: seq<Entity>)
      requires Valid()
      modifies this
      ensures Valid()
      ensures entities == LoadedEntities(old(entities), es, main.services, false)
    {
      var i := 0;
      while i < |es|
        invariant 0 <= i <= |es|
        invariant Named(entities)
        invariant LoadedEntities(entities, es[i..], main.services, false) == LoadedEntities(old(entities), es, main.services, false)
      {
        var copied := CopyServices(es[i], main.services);
        LoadedStep(entities, es, i, main.services, false);
        NamedPut(entities, copied);
        entities := Put(entities, es[i].name, copied);
        i := i + 1;
      }
    }
  }
}
