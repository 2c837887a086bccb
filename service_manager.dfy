/**
 * Service-broker catalog synchronisation: reconcile the service and plan tables with one
 * broker's catalog. Catalog entries are created or updated in place (new plans private);
 * this broker's plans missing from the catalog are deleted, or deactivated while they still
 * have instances (and reported in a warning); this broker's services missing from the
 * catalog are deleted, or deactivated while a plan still refers to them. Rows of other
 * brokers are left alone. Tables are maps keyed by the broker-provided unique id.
 */
module ServiceBrokers {
  import opened Common

  type BrokerId = string

  datatype CatalogPlan = CatalogPlan(id: string, name: string, description: string, free: bool, metadata: Option<string>)

  datatype CatalogService = CatalogService(
    id: string,
    name: string,
    description: string,
    bindable: bool,
    tags: seq<string>,
    requirements: seq<string>,
    planUpdateable: bool,
    metadata: Option<string>,
    plans: seq<CatalogPlan>)

  datatype Catalog = Catalog(broker: BrokerId, services: seq<CatalogService>)

  /** A service row; `extra` is the catalog metadata as JSON text, nil when the catalog has none. */
  datatype ServiceRow = ServiceRow(
    broker: BrokerId,
    serviceLabel: string,
    description: string,
    bindable: bool,
    tags: seq<string>,
    extra: Option<string>,
    requirements: seq<string>,
    planUpdateable: bool,
    active: bool)

  /** A plan row; `service` is the unique id of its service, `instances` its service-instance count. */
  datatype PlanRow = PlanRow(
    service: string,
    name: string,
    description: string,
    free: bool,
    extra: Option<string>,
    public: bool,
    active: bool,
    instances: nat)

  datatype Tables = Tables(services: map<string, ServiceRow>, plans: map<string, PlanRow>)

  /** Every plan refers to a service that exists. */
  predicate WellFormed(t: Tables) {
    forall p :: p in t.plans ==> t.plans[p].service in t.services
  }

  // ---------------------------------------------------------------------------
  // Creating and updating from the catalog.

  function ServiceFrom(broker: BrokerId, cs: CatalogService): (row: ServiceRow)
    ensures row.broker == broker && row.serviceLabel == cs.name && row.description == cs.description
    ensures row.bindable == cs.bindable && row.tags == cs.tags && row.requirements == cs.requirements
    ensures row.planUpdateable == cs.planUpdateable && row.extra == cs.metadata && row.active
  {
    ServiceRow(broker, cs.name, cs.description, cs.bindable, cs.tags, cs.metadata, cs.requirements, cs.planUpdateable, true)
  }

  /** The row for catalog plan `cp` of service `serviceId`: a new plan is private with no instances. */
  function PlanFrom(serviceId: string, cp: CatalogPlan, plans: map<string, PlanRow>): (row: PlanRow)
    ensures row.service == serviceId && row.name == cp.name && row.description == cp.description
    ensures row.free == cp.free && row.extra == cp.metadata && row.active
    ensures row.public == (cp.id in plans && plans[cp.id].public)
    ensures row.instances == (if cp.id in plans then plans[cp.id].instances else 0)
  {
    var existing := if cp.id in plans then Some(plans[cp.id]) else None;
    PlanRow(serviceId, cp.name, cp.description, cp.free, cp.metadata,
            if existing.Some? then existing.value.public else false,
            true,
            if existing.Some? then existing.value.instances else 0)
  }

  /** Service rows after upserting the catalog services in order. */
  function UpsertServiceRows(services: map<string, ServiceRow>, broker: BrokerId, css: seq<CatalogService>): map<string, ServiceRow>
    decreases |css|
  {
    if css == [] then services
    else UpsertServiceRows(services, broker, css[..|css| - 1])[css[|css| - 1].id := ServiceFrom(broker, css[|css| - 1])]
  }

  /** A catalog plan paired with the unique id of the service it is listed under. */
  datatype ListedPlan = ListedPlan(serviceId: string, plan: CatalogPlan)

  function PlansOf(cs: CatalogService): (ps: seq<ListedPlan>)
    ensures |ps| == |cs.plans| && forall j :: 0 <= j < |ps| ==> ps[j] == ListedPlan(cs.id, cs.plans[j])
  {
    seq(|cs.plans|, j requires 0 <= j < |cs.plans| => ListedPlan(cs.id, cs.plans[j]))
  }

  /** Every plan of the catalog, service by service. */
  function CatalogPlans(css: seq<CatalogService>): seq<ListedPlan>
    decreases |css|
  {
    if css == [] then [] else CatalogPlans(css[..|css| - 1]) + PlansOf(css[|css| - 1])
  }

  /** Plan rows after upserting the listed plans in order. */
  function UpsertPlans(plans: map<string, PlanRow>, ps: seq<ListedPlan>): map<string, PlanRow>
    decreases |ps|
  {
    if ps == [] then plans
    else
      var m := UpsertPlans(plans, ps[..|ps| - 1]);
      var last := ps[|ps| - 1];
      m[last.plan.id := PlanFrom(last.serviceId, last.plan, m)]
  }

  function ServiceIds(css: seq<CatalogService>): set<string> {
    set i | 0 <= i < |css| :: css[i].id
  }

  function ListedIds(ps: seq<ListedPlan>): set<string> {
    set i | 0 <= i < |ps| :: ps[i].plan.id
  }

  function PlanIds(css: seq<CatalogService>): set<string> {
    ListedIds(CatalogPlans(css))
  }

  // ---------------------------------------------------------------------------
  // Retiring what the catalog no longer lists.

  /** Plan `p` belongs to a service of `broker`. */
  predicate OwnedBy(t: Tables, p: string, broker: BrokerId) {
    p in t.plans && t.plans[p].service in t.services && t.services[t.plans[p].service].broker == broker
  }

  function MissingPlans(t: Tables, broker: BrokerId, listed: set<string>): set<string> {
    set p | p in t.plans && OwnedBy(t, p, broker) && p !in listed
  }

  /** Missing plans without instances are deleted; those with instances are deactivated. */
  function RetirePlans(plans: map<string, PlanRow>, missing: set<string>): map<string, PlanRow> {
    map p | p in plans && (p !in missing || plans[p].instances > 0) ::
      if p in missing then plans[p].(active := false) else plans[p]
  }

  function LabelOfPlanService(t: Tables, p: string): string
    requires p in t.plans
  {
    if t.plans[p].service in t.services then t.services[t.plans[p].service].serviceLabel else ""
  }

  /** The warning's content: each deactivated plan with its service's label and its own name. */
  function DeactivatedPlanNames(t: Tables, missing: set<string>): map<string, (string, string)> {
    map p | p in missing && p in t.plans && t.plans[p].instances > 0 :: (LabelOfPlanService(t, p), t.plans[p].name)
  }

  function MissingServices(t: Tables, broker: BrokerId, listed: set<string>): set<string> {
    set s | s in t.services && t.services[s].broker == broker && s !in listed
  }

  predicate HasPlans(plans: map<string, PlanRow>, s: string) {
    exists p :: p in plans && plans[p].service == s
  }

  /** Missing services that some plan still refers to are deactivated; the others are deleted. */
  function RetireServices(services: map<string, ServiceRow>, plans: map<string, PlanRow>, missing: set<string>): map<string, ServiceRow> {
    map s | s in services && (s !in missing || HasPlans(plans, s)) ::
      if s in missing then services[s].(active := false) else services[s]
  }

  // ---------------------------------------------------------------------------
  // The whole synchronisation.

  /** A catalog id that is already a row of another broker (a unique-id clash the database rejects). */
  predicate Conflicts(t: Tables, c: Catalog) {
    (exists i :: 0 <= i < |c.services| && c.services[i].id in t.services && t.services[c.services[i].id].broker != c.broker) ||
    (exists p :: p in PlanIds(c.services) && p in t.plans && !OwnedBy(t, p, c.broker))
  }

  datatype SyncError = ValidationFailed

  /** The deactivated-plans warning, naming each deactivated plan and its service. */
  datatype Warning = DeactivatedPlans(plans: map<string, (string, string)>)

  datatype Synced = Synced(tables: Tables, warning: Option<Warning>)

  /**
   * One synchronisation of a broker's catalog against the tables: refused with a validation
   * failure, changing nothing, when the catalog collides with another broker's rows; otherwise
   * upsert, retire what the catalog no longer lists, and warn about the plans kept deactivated.
   */
  function Sync(t: Tables, c: Catalog): (r: Result<Synced, SyncError>)
    ensures r.Failure? <==> Conflicts(t, c)
    ensures r.Success? && r.value.warning.Some? ==> r.value.warning.value.plans != map[]
  {
    if Conflicts(t, c) then Failure(ValidationFailed)
    else
      var t1 := Tables(UpsertServiceRows(t.services, c.broker, c.services), UpsertPlans(t.plans, CatalogPlans(c.services)));
      var missingPlans := MissingPlans(t1, c.broker, PlanIds(c.services));
      var names := DeactivatedPlanNames(t1, missingPlans);
      var plans2 := RetirePlans(t1.plans, missingPlans);
      var services3 := RetireServices(t1.services, plans2, MissingServices(t1, c.broker, ServiceIds(c.services)));
      Success(Synced(Tables(services3, plans2), if names == map[] then None else Some(DeactivatedPlans(names))))
  }

  // ---------------------------------------------------------------------------
  // One retirement at a time (for the loops of the in-place synchronisation).

  lemma RetirePlansStep(plans: map<string, PlanRow>, done: set<string>, p: string)
    requires p in plans && p !in done
    ensures p in RetirePlans(plans, done) && RetirePlans(plans, done)[p] == plans[p]
    ensures RetirePlans(plans, done + {p}) ==
              if plans[p].instances > 0 then RetirePlans(plans, done)[p := plans[p].(active := false)]
              else RetirePlans(plans, done) - {p}
  {
  }

  lemma DeactivatedPlanNamesStep(t: Tables, done: set<string>, p: string)
    requires p in t.plans && p !in done
    ensures DeactivatedPlanNames(t, done + {p}) ==
              if t.plans[p].instances > 0 then DeactivatedPlanNames(t, done)[p := (LabelOfPlanService(t, p), t.plans[p].name)]
              else DeactivatedPlanNames(t, done)
  {
  }

  lemma RetireServicesStep(services: map<string, ServiceRow>, plans: map<string, PlanRow>, done: set<string>, s: string)
    requires s in services && s !in done
    ensures s in RetireServices(services, plans, done) && RetireServices(services, plans, done)[s] == services[s]
    ensures RetireServices(services, plans, done + {s}) ==
              if HasPlans(plans, s) then RetireServices(services, plans, done)[s := services[s].(active := false)]
              else RetireServices(services, plans, done) - {s}
  {
  }

  // ---------------------------------------------------------------------------
  // The tables and the manager, updated in place.

  /** Upserting two runs of plans one after the other is upserting their concatenation. */
  lemma {:induction false} UpsertPlansAppend(plans: map<string, PlanRow>, a: seq<ListedPlan>, b: seq<ListedPlan>)
    ensures UpsertPlans(plans, a + b) == UpsertPlans(UpsertPlans(plans, a), b)
    decreases |b|
  {
    if b == [] {
      assert a + b == a;
    } else {
      assert (a + b)[..|a + b| - 1] == a + b[..|b| - 1];
      assert (a + b)[|a + b| - 1] == b[|b| - 1];
      UpsertPlansAppend(plans, a, b[..|b| - 1]);
    }
  }

  class Database {
    var services: map<string, ServiceRow>
    var plans: map<string, PlanRow>

    constructor (t: Tables)
      ensures Snapshot() == t
    {
      services := t.services;
      plans := t.plans;
    }

    function Snapshot(): Tables
      reads this
    {
      Tables(services, plans)
    }

    /** Create or update the row of catalog service `cs` for `broker`. */
    method UpsertService(broker: BrokerId, cs: CatalogService)
      modifies this
      ensures services == old(services)[cs.id := ServiceFrom(broker, cs)] && plans == old(plans)
    {
      services := services[cs.id := ServiceFrom(broker, cs)];
    }

    /** Create or update the rows of `cs`'s plans, in catalog order. */
    method UpsertPlansOf(cs: CatalogService)
      modifies this
      ensures plans == UpsertPlans(old(plans), PlansOf(cs)) && services == old(services)
    {
      var ps := PlansOf(cs);
      for j := 0 to |cs.plans|
        invariant plans == UpsertPlans(old(plans), ps[..j])
        invariant services == old(services)
      {
        assert ps[..j + 1][..j] == ps[..j];
        assert ps[..j + 1][j] == ListedPlan(cs.id, cs.plans[j]);
        plans := plans[cs.plans[j].id := PlanFrom(cs.id, cs.plans[j], plans)];
      }
      assert ps[..|cs.plans|] == ps;
    }

    /** Upsert every catalog service, each followed by its plans. */
    method UpsertCatalog(broker: BrokerId, css: seq<CatalogService>)
      modifies this
      ensures services == UpsertServiceRows(old(services), broker, css)
      ensures plans == UpsertPlans(old(plans), CatalogPlans(css))
    {
      var services0, plans0 := services, plans;
      for i := 0 to |css|
        invariant services == UpsertServiceRows(services0, broker, css[..i])
        invariant plans == UpsertPlans(plans0, CatalogPlans(css[..i]))
      {
        var done, cs := css[..i], css[i];
        assert css[..i + 1][..i] == done && css[..i + 1][i] == cs;
        assert UpsertServiceRows(services0, broker, css[..i + 1]) ==
               UpsertServiceRows(services0, broker, done)[cs.id := ServiceFrom(broker, cs)];
        assert CatalogPlans(css[..i + 1]) == CatalogPlans(done) + PlansOf(cs);
        UpsertPlansAppend(plans0, CatalogPlans(done), PlansOf(cs));
        UpsertService(broker, cs);
        UpsertPlansOf(cs);
      }
      assert css[..|css|] == css;
    }

    /**
     * Delete each of the `missing` plans that has no instances and deactivate the others;
     * return the deactivated ones with their service's label and their name.
     */
    method RetireMissingPlans(missing: set<string>) returns (names: map<string, (string, string)>)
      requires missing <= plans.Keys
      modifies this
      ensures plans == RetirePlans(old(plans), missing) && services == old(services)
      ensures names == DeactivatedPlanNames(old(Snapshot()), missing)
    {
      var t := Snapshot();
      names := map[];
      var todo := missing;
      assert RetirePlans(t.plans, {}) == t.plans;
      assert DeactivatedPlanNames(t, {}) == map[];
      assert missing - todo == {};
      while todo != {}
        invariant todo <= missing
        invariant services == t.services
        invariant plans == RetirePlans(t.plans, missing - todo)
        invariant names == DeactivatedPlanNames(t, missing - todo)
        decreases todo
      {
        var p :| p in todo;
        RetirePlansStep(t.plans, missing - todo, p);
        DeactivatedPlanNamesStep(t, missing - todo, p);
        assert missing - (todo - {p}) == (missing - todo) + {p};
        var row := plans[p];
        if row.instances > 0 {
          plans := plans[p := row.(active := false)];
          names := names[p := (LabelOfPlanService(t, p), row.name)];
        } else {
          plans := plans - {p};
        }
        todo := todo - {p};
      }
      assert missing - todo == missing;
    }

    /** Deactivate each of the `missing` services that a plan still refers to and delete the others. */
    method RetireMissingServices(missing: set<string>)
      requires missing <= services.Keys
      modifies this
      ensures services == RetireServices(old(services), plans, missing) && plans == old(plans)
    {
      var t := Snapshot();
      var todo := missing;
      assert RetireServices(t.services, t.plans, {}) == t.services;
      assert missing - todo == {};
      while todo != {}
        invariant todo <= missing
        invariant plans == t.plans
        invariant services == RetireServices(t.services, t.plans, missing - todo)
        decreases todo
      {
        var s :| s in todo;
        RetireServicesStep(t.services, t.plans, missing - todo, s);
        assert missing - (todo - {s}) == (missing - todo) + {s};
        var row := services[s];
        if HasPlans(plans, s) {
          services := services[s := row.(active := false)];
        } else {
          services := services - {s};
        }
        todo := todo - {s};
      }
      assert missing - todo == missing;
    }
  }

  class ServiceManager {
    const catalog: Catalog
    var warnings: seq<Warning>

    constructor (catalog: Catalog)
      ensures this.catalog == catalog && warnings == []
    {
      this.catalog := catalog;
      warnings := [];
    }

    function HasWarnings(): (b: bool)
      reads this
      ensures b <==> warnings != []
    {
      |warnings| > 0
    }

    /**
     * `sync_services_and_plans`: refuse a catalog whose ids clash with another broker's rows;
     * otherwise upsert every catalog service and its plans, then retire this broker's plans and
     * services that the catalog no longer lists, and record the deactivated-plans warning when
     * some plan could only be deactivated.
     */
    method SyncServicesAndPlans(db: Database) returns (err: Option<SyncError>)
      modifies this, db
      ensures match Sync(old(db.Snapshot()), catalog)
              case Failure(e) => err == Some(e) && unchanged(this, db)
              case Success(res) =>
                err == None && db.Snapshot() == res.tables &&
                warnings == old(warnings) + (if res.warning.Some? then [res.warning.value] else [])
    {
      if Conflicts(db.Snapshot(), catalog) {
        return Some(ValidationFailed);
      }
      db.UpsertCatalog(catalog.broker, catalog.services);
      var t1 := db.Snapshot();
      var names := db.RetireMissingPlans(MissingPlans(t1, catalog.broker, PlanIds(catalog.services)));
      db.RetireMissingServices(MissingServices(t1, catalog.broker, ServiceIds(catalog.services)));
      if names != map[] {
        warnings := warnings + [DeactivatedPlans(names)];
      }
      err := None;
    }
  }
}
