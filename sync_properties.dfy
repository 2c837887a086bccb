/**
 * What one catalog synchronisation does to the tables: catalog entries become active rows
 * copied from the catalog (plans private unless already public), this broker's missing plans
 * and services are deleted or deactivated, the warning lists exactly the deactivated plans,
 * other brokers' rows are untouched, and referential integrity is kept.
 */
module SyncProperties {
  import opened Common
  import opened ServiceBrokers

  predicate DistinctServiceIds(css: seq<CatalogService>) {
    forall i, j :: 0 <= i < j < |css| ==> css[i].id != css[j].id
  }

  predicate DistinctPlanIds(ps: seq<ListedPlan>) {
    forall i, j :: 0 <= i < j < |ps| ==> ps[i].plan.id != ps[j].plan.id
  }

  /** Unique ids are unique within the catalog, for services and for plans. */
  predicate WellFormedCatalog(c: Catalog) {
    DistinctServiceIds(c.services) && DistinctPlanIds(CatalogPlans(c.services))
  }

  /** The services the listed plans are listed under. */
  function ListedServices(ps: seq<ListedPlan>): set<string> {
    set i | 0 <= i < |ps| :: ps[i].serviceId
  }

  /** The tables after the upsert phase of `Sync`. */
  function Upserted(t: Tables, c: Catalog): Tables {
    Tables(UpsertServiceRows(t.services, c.broker, c.services), UpsertPlans(t.plans, CatalogPlans(c.services)))
  }

  // ---------------------------------------------------------------------------
  // Id sets of sequences built element by element.

  lemma ServiceIdsSnoc(css: seq<CatalogService>)
    requires css != []
    ensures ServiceIds(css) == ServiceIds(css[..|css| - 1]) + {css[|css| - 1].id}
  {
    var init := css[..|css| - 1];
    forall id | id in ServiceIds(css) ensures id in ServiceIds(init) + {css[|css| - 1].id} {
      var i :| 0 <= i < |css| && css[i].id == id;
      if i < |css| - 1 {
        assert init[i] == css[i];
      }
    }
    forall id | id in ServiceIds(init) ensures id in ServiceIds(css) {
      var i :| 0 <= i < |init| && init[i].id == id;
      assert css[i] == init[i];
    }
  }

  lemma ListedAppend(a: seq<ListedPlan>, b: seq<ListedPlan>)
    ensures ListedIds(a + b) == ListedIds(a) + ListedIds(b)
    ensures ListedServices(a + b) == ListedServices(a) + ListedServices(b)
  {
    forall q | q in ListedIds(a + b) ensures q in ListedIds(a) + ListedIds(b) {
      var i :| 0 <= i < |a + b| && (a + b)[i].plan.id == q;
      if i < |a| {
        assert (a + b)[i] == a[i];
      } else {
        assert (a + b)[i] == b[i - |a|];
      }
    }
    forall q | q in ListedIds(a) ensures q in ListedIds(a + b) {
      var i :| 0 <= i < |a| && a[i].plan.id == q;
      assert (a + b)[i] == a[i];
    }
    forall q | q in ListedIds(b) ensures q in ListedIds(a + b) {
      var i :| 0 <= i < |b| && b[i].plan.id == q;
      assert (a + b)[|a| + i] == b[i];
    }
    forall s | s in ListedServices(a + b) ensures s in ListedServices(a) + ListedServices(b) {
      var i :| 0 <= i < |a + b| && (a + b)[i].serviceId == s;
      if i < |a| {
        assert (a + b)[i] == a[i];
      } else {
        assert (a + b)[i] == b[i - |a|];
      }
    }
    forall s | s in ListedServices(a) ensures s in ListedServices(a + b) {
      var i :| 0 <= i < |a| && a[i].serviceId == s;
      assert (a + b)[i] == a[i];
    }
    forall s | s in ListedServices(b) ensures s in ListedServices(a + b) {
      var i :| 0 <= i < |b| && b[i].serviceId == s;
      assert (a + b)[|a| + i] == b[i];
    }
  }

  lemma ListedSnoc(ps: seq<ListedPlan>)
    requires ps != []
    ensures ListedIds(ps) == ListedIds(ps[..|ps| - 1]) + {ps[|ps| - 1].plan.id}
    ensures ListedServices(ps) == ListedServices(ps[..|ps| - 1]) + {ps[|ps| - 1].serviceId}
  {
    var init := ps[..|ps| - 1];
    assert ps == init + [ps[|ps| - 1]];
    ListedAppend(init, [ps[|ps| - 1]]);
    assert ListedIds([ps[|ps| - 1]]) == {ps[|ps| - 1].plan.id};
    assert ListedServices([ps[|ps| - 1]]) == {ps[|ps| - 1].serviceId};
  }

  /** Every plan of every catalog service is listed, under that service. */
  lemma {:induction false} CatalogPlansListing(css: seq<CatalogService>)
    ensures forall i, j {:trigger css[i].plans[j]} :: 0 <= i < |css| && 0 <= j < |css[i].plans| ==>
              ListedPlan(css[i].id, css[i].plans[j]) in CatalogPlans(css)
    decreases |css|
  {
    if css != [] {
      var init := css[..|css| - 1];
      var last := css[|css| - 1];
      var front := CatalogPlans(init);
      assert CatalogPlans(css) == front + PlansOf(last);
      CatalogPlansListing(init);
      forall i, j | 0 <= i < |css| && 0 <= j < |css[i].plans|
        ensures ListedPlan(css[i].id, css[i].plans[j]) in front + PlansOf(last)
      {
        if i < |css| - 1 {
          assert init[i] == css[i];
          assert ListedPlan(init[i].id, init[i].plans[j]) in front;
        } else {
          assert (front + PlansOf(last))[|front| + j] == PlansOf(last)[j];
        }
      }
    }
  }

  /** Plans are listed only under catalog services. */
  lemma {:induction false} CatalogPlansServices(css: seq<CatalogService>)
    ensures ListedServices(CatalogPlans(css)) <= ServiceIds(css)
    decreases |css|
  {
    if css != [] {
      var init := css[..|css| - 1];
      var last := css[|css| - 1];
      assert CatalogPlans(css) == CatalogPlans(init) + PlansOf(last);
      CatalogPlansServices(init);
      ServiceIdsSnoc(css);
      ListedAppend(CatalogPlans(init), PlansOf(last));
      assert ListedServices(PlansOf(last)) <= {last.id};
    }
  }

  // ---------------------------------------------------------------------------
  // The upsert folds.

  /**
   * Upserting services: the keys gain exactly the catalog ids, other rows keep their values,
   * and every upserted row belongs to the broker.
   */
  lemma {:induction false} UpsertServiceRowsFrame(services: map<string, ServiceRow>, broker: BrokerId, css: seq<CatalogService>)
    ensures UpsertServiceRows(services, broker, css).Keys == services.Keys + ServiceIds(css)
    ensures forall id :: id in services && id !in ServiceIds(css) ==> UpsertServiceRows(services, broker, css)[id] == services[id]
    ensures forall id :: id in ServiceIds(css) ==> UpsertServiceRows(services, broker, css)[id].broker == broker
    decreases |css|
  {
    if css != [] {
      UpsertServiceRowsFrame(services, broker, css[..|css| - 1]);
      ServiceIdsSnoc(css);
    }
  }

  lemma DistinctServiceIdsInit(css: seq<CatalogService>)
    requires css != [] && DistinctServiceIds(css)
    ensures DistinctServiceIds(css[..|css| - 1])
    ensures forall i :: 0 <= i < |css| - 1 ==> css[i].id != css[|css| - 1].id
  {
    var init := css[..|css| - 1];
    forall i, j | 0 <= i < j < |init| ensures init[i].id != init[j].id {
      assert init[i] == css[i] && init[j] == css[j];
    }
  }

  /** With unique ids, each catalog service's row is the one built from it. */
  lemma {:induction false} UpsertServiceRowsValues(services: map<string, ServiceRow>, broker: BrokerId, css: seq<CatalogService>)
    requires DistinctServiceIds(css)
    ensures forall i :: 0 <= i < |css| ==>
              css[i].id in UpsertServiceRows(services, broker, css) &&
              UpsertServiceRows(services, broker, css)[css[i].id] == ServiceFrom(broker, css[i])
    decreases |css|
  {
    if css != [] {
      var init := css[..|css| - 1];
      var last := css[|css| - 1];
      var m := UpsertServiceRows(services, broker, init);
      assert UpsertServiceRows(services, broker, css) == m[last.id := ServiceFrom(broker, last)];
      DistinctServiceIdsInit(css);
      UpsertServiceRowsValues(services, broker, init);
      forall i | 0 <= i < |css| - 1
        ensures css[i].id in m[last.id := ServiceFrom(broker, last)] &&
                m[last.id := ServiceFrom(broker, last)][css[i].id] == ServiceFrom(broker, css[i])
      {
        assert init[i] == css[i];
      }
    }
  }

  /**
   * Upserting plans: the keys gain exactly the listed ids, other rows keep their values, and
   * every upserted row refers to a service it was listed under.
   */
  lemma {:induction false} UpsertPlansFrame(plans: map<string, PlanRow>, ps: seq<ListedPlan>)
    ensures UpsertPlans(plans, ps).Keys == plans.Keys + ListedIds(ps)
    ensures forall q :: q in plans && q !in ListedIds(ps) ==> UpsertPlans(plans, ps)[q] == plans[q]
    ensures forall q :: q in ListedIds(ps) ==> UpsertPlans(plans, ps)[q].service in ListedServices(ps)
    decreases |ps|
  {
    if ps != [] {
      UpsertPlansFrame(plans, ps[..|ps| - 1]);
      ListedSnoc(ps);
    }
  }

  /** Dropping the last of uniquely identified plans keeps them unique and frees the last id. */
  lemma DistinctPlanIdsInit(ps: seq<ListedPlan>)
    requires ps != [] && DistinctPlanIds(ps)
    ensures DistinctPlanIds(ps[..|ps| - 1])
    ensures ps[|ps| - 1].plan.id !in ListedIds(ps[..|ps| - 1])
  {
    var init := ps[..|ps| - 1];
    forall i, j | 0 <= i < j < |init| ensures init[i].plan.id != init[j].plan.id {
      assert init[i] == ps[i] && init[j] == ps[j];
    }
    forall k | 0 <= k < |init| ensures init[k].plan.id != ps[|ps| - 1].plan.id {
      assert init[k] == ps[k];
    }
  }

  /** With unique ids, each listed plan's row is the one built from it and the original table. */
  lemma {:induction false} UpsertPlansValues(plans: map<string, PlanRow>, ps: seq<ListedPlan>)
    requires DistinctPlanIds(ps)
    ensures forall i :: 0 <= i < |ps| ==>
              ps[i].plan.id in UpsertPlans(plans, ps) &&
              UpsertPlans(plans, ps)[ps[i].plan.id] == PlanFrom(ps[i].serviceId, ps[i].plan, plans)
    decreases |ps|
  {
    if ps != [] {
      var init := ps[..|ps| - 1];
      var last := ps[|ps| - 1];
      var m := UpsertPlans(plans, init);
      var row := PlanFrom(last.serviceId, last.plan, m);
      assert UpsertPlans(plans, ps) == m[last.plan.id := row];
      DistinctPlanIdsInit(ps);
      UpsertPlansValues(plans, init);
      UpsertPlansFrame(plans, init);
      assert row == PlanFrom(last.serviceId, last.plan, plans);
      forall i | 0 <= i < |ps| - 1
        ensures ps[i].plan.id in m[last.plan.id := row] &&
                m[last.plan.id := row][ps[i].plan.id] == PlanFrom(ps[i].serviceId, ps[i].plan, plans)
      {
        assert init[i] == ps[i];
      }
    }
  }

  // ---------------------------------------------------------------------------
  // The phases of one synchronisation.

  /** `Sync` on a catalog without clashes, as its three phases. */
  lemma SyncPhases(t: Tables, c: Catalog)
    requires !Conflicts(t, c)
    ensures var t1 := Upserted(t, c);
            var missing := MissingPlans(t1, c.broker, PlanIds(c.services));
            var plans2 := RetirePlans(t1.plans, missing);
            var names := DeactivatedPlanNames(t1, missing);
            && Sync(t, c).Success?
            && Sync(t, c).value.tables == Tables(RetireServices(t1.services, plans2, MissingServices(t1, c.broker, ServiceIds(c.services))), plans2)
            && Sync(t, c).value.warning == (if names == map[] then None else Some(DeactivatedPlans(names)))
  {
  }

  /** The upsert phase as a whole: both folds' frames, and catalog services owned by the broker. */
  lemma UpsertedFrame(t: Tables, c: Catalog)
    ensures var t1 := Upserted(t, c);
            && t1.services.Keys == t.services.Keys + ServiceIds(c.services)
            && t1.plans.Keys == t.plans.Keys + PlanIds(c.services)
            && (forall s :: s in t.services && s !in ServiceIds(c.services) ==> t1.services[s] == t.services[s])
            && (forall s :: s in ServiceIds(c.services) ==> t1.services[s].broker == c.broker)
            && (forall p :: p in t.plans && p !in PlanIds(c.services) ==> t1.plans[p] == t.plans[p])
            && (forall p :: p in PlanIds(c.services) ==> t1.plans[p].service in ServiceIds(c.services))
  {
    UpsertServiceRowsFrame(t.services, c.broker, c.services);
    UpsertPlansFrame(t.plans, CatalogPlans(c.services));
    CatalogPlansServices(c.services);
  }

  /** Without clashes, a catalog service that already has a row has a row of this broker. */
  lemma NoConflictOwnership(t: Tables, c: Catalog)
    requires !Conflicts(t, c)
    ensures forall s :: s in ServiceIds(c.services) && s in t.services ==> t.services[s].broker == c.broker
    ensures forall p :: p in PlanIds(c.services) && p in t.plans ==> OwnedBy(t, p, c.broker)
  {
    forall s | s in ServiceIds(c.services) && s in t.services ensures t.services[s].broker == c.broker {
      var i :| 0 <= i < |c.services| && c.services[i].id == s;
    }
  }

  /**
   * With referential integrity and no clashes, the upsert changes the owner of no plan the
   * catalog does not list, so the missing plans are this broker's unlisted plans of the
   * original tables.
   */
  lemma MissingPlansAfterUpsert(t: Tables, c: Catalog)
    requires WellFormed(t) && !Conflicts(t, c)
    ensures forall p :: p in t.plans && p !in PlanIds(c.services) ==>
              (OwnedBy(Upserted(t, c), p, c.broker) <==> OwnedBy(t, p, c.broker))
    ensures MissingPlans(Upserted(t, c), c.broker, PlanIds(c.services)) == MissingPlans(t, c.broker, PlanIds(c.services))
  {
    UpsertedFrame(t, c);
    NoConflictOwnership(t, c);
  }

  /** The missing services are this broker's unlisted services of the original tables. */
  lemma MissingServicesAfterUpsert(t: Tables, c: Catalog)
    ensures MissingServices(Upserted(t, c), c.broker, ServiceIds(c.services)) == MissingServices(t, c.broker, ServiceIds(c.services))
  {
    UpsertedFrame(t, c);
  }

  // ---------------------------------------------------------------------------
  // What one synchronisation promises.

  /** Each catalog service ends as an active row of this broker, copied from the catalog. */
  lemma SyncCatalogServices(t: Tables, c: Catalog)
    requires !Conflicts(t, c) && DistinctServiceIds(c.services)
    ensures Sync(t, c).Success?
    ensures forall i :: 0 <= i < |c.services| ==>
              c.services[i].id in Sync(t, c).value.tables.services &&
              Sync(t, c).value.tables.services[c.services[i].id] == ServiceFrom(c.broker, c.services[i])
  {
    SyncPhases(t, c);
    UpsertServiceRowsValues(t.services, c.broker, c.services);
    forall i | 0 <= i < |c.services| ensures c.services[i].id in ServiceIds(c.services) {
    }
  }

  /**
   * Each catalog plan ends as an active row under its catalog service, copied from the catalog;
   * it is public only when it already was, and keeps the instances it had (none when new).
   */
  lemma SyncCatalogPlans(t: Tables, c: Catalog)
    requires !Conflicts(t, c) && WellFormedCatalog(c)
    ensures Sync(t, c).Success?
    ensures forall i, j {:trigger c.services[i].plans[j]} :: 0 <= i < |c.services| && 0 <= j < |c.services[i].plans| ==>
              var cp := c.services[i].plans[j];
              && cp.id in Sync(t, c).value.tables.plans
              && Sync(t, c).value.tables.plans[cp.id] == PlanFrom(c.services[i].id, cp, t.plans)
              && (Sync(t, c).value.tables.plans[cp.id].public <==> cp.id in t.plans && t.plans[cp.id].public)
  {
    SyncPhases(t, c);
    var ps := CatalogPlans(c.services);
    CatalogPlansListing(c.services);
    UpsertPlansValues(t.plans, ps);
    forall i, j | 0 <= i < |c.services| && 0 <= j < |c.services[i].plans|
      ensures var cp := c.services[i].plans[j];
              cp.id in Sync(t, c).value.tables.plans &&
              Sync(t, c).value.tables.plans[cp.id] == PlanFrom(c.services[i].id, cp, t.plans)
    {
      var cp := c.services[i].plans[j];
      var k :| 0 <= k < |ps| && ps[k] == ListedPlan(c.services[i].id, cp);
      assert cp.id in PlanIds(c.services);
    }
  }

  /** No rows appear but the catalog's: every other key was already there. */
  lemma SyncCreatesOnlyCatalogRows(t: Tables, c: Catalog)
    requires !Conflicts(t, c)
    ensures Sync(t, c).Success?
    ensures Sync(t, c).value.tables.services.Keys <= t.services.Keys + ServiceIds(c.services)
    ensures Sync(t, c).value.tables.plans.Keys <= t.plans.Keys + PlanIds(c.services)
  {
    SyncPhases(t, c);
    UpsertedFrame(t, c);
  }

  /**
   * This broker's plans that the catalog no longer lists are deleted when they have no
   * instances and otherwise kept, deactivated; the warning is present exactly when some plan was
   * deactivated, and names exactly those plans, each with its own name.
   */
  lemma SyncRetiresMissingPlans(t: Tables, c: Catalog)
    requires WellFormed(t) && !Conflicts(t, c)
    ensures Sync(t, c).Success?
    ensures var res := Sync(t, c).value;
            var missing := MissingPlans(t, c.broker, PlanIds(c.services));
            && (forall p :: p in missing ==>
                  && (p in res.tables.plans <==> t.plans[p].instances > 0)
                  && (p in res.tables.plans ==> res.tables.plans[p] == t.plans[p].(active := false)))
            && (res.warning.Some? <==> exists p :: p in missing && t.plans[p].instances > 0)
            && (res.warning.Some? ==>
                  && (forall p :: p in res.warning.value.plans <==> p in missing && t.plans[p].instances > 0)
                  && (forall p :: p in res.warning.value.plans ==> res.warning.value.plans[p].1 == t.plans[p].name)
                  && (forall p :: p in res.warning.value.plans ==>
                        p in res.tables.plans && res.warning.value.plans[p].0 == LabelOfPlanService(res.tables, p)))
  {
    SyncPhases(t, c);
    MissingPlansAfterUpsert(t, c);
    UpsertedFrame(t, c);
    var t1 := Upserted(t, c);
    var missing := MissingPlans(t, c.broker, PlanIds(c.services));
    var names := DeactivatedPlanNames(t1, missing);
    if exists p :: p in missing && t.plans[p].instances > 0 {
      var p :| p in missing && t.plans[p].instances > 0;
      assert p in names;
    }
    var plans2 := RetirePlans(t1.plans, missing);
    var res := Sync(t, c).value;
    forall p | p in names
      ensures p in res.tables.plans && names[p].0 == LabelOfPlanService(res.tables, p)
    {
      var svc := t1.plans[p].service;
      assert plans2[p].service == svc;
      assert HasPlans(plans2, svc);
      assert res.tables.services[svc].serviceLabel == t1.services[svc].serviceLabel;
    }
  }

  /**
   * This broker's services that the catalog no longer lists are deleted, unless a plan the
   * catalog does not list either still has instances under them: then they are kept, deactivated.
   */
  lemma SyncRetiresMissingServices(t: Tables, c: Catalog)
    requires !Conflicts(t, c)
    ensures Sync(t, c).Success?
    ensures var res := Sync(t, c).value;
            forall s :: s in MissingServices(t, c.broker, ServiceIds(c.services)) ==>
              && (s in res.tables.services <==>
                    exists p :: p in t.plans && p !in PlanIds(c.services) && t.plans[p].service == s && t.plans[p].instances > 0)
              && (s in res.tables.services ==> res.tables.services[s] == t.services[s].(active := false))
  {
    SyncPhases(t, c);
    MissingServicesAfterUpsert(t, c);
    UpsertedFrame(t, c);
    var t1 := Upserted(t, c);
    var missing := MissingPlans(t1, c.broker, PlanIds(c.services));
    var plans2 := RetirePlans(t1.plans, missing);
    forall s | s in MissingServices(t, c.broker, ServiceIds(c.services))
      ensures HasPlans(plans2, s) <==>
                exists p :: p in t.plans && p !in PlanIds(c.services) && t.plans[p].service == s && t.plans[p].instances > 0
    {
      if HasPlans(plans2, s) {
        var q :| q in plans2 && plans2[q].service == s;
        assert q !in PlanIds(c.services);
        assert OwnedBy(t1, q, c.broker);
      }
      if exists p :: p in t.plans && p !in PlanIds(c.services) && t.plans[p].service == s && t.plans[p].instances > 0 {
        var p :| p in t.plans && p !in PlanIds(c.services) && t.plans[p].service == s && t.plans[p].instances > 0;
        assert OwnedBy(t1, p, c.broker);
        assert p in plans2 && plans2[p].service == s;
      }
    }
  }

  /** Rows of other brokers are neither changed nor deleted. */
  lemma SyncLeavesOtherBrokers(t: Tables, c: Catalog)
    requires WellFormed(t) && !Conflicts(t, c)
    ensures Sync(t, c).Success?
    ensures var res := Sync(t, c).value.tables;
            && (forall s :: s in t.services && t.services[s].broker != c.broker ==>
                  s in res.services && res.services[s] == t.services[s])
            && (forall p :: p in t.plans && !OwnedBy(t, p, c.broker) ==>
                  p in res.plans && res.plans[p] == t.plans[p])
  {
    SyncPhases(t, c);
    MissingPlansAfterUpsert(t, c);
    UpsertedFrame(t, c);
    NoConflictOwnership(t, c);
  }

  /** Every plan still refers to an existing service after a synchronisation. */
  lemma SyncPreservesWellFormed(t: Tables, c: Catalog)
    requires WellFormed(t) && !Conflicts(t, c)
    ensures Sync(t, c).Success?
    ensures WellFormed(Sync(t, c).value.tables)
  {
    SyncPhases(t, c);
    MissingPlansAfterUpsert(t, c);
    UpsertedFrame(t, c);
    var t1 := Upserted(t, c);
    var missing := MissingPlans(t1, c.broker, PlanIds(c.services));
    var plans2 := RetirePlans(t1.plans, missing);
    var missingServices := MissingServices(t1, c.broker, ServiceIds(c.services));
    forall p | p in plans2
      ensures plans2[p].service in RetireServices(t1.services, plans2, missingServices)
    {
      var s := plans2[p].service;
      assert s in t1.services;
      if s in missingServices {
        assert HasPlans(plans2, s);
      }
    }
  }
}
