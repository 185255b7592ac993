/** The synchronisation tasks of sync/tasks.py. Each task loads an entity
    from one CRM, finds (or starts) its counterpart in the other, copies the
    mapped fields over with `update_field`, saves only when something
    changed, and links the two records through their id fields.

    The two CRMs are one store of records by kind and id, with the next
    fresh id; the searches the entities run (by name, by a filter, by a
    Marketo field) are given by the world, as are the adapters' environment
    and the field lists of each kind. */
module Tasks {
  import opened Values
  import opened Registry
  import opened Mappings
  import opened Engine
  import H = MarketoHelpers

  const PIPELINE_FILTER_NAME := "NX Subscription (New and Upsell)"

  datatype Kind = Lead | Company | Opportunity | Role | Person | Organization | Deal | Pipeline | Activity

  predicate InPipedrive(k: Kind)
  {
    k.Person? || k.Organization? || k.Deal? || k.Pipeline? || k.Activity?
  }

  datatype Key = Key(kind: Kind, id: int)

  /** Both CRMs: the stored records, and the id the next created record gets. */
  datatype Db = Db(store: map<Key, Record>, next: int)

  /** Every stored id was handed out before `next`. */
  predicate Valid(db: Db)
  {
    forall key :: key in db.store ==> key.id < db.next
  }

  /** What the sync tasks cannot see of the CRMs: the adapters' environment, the
      fields each kind is initialised with, the answers of the searches, and
      the ACTIVITY_TO_LEAD table the activity task reads. */
  datatype World = World(env: Env, schema: Kind -> seq<string>,
                         locate: (Kind, string, Value) -> Option<int>, activityTable: Table)

  /** A fresh entity: every field of its kind set to None, and no id. */
  function Blank(w: World, k: Kind): (r: Record)
    ensures "id" in r && forall f :: f in r ==> r[f] == Null
    ensures forall f :: f in w.schema(k) ==> f in r
  {
    (map f | f in w.schema(k) :: Null)["id" := Null]
  }

  /** A Pipedrive record that has not been deleted (`active_flag` absent or true). */
  predicate Active(r: Record)
  {
    "active_flag" !in r || Truthy(r["active_flag"])
  }

  /** The id `Kind(client, v, field)` looks for: nothing for a falsy `v`
      (`if id_:`), the value itself read as an integer for the field `id`,
      and the answer of the CRM's search otherwise. */
  function Locate(w: World, k: Kind, field: string, v: Value): (r: Option<int>)
    ensures !Truthy(v) ==> r.None?
    ensures Truthy(v) && field == "id" ==> (r.Some? <==> PyInt(v).Converted?)
  {
    if !Truthy(v) then None
    else if field == "id" then (if PyInt(v).Converted? then Some(PyInt(v).n) else None)
    else w.locate(k, field, v)
  }

  /** Whether the record found for an id is loaded: Pipedrive does not load
      a deleted one. */
  predicate Loadable(db: Db, k: Kind, i: int)
  {
    Key(k, i) in db.store && (InPipedrive(k) ==> Active(db.store[Key(k, i)]))
  }

  /** `Kind(client, v, field)`: the fresh entity, overwritten by the stored
      record and its id when one is found and loadable. */
  function Open(db: Db, w: World, k: Kind, field: string, v: Value): (r: Record)
    ensures "id" in r
    ensures r["id"] == Null <==> !(Locate(w, k, field, v).Some? && Loadable(db, k, Locate(w, k, field, v).value))
    ensures r["id"] == Null ==> r == Blank(w, k)
    ensures r["id"] != Null ==>
              var i := Locate(w, k, field, v).value;
              r["id"] == Int(i) && forall f :: f in db.store[Key(k, i)] && f != "id" ==> f in r && r[f] == db.store[Key(k, i)][f]
  {
    var i := Locate(w, k, field, v);
    if i.Some? && Loadable(db, k, i.value) then Blank(w, k) + db.store[Key(k, i.value)] + map["id" := Int(i.value)]
    else Blank(w, k)
  }

  /** `save()`: a record whose id is stored is updated (stored fields it does
      not carry are kept); any other is created under the next fresh id. */
  function Save(db: Db, k: Kind, e: Record): (r: (Db, int))
    ensures Key(k, r.1) in r.0.store
    ensures forall f :: f in e && f != "id" ==> f in r.0.store[Key(k, r.1)] && r.0.store[Key(k, r.1)][f] == e[f]
    ensures "id" in r.0.store[Key(k, r.1)] && r.0.store[Key(k, r.1)]["id"] == Int(r.1)
    ensures forall key :: key != Key(k, r.1) ==> (key in r.0.store <==> key in db.store)
    ensures forall key :: key != Key(k, r.1) && key in db.store ==> r.0.store[key] == db.store[key]
    ensures Valid(db) ==> Valid(r.0)
  {
    if "id" in e && e["id"].Int? && Key(k, e["id"].i) in db.store then
      var i := e["id"].i;
      (Db(db.store[Key(k, i) := db.store[Key(k, i)] + e], db.next), i)
    else
      (Db(db.store[Key(k, db.next) := e["id" := Int(db.next)]], db.next + 1), db.next)
  }

  /** A record with no id is created: it gets `next`, which no stored record has. */
  lemma SaveCreates(db: Db, k: Kind, e: Record)
    requires Valid(db) && Get(e, "id") == Null
    ensures Save(db, k, e).1 == db.next && Key(k, db.next) !in db.store
    ensures Save(db, k, e).0.next == db.next + 1
  {
  }

  /** Saving a record of one kind leaves every record of another kind as it was. */
  lemma SaveKeepsOtherKinds(db: Db, k: Kind, e: Record, key: Key)
    requires key in db.store && key.kind != k
    ensures key in Save(db, k, e).0.store && Save(db, k, e).0.store[key] == db.store[key]
  {
  }

  /** A record whose id is stored is updated in place: no id is handed out. */
  lemma SaveUpdates(db: Db, k: Kind, e: Record, i: int)
    requires Get(e, "id") == Int(i) && Key(k, i) in db.store
    ensures Save(db, k, e).1 == i && Save(db, k, e).0.next == db.next
    ensures Save(db, k, e).0.store.Keys == db.store.Keys
  {
  }

  // ---------------------------------------------------------------------
  // What a task returns

  datatype Status = Created | Updated | Skipped

  datatype Ret =
    | Synced(status: Status, id: Value)
    | CompanySynced(status: Status, id: Value, externalId: Value)
    | OpportunitySynced(status: Status, id: Value, role: Option<Value>)
    | NotEnabled(message: string)
    | Deleted(id: Value)
    | ReadyForDeletion(id: Value)
    | Error(message: string)
    | Crashed(exc: Exception)

  /** `'created'` for an entity that was not found, `'updated'` otherwise. */
  function StatusOf(found: Record): Status
  {
    if Get(found, "id") == Null then Created else Updated
  }

  /** `not x or x != id` (the person task's test for the lead's link). */
  predicate LinkStale(back: Value, id: int)
  {
    !Truthy(back) || !PyEq(back, Int(id))
  }

  /** `not x or int(x) != id`: whether the link must be written, or the
      exception `int()` raises. */
  function IntLinkStale(back: Value, id: int): (r: Outcome<bool>)
    ensures r == Ok(false) <==> Truthy(back) && PyInt(back) == Converted(id)
    ensures r.Raised? <==> Truthy(back) && !PyInt(back).Converted?
  {
    if !Truthy(back) then Ok(true)
    else match PyInt(back)
      case Converted(n) => Ok(n != id)
      case NotALiteral => Raised(ValueError)
      case WrongType => Raised(TypeError)
  }

  // ---------------------------------------------------------------------
  // The sync tasks

  /** `create_or_update_person_in_pipedrive(lead_id)`. */
  function PersonTask(db: Db, w: World, leadId: Value): (Db, Ret)
  {
    var lead := Open(db, w, Lead, "id", leadId);
    if lead["id"] == Null then (db, Error("No lead found in Marketo with id=" + Show(leadId)))
    else
      var person := Open(db, w, Person, "id", Get(lead, "pipedriveId"));
      var (person1, changed) := ApplyAll(lead, person, PersonToLead(), w.env);
      if !changed then (db, Synced(Skipped, person["id"]))
      else
        var (db1, pid) := Save(db, Person, person1);
        var db2 := if LinkStale(Get(lead, "pipedriveId"), pid)
                   then Save(db1, Lead, lead["pipedriveId" := Int(pid)]).0 else db1;
        (db2, Synced(StatusOf(person), Int(pid)))
  }

  /** `delete_person_in_pipedrive(lead_pipedrive_id)`: Pipedrive keeps a
      deleted person, with `active_flag` false. */
  function DeletePersonTask(db: Db, w: World, personId: Value): (Db, Ret)
  {
    var i := Locate(w, Person, "id", personId);
    if i.Some? && Key(Person, i.value) in db.store then
      var key := Key(Person, i.value);
      (Db(db.store[key := db.store[key]["active_flag" := Bool(false)]], db.next), Deleted(Int(i.value)))
    else (db, Error("Could not delete person in Pipedrive with id=" + Show(personId)))
  }

  /** The organization a company is synchronised to: by Marketo id, then by
      name, then by email domain. */
  function FindOrganization(db: Db, w: World, company: Record): Record
  {
    var byId := Open(db, w, Organization, "marketoid", Get(company, "id"));
    if byId["id"] != Null then byId
    else
      var byName := Open(db, w, Organization, "name", Get(company, "company"));
      if byName["id"] != Null then byName else Open(db, w, Organization, "email_domain", Get(company, "website"))
  }

  /** `create_or_update_organization_in_pipedrive(company_external_id)`. */
  function OrganizationTask(db: Db, w: World, externalId: Value): (Db, Ret)
  {
    var company := Open(db, w, Company, "externalCompanyId", externalId);
    if company["id"] == Null then (db, Error("No company found in Marketo with external_id=" + Show(externalId)))
    else
      var org := FindOrganization(db, w, company);
      var (org1, changed) := ApplyAll(company, org, OrganizationToCompany(), w.env);
      if !changed then (db, Synced(Skipped, org["id"]))
      else
        var (db1, oid) := Save(db, Organization, org1);
        (db1, Synced(StatusOf(org), Int(oid)))
  }

  /** `create_or_update_lead_in_marketo(person_id)`. */
  function LeadTask(db: Db, w: World, personId: Value): (Db, Ret)
  {
    var person := Open(db, w, Person, "id", personId);
    if person["id"] == Null then (db, Error("No person found with id " + Show(personId)))
    else
      var lead := Open(db, w, Lead, "id", Get(person, "marketoid"));
      var (lead1, changed) := ApplyAll(person, lead, LeadToPerson(), w.env);
      if !changed then (db, Synced(Skipped, lead["id"]))
      else
        var (db1, lid) := Save(db, Lead, lead1);
        match IntLinkStale(Get(person, "marketoid"), lid)
        case Ok(stale) =>
          var db2 := if stale then Save(db1, Person, person["marketoid" := Int(lid)]).0 else db1;
          (db2, Synced(StatusOf(lead), Int(lid)))
        case Raised(e) => (db1, Crashed(e))
  }

  /** The external id of the company an organization creates. */
  function OrganizationExternalId(org: Record): string
  {
    H.ComputeExternalId("organization", Get(org, "id"), H.DEFAULT_PREFIX)
  }

  /** The company an organization is synchronised to: by Marketo id, then by
      computed external id, then by name. */
  function FindCompany(db: Db, w: World, org: Record): Record
  {
    var byId := Open(db, w, Company, "id", Get(org, "marketoid"));
    if byId["id"] != Null then byId
    else
      var byExternalId := Open(db, w, Company, "externalCompanyId", Str(OrganizationExternalId(org)));
      if byExternalId["id"] != Null then byExternalId else Open(db, w, Company, "company", Get(org, "name"))
  }

  /** `create_or_update_company_in_marketo(organization_id)`; `keepNewFlag`
      says whether the flag a new company sets survives the mapping loop. */
  function CompanyTaskWith(db: Db, w: World, orgId: Value, keepNewFlag: bool): (Db, Ret)
  {
    var org := Open(db, w, Organization, "id", orgId);
    if org["id"] == Null then (db, Error("No organization found with id " + Show(orgId)))
    else
      var found := FindCompany(db, w, org);
      var company := if found["id"] == Null then found["externalCompanyId" := Str(OrganizationExternalId(org))] else found;
      var (company1, changed) := ApplyAll(org, company, CompanyToOrganization(), w.env);
      if !(changed || (keepNewFlag && found["id"] == Null)) then
        (db, CompanySynced(Skipped, found["id"], Get(company, "externalCompanyId")))
      else CompanySaved(db, org, found, company1)
  }

  /** The end of the company task, once the company changed: it is saved,
      then the organization is linked to it when its link is stale. The
      company stays as saved, and the task reports it unless reading the
      link raised. */
  function CompanySaved(db: Db, org: Record, found: Record, company: Record): (r: (Db, Ret))
    ensures var (db1, cid) := Save(db, Company, company);
            && Key(Company, cid) in r.0.store && r.0.store[Key(Company, cid)] == db1.store[Key(Company, cid)]
            && (r.1.CompanySynced? <==> IntLinkStale(Get(org, "marketoid"), cid).Ok?)
            && (r.1.CompanySynced? ==> r.1 == CompanySynced(StatusOf(found), Int(cid), Get(company, "externalCompanyId")))
            && (!r.1.CompanySynced? ==> r.1.Crashed? && r.0 == db1)
  {
    var (db1, cid) := Save(db, Company, company);
    var ret := CompanySynced(StatusOf(found), Int(cid), Get(company, "externalCompanyId"));
    match IntLinkStale(Get(org, "marketoid"), cid)
    case Ok(stale) =>
      SaveKeepsOtherKinds(db1, Organization, org["marketoid" := Int(cid)], Key(Company, cid));
      (if stale then Save(db1, Organization, org["marketoid" := Int(cid)]).0 else db1, ret)
    case Raised(e) => (db1, Crashed(e))
  }

  /** The company task as sync/tasks.py writes it: the flag set for a new
      company is reset before the mapping loop. */
  function CompanyTaskAsWritten(db: Db, w: World, orgId: Value): (Db, Ret)
  {
    CompanyTaskWith(db, w, orgId, false)
  }

  /** The company task as intended (and as sync/functions.py writes it): a
      company that was not found is always created. */
  function CompanyTask(db: Db, w: World, orgId: Value): (Db, Ret)
  {
    CompanyTaskWith(db, w, orgId, true)
  }

  /** `delete_lead_in_marketo(pipedrive_marketo_id)`: the lead is only
      marked, Marketo deletes it later. */
  function DeleteLeadTask(db: Db, w: World, leadId: Value): (Db, Ret)
  {
    var lead := Open(db, w, Lead, "id", leadId);
    if lead["id"] == Null then (db, Error("No lead found with id=" + Show(leadId)))
    else
      var (db1, lid) := Save(db, Lead, lead["toDelete" := Bool(true)]);
      (db1, ReadyForDeletion(Int(lid)))
  }

  /** The role of the deal's contact in the opportunity: its lead is the
      contact's Marketo id, its role the champion's title or "Default Role",
      and it is primary exactly when the champion is the contact. */
  function RoleOf(db: Db, w: World, deal: Record, opportunity: Record, contact: Record): (r: Record)
    ensures "id" in r && r["id"] == Null
    ensures "leadId" in r && r["leadId"] == Get(contact, "marketoid")
    ensures "externalOpportunityId" in r && r["externalOpportunityId"] == Get(opportunity, "externalOpportunityId")
    ensures "role" in r && Truthy(r["role"])
    ensures var champion := Open(db, w, Person, "id", Get(deal, "champion"));
            Get(deal, "champion") != Null && Truthy(Get(champion, "title")) ==> r["role"] == Get(champion, "title")
    ensures "isPrimary" in r
    ensures r["isPrimary"] == Null <==> Get(deal, "champion") == Null
    ensures var champion := Open(db, w, Person, "id", Get(deal, "champion"));
            r["isPrimary"] == Bool(true) <==>
              Get(deal, "champion") != Null && PyEq(Get(champion, "marketoid"), Get(contact, "marketoid"))
  {
    var leadId := Get(contact, "marketoid");
    var hasChampion := Get(deal, "champion") != Null;
    var champion := Open(db, w, Person, "id", Get(deal, "champion"));
    var title := Get(champion, "title");
    Blank(w, Role)["externalOpportunityId" := Get(opportunity, "externalOpportunityId")]
                  ["leadId" := leadId]
                  ["role" := if hasChampion && Truthy(title) then title else Str("Default Role")]
                  ["isPrimary" := if hasChampion then Bool(PyEq(Get(champion, "marketoid"), leadId)) else Null]
  }

  /** The opportunity of a deal, once the pipeline filter is passed: the
      database after it is saved (if it changed), its status, its id and
      the opportunity itself. */
  function UpsertOpportunity(db: Db, w: World, deal: Record): (Db, Status, Value, Record)
  {
    var ext := H.ComputeExternalId("deal", Get(deal, "id"), H.DEFAULT_PREFIX);
    var found := Open(db, w, Opportunity, "externalOpportunityId", Str(ext));
    var opportunity := if found["id"] == Null then found["externalOpportunityId" := Str(ext)] else found;
    var (opportunity1, changed) := ApplyAll(deal, opportunity, DealToOpportunity(), w.env);
    if changed then
      var (db1, oid) := Save(db, Opportunity, opportunity1);
      (db1, StatusOf(found), Int(oid), opportunity1)
    else (db, Skipped, found["id"], opportunity1)
  }

  /** `create_or_update_opportunity_in_marketo(deal_id)`. */
  function OpportunityTask(db: Db, w: World, dealId: Value): (Db, Ret)
  {
    var deal := Open(db, w, Deal, "id", dealId);
    if deal["id"] == Null then (db, Error("No deal found in Pipedrive with id=" + Show(dealId)))
    else
      var pipeline := Open(db, w, Pipeline, "id", Get(deal, "pipeline_id"));
      if !PyEq(Get(pipeline, "name"), Str(PIPELINE_FILTER_NAME)) then
        (db, NotEnabled("Deal synchronization with id=" + Show(dealId) + " not enabled for pipeline="
                        + Show(Get(pipeline, "name"))))
      else
        var (db1, status, oid, opportunity) := UpsertOpportunity(db, w, deal);
        var contact := Open(db1, w, Person, "id", Get(deal, "contact_person"));
        if Get(deal, "contact_person") != Null && Truthy(Get(contact, "marketoid")) then
          var (db2, rid) := Save(db1, Role, RoleOf(db1, w, deal, opportunity, contact));
          (db2, OpportunitySynced(status, oid, Some(Int(rid))))
        else (db1, OpportunitySynced(status, oid, None))
  }

  /** Whether the activity task runs for a lead: it has an owner and is
      linked to a person. */
  predicate ActivityEnabled(lead: Record)
  {
    Truthy(Get(lead, "conversicaLeadOwnerFirstName")) && Truthy(Get(lead, "conversicaLeadOwnerLastName"))
    && Truthy(Get(lead, "pipedriveId"))
  }

  /** `create_activity_in_pipedrive(lead_id)`. */
  function ActivityTask(db: Db, w: World, leadId: Value): (Db, Ret)
  {
    var lead := Open(db, w, Lead, "id", leadId);
    if lead["id"] == Null then (db, Error("No lead found in Marketo with id=" + Show(leadId)))
    else if ActivityEnabled(lead) then
      var activity := ApplyAll(lead, Blank(w, Activity), w.activityTable, w.env).0;
      var (db1, aid) := Save(db, Activity, activity);
      (db1, Synced(Created, Int(aid)))
    else (db, NotEnabled("Activity synchronization for lead with id=" + Show(leadId) + " not enabled when no owner"))
  }

  // ---------------------------------------------------------------------
  // Properties of the sync tasks

  /** The person task fails exactly when the lead is not found, is skipped
      exactly when the mapping changes nothing, and writes nothing then. */
  lemma PersonTaskResult(db: Db, w: World, leadId: Value)
    ensures var lead := Open(db, w, Lead, "id", leadId);
            var (db1, ret) := PersonTask(db, w, leadId);
            && (ret.Error? <==> lead["id"] == Null)
            && (lead["id"] != Null ==>
                  (ret.Synced? &&
                   (ret.status == Skipped <==>
                      !ApplyAll(lead, Open(db, w, Person, "id", Get(lead, "pipedriveId")), PersonToLead(), w.env).1)))
            && (ret.Error? || ret.status == Skipped ==> db1 == db)
  {
  }

  /** A new person always changes: the lead's own id is written to its
      `marketoid`, and no entry writes its id. */
  lemma NewPersonChanged(lead: Record, person: Record, env: Env)
    requires "id" in lead && lead["id"].Int? && "id" in person && person["id"] == Null
    requires forall f :: f in person ==> person[f] == Null
    ensures ApplyAll(lead, person, PersonToLead(), env).1
    ensures Get(ApplyAll(lead, person, PersonToLead(), env).0, "id") == Null
  {
    var t := PersonToLead();
    PersonTableMarketoId();
    SingleFieldResolve(lead, "id", None, env);
    ChangedByEntry(lead, person, t, env, 9);
    ApplyAllFrame(lead, person, t, env, "id");
  }

  /** PERSON_TO_LEAD writes the lead's id into `marketoid`, and never writes `id`. */
  lemma PersonTableMarketoId()
    ensures |PersonToLead()| > 9 && PersonToLead()[9] == ("marketoid", Entry(Some(["id"]), None, None, None, None))
    ensures NotTarget(PersonToLead(), "id")
  {
  }

  /** A person that is not found is created under a fresh id. */
  lemma NewPersonCreated(db: Db, w: World, leadId: Value)
    requires Valid(db)
    requires var lead := Open(db, w, Lead, "id", leadId);
             lead["id"] != Null && Open(db, w, Person, "id", Get(lead, "pipedriveId"))["id"] == Null
    ensures PersonTask(db, w, leadId).1 == Synced(Created, Int(db.next))
    ensures Key(Person, db.next) !in db.store && Key(Person, db.next) in PersonTask(db, w, leadId).0.store
  {
    var lead := Open(db, w, Lead, "id", leadId);
    var person := Open(db, w, Person, "id", Get(lead, "pipedriveId"));
    NewPersonChanged(lead, person, w.env);
    var (person1, changed) := ApplyAll(lead, person, PersonToLead(), w.env);
    var (db1, pid) := Save(db, Person, person1);
    SaveCreates(db, Person, person1);
    assert PersonTask(db, w, leadId).1 == Synced(Created, Int(pid));
  }

  /** The write-back of a link compared as it is: the stored record equals
      `id` afterwards, whether it already did or is saved with it. */
  lemma LinkWriteBack(db1: Db, k: Kind, e: Record, field: string, i: int, id: int)
    requires field != "id" && Key(k, i) in db1.store && Get(e, "id") == Int(i)
    requires Get(e, field) == Get(db1.store[Key(k, i)], field)
    ensures var db2 := if LinkStale(Get(e, field), id) then Save(db1, k, e[field := Int(id)]).0 else db1;
            Key(k, i) in db2.store && PyEq(Get(db2.store[Key(k, i)], field), Int(id))
  {
    if LinkStale(Get(e, field), id) {
      var e1 := e[field := Int(id)];
      assert Get(e1, "id") == Int(i);
      SaveUpdates(db1, k, e1, i);
    }
  }

  /** After a person sync that was not skipped, the lead holds the person's
      id in `pipedriveId`: either it already did or it is written back. */
  lemma PersonLinkWritten(db: Db, w: World, leadId: Value, lid: int)
    requires Locate(w, Lead, "id", leadId) == Some(lid)
    requires PersonTask(db, w, leadId).1.Synced? && PersonTask(db, w, leadId).1.status != Skipped
    ensures var (db2, ret) := PersonTask(db, w, leadId);
            Key(Lead, lid) in db2.store && PyEq(Get(db2.store[Key(Lead, lid)], "pipedriveId"), ret.id)
  {
    var lead := Open(db, w, Lead, "id", leadId);
    var person := Open(db, w, Person, "id", Get(lead, "pipedriveId"));
    var (person1, changed) := ApplyAll(lead, person, PersonToLead(), w.env);
    var (db1, pid) := Save(db, Person, person1);
    var stored := db.store[Key(Lead, lid)];
    assert Key(Lead, lid) in db1.store && db1.store[Key(Lead, lid)] == stored;
    assert Get(lead, "pipedriveId") == Get(stored, "pipedriveId");
    LinkWriteBack(db1, Lead, lead, "pipedriveId", lid, pid);
  }

  /** The lead task fails exactly when the person is not found, is skipped
      exactly when the mapping changes nothing, and writes nothing then. */
  lemma LeadTaskResult(db: Db, w: World, personId: Value)
    ensures var person := Open(db, w, Person, "id", personId);
            var (db1, ret) := LeadTask(db, w, personId);
            && (ret.Error? <==> person["id"] == Null)
            && (person["id"] != Null ==>
                  (ret.Synced? || ret.Crashed?) &&
                  (ret.Synced? && ret.status == Skipped <==>
                     !ApplyAll(person, Open(db, w, Lead, "id", Get(person, "marketoid")), LeadToPerson(), w.env).1))
            && (ret.Error? || (ret.Synced? && ret.status == Skipped) ==> db1 == db)
  {
  }

  /** The `int()` write-back of a link: the stored record reads as `id`
      afterwards, whether it already did or is saved with it. */
  lemma IntLinkWriteBack(db1: Db, k: Kind, e: Record, field: string, i: int, id: int)
    requires field != "id" && Key(k, i) in db1.store && Get(e, "id") == Int(i)
    requires Get(e, field) == Get(db1.store[Key(k, i)], field)
    requires IntLinkStale(Get(e, field), id).Ok?
    ensures var db2 := if IntLinkStale(Get(e, field), id).value then Save(db1, k, e[field := Int(id)]).0 else db1;
            Key(k, i) in db2.store && PyInt(Get(db2.store[Key(k, i)], field)) == Converted(id)
  {
    if IntLinkStale(Get(e, field), id).value {
      var e1 := e[field := Int(id)];
      assert Get(e1, "id") == Int(i);
      SaveUpdates(db1, k, e1, i);
    }
  }

  /** After a lead sync that was not skipped, the person's `marketoid` reads
      as the lead's id, unless `int()` failed on the old value. */
  lemma LeadLinkWritten(db: Db, w: World, personId: Value, pid: int)
    requires Locate(w, Person, "id", personId) == Some(pid)
    requires LeadTask(db, w, personId).1.Synced? && LeadTask(db, w, personId).1.status != Skipped
    ensures var (db2, ret) := LeadTask(db, w, personId);
            ret.id.Int? && Key(Person, pid) in db2.store
            && PyInt(Get(db2.store[Key(Person, pid)], "marketoid")) == Converted(ret.id.i)
  {
    var person := Open(db, w, Person, "id", personId);
    var lead := Open(db, w, Lead, "id", Get(person, "marketoid"));
    var (lead1, changed) := ApplyAll(person, lead, LeadToPerson(), w.env);
    assert person["id"] != Null && changed;
    var (db1, lid) := Save(db, Lead, lead1);
    var stored := db.store[Key(Person, pid)];
    assert Key(Person, pid) in db1.store && db1.store[Key(Person, pid)] == stored;
    assert Get(person, "marketoid") == Get(stored, "marketoid");
    assert IntLinkStale(Get(person, "marketoid"), lid).Ok?;
    IntLinkWriteBack(db1, Person, person, "marketoid", pid, lid);
  }

  /** A lead whose `marketoid` is no integer literal makes the sync task raise
      after the lead was saved: the link is not written. */
  lemma BadLinkRaises(db: Db, w: World, personId: Value)
    requires var person := Open(db, w, Person, "id", personId);
             person["id"] != Null && Truthy(Get(person, "marketoid")) && !PyInt(Get(person, "marketoid")).Converted?
    ensures var person := Open(db, w, Person, "id", personId);
            var (db1, ret) := LeadTask(db, w, personId);
            ret.Crashed? || (ret.Synced? && ret.status == Skipped)
  {
  }

  /** The organization task fails exactly when the company is not found and
      is skipped exactly when the mapping changes nothing. */
  lemma OrganizationTaskResult(db: Db, w: World, externalId: Value)
    ensures var company := Open(db, w, Company, "externalCompanyId", externalId);
            var (db1, ret) := OrganizationTask(db, w, externalId);
            && (ret.Error? <==> company["id"] == Null)
            && (company["id"] != Null ==>
                  (ret.Synced? &&
                   (ret.status == Skipped <==> !ApplyAll(company, FindOrganization(db, w, company), OrganizationToCompany(), w.env).1)))
            && (ret.Error? || ret.status == Skipped ==> db1 == db)
  {
  }

  /** The organization found by its Marketo id wins over the one found by
      name, which wins over the one found by email domain. */
  lemma OrganizationSearchOrder(db: Db, w: World, company: Record)
    ensures var r := FindOrganization(db, w, company);
            var byId := Open(db, w, Organization, "marketoid", Get(company, "id"));
            var byName := Open(db, w, Organization, "name", Get(company, "company"));
            var byDomain := Open(db, w, Organization, "email_domain", Get(company, "website"));
            && (byId["id"] != Null ==> r == byId)
            && (byId["id"] == Null && byName["id"] != Null ==> r == byName)
            && (byId["id"] == Null && byName["id"] == Null ==> r == byDomain)
            && (r["id"] == Null <==> byId["id"] == Null && byName["id"] == Null && byDomain["id"] == Null)
  {
  }

  /** The external id of a new company is not a target of the mapping. */
  lemma CompanyTableKeepsKeys()
    ensures NotTarget(CompanyToOrganization(), "id") && NotTarget(CompanyToOrganization(), "externalCompanyId")
  {
  }

  /** An organization with no name, industry or people count changes
      nothing on a company that has the three fields. */
  lemma BlankOrganizationChangesNothing(org: Record, company: Record, env: Env)
    requires "company" in company && "industry" in company && "numberOfEmployees" in company
    requires IsBlank(Get(org, "name")) && IsBlank(env.oracle(IndustryCodeToName, Get(org, "industry")))
             && IsBlank(Get(org, "people_count"))
    ensures !ApplyAll(org, company, CompanyToOrganization(), env).1
  {
    var t := CompanyToOrganization();
    assert t == [("company", Entry(Some(["name"]), None, None, None, None)),
                 ("industry", Entry(Some(["industry"]), None, None, Some(IndustryCodeToName), None)),
                 ("numberOfEmployees", Entry(Some(["people_count"]), None, None, None, None))];
    SingleFieldResolve(org, "name", None, env);
    SingleFieldResolve(org, "industry", Some(IndustryCodeToName), env);
    SingleFieldResolve(org, "people_count", None, env);
    UnchangedWhenAllBlank(org, company, t, env);
  }

  /** As sync/tasks.py is written, an organization whose mapped values are
      all empty does not get its new company created: the flag line 227
      sets is reset on line 233, the company is reported skipped with no id,
      and nothing is written. */
  lemma NewCompanySkippedAsWritten(db: Db, w: World, orgId: Value)
    requires var org := Open(db, w, Organization, "id", orgId);
             org["id"] != Null && FindCompany(db, w, org)["id"] == Null
    requires "company" in w.schema(Company) && "industry" in w.schema(Company) && "numberOfEmployees" in w.schema(Company)
    requires var org := Open(db, w, Organization, "id", orgId);
             IsBlank(Get(org, "name")) && IsBlank(w.env.oracle(IndustryCodeToName, Get(org, "industry")))
             && IsBlank(Get(org, "people_count"))
    ensures var org := Open(db, w, Organization, "id", orgId);
            CompanyTaskAsWritten(db, w, orgId) == (db, CompanySynced(Skipped, Null, Str(OrganizationExternalId(org))))
  {
    var org := Open(db, w, Organization, "id", orgId);
    var found := FindCompany(db, w, org);
    assert found == Blank(w, Company);
    var company := found["externalCompanyId" := Str(OrganizationExternalId(org))];
    BlankOrganizationChangesNothing(org, company, w.env);
  }

  /** With the flag kept, a company that is not found is always created,
      under a fresh id and with the organization's external id. */
  lemma NewCompanyCreated(db: Db, w: World, orgId: Value)
    requires Valid(db)
    requires var org := Open(db, w, Organization, "id", orgId);
             org["id"] != Null && FindCompany(db, w, org)["id"] == Null
    ensures var org := Open(db, w, Organization, "id", orgId);
            var (db1, ret) := CompanyTask(db, w, orgId);
            && Key(Company, db.next) !in db.store && Key(Company, db.next) in db1.store
            && Get(db1.store[Key(Company, db.next)], "externalCompanyId") == Str(OrganizationExternalId(org))
            && (ret.CompanySynced? ==> ret == CompanySynced(Created, Int(db.next), Str(OrganizationExternalId(org))))
            && (!ret.CompanySynced? ==> ret.Crashed?)
  {
    var org := Open(db, w, Organization, "id", orgId);
    var found := FindCompany(db, w, org);
    var company := found["externalCompanyId" := Str(OrganizationExternalId(org))];
    var t := CompanyToOrganization();
    CompanyTableKeepsKeys();
    ApplyAllFrame(org, company, t, w.env, "id");
    ApplyAllFrame(org, company, t, w.env, "externalCompanyId");
    var company1 := ApplyAll(org, company, t, w.env).0;
    SaveCreates(db, Company, company1);
  }

  /** The delete task fails exactly when the lead is not found; otherwise
      the lead is kept, marked `toDelete`. */
  lemma DeleteLeadMarks(db: Db, w: World, leadId: Value, lid: int)
    requires Locate(w, Lead, "id", leadId) == Some(lid)
    ensures var (db1, ret) := DeleteLeadTask(db, w, leadId);
            && (ret.Error? <==> Key(Lead, lid) !in db.store)
            && (ret.Error? ==> db1 == db)
            && (!ret.Error? ==> ret == ReadyForDeletion(Int(lid)) && db1.store.Keys == db.store.Keys
                                && db1.store[Key(Lead, lid)]["toDelete"] == Bool(true))
  {
    if Key(Lead, lid) in db.store {
      var lead := Open(db, w, Lead, "id", leadId);
      SaveUpdates(db, Lead, lead["toDelete" := Bool(true)], lid);
    }
  }

  /** A deleted person stays stored but is no longer loaded. */
  lemma DeletedPersonNotLoaded(db: Db, w: World, personId: Value)
    requires DeletePersonTask(db, w, personId).1.Deleted?
    ensures var db1 := DeletePersonTask(db, w, personId).0;
            db1.store.Keys == db.store.Keys && Open(db1, w, Person, "id", personId)["id"] == Null
  {
  }

  /** A deal outside the filtered pipeline, or a missing deal, writes nothing. */
  lemma OpportunityFiltered(db: Db, w: World, dealId: Value)
    ensures var deal := Open(db, w, Deal, "id", dealId);
            var pipeline := Open(db, w, Pipeline, "id", Get(deal, "pipeline_id"));
            var (db1, ret) := OpportunityTask(db, w, dealId);
            && (ret.Error? <==> deal["id"] == Null)
            && (ret.NotEnabled? <==> deal["id"] != Null && !PyEq(Get(pipeline, "name"), Str(PIPELINE_FILTER_NAME)))
            && (ret.Error? || ret.NotEnabled? ==> db1 == db)
  {
  }

  /** A new opportunity always changes: `isClosed` resolves to a boolean,
      which is never its None; no entry writes its id or external id. */
  lemma NewOpportunityChanged(deal: Record, opportunity: Record, env: Env)
    requires "isClosed" in opportunity ==> opportunity["isClosed"] == Null
    ensures ApplyAll(deal, opportunity, DealToOpportunity(), env).1
    ensures Get(ApplyAll(deal, opportunity, DealToOpportunity(), env).0, "id") == Get(opportunity, "id")
    ensures Get(ApplyAll(deal, opportunity, DealToOpportunity(), env).0, "externalOpportunityId")
            == Get(opportunity, "externalOpportunityId")
  {
    var t := DealToOpportunity();
    DealTableIsClosed();
    SingleFieldResolve(deal, "status", Some(IsClosed), env);
    ChangedByEntry(deal, opportunity, t, env, 4);
    ApplyAllFrame(deal, opportunity, t, env, "id");
    ApplyAllFrame(deal, opportunity, t, env, "externalOpportunityId");
  }

  /** DEAL_TO_OPPORTUNITY sets `isClosed` from the deal's status, and never
      writes `id` or `externalOpportunityId`. */
  lemma DealTableIsClosed()
    ensures |DealToOpportunity()| > 4
    ensures DealToOpportunity()[4] == ("isClosed", Entry(Some(["status"]), None, None, Some(IsClosed), None))
    ensures NotTarget(DealToOpportunity(), "id") && NotTarget(DealToOpportunity(), "externalOpportunityId")
  {
  }

  /** A deal whose opportunity is not found always creates it, so resetting
      the flag on sync/tasks.py:333 loses nothing. */
  lemma NewOpportunityCreated(db: Db, w: World, deal: Record)
    requires Valid(db)
    requires Open(db, w, Opportunity, "externalOpportunityId",
                  Str(H.ComputeExternalId("deal", Get(deal, "id"), H.DEFAULT_PREFIX)))["id"] == Null
    ensures var (db1, status, oid, opportunity) := UpsertOpportunity(db, w, deal);
            status == Created && oid == Int(db.next) && Key(Opportunity, db.next) !in db.store
            && Get(opportunity, "externalOpportunityId") == Str(H.ComputeExternalId("deal", Get(deal, "id"), H.DEFAULT_PREFIX))
  {
    var ext := H.ComputeExternalId("deal", Get(deal, "id"), H.DEFAULT_PREFIX);
    var found := Open(db, w, Opportunity, "externalOpportunityId", Str(ext));
    assert found == Blank(w, Opportunity);
    var opportunity := found["externalOpportunityId" := Str(ext)];
    NewOpportunityChanged(deal, opportunity, w.env);
    var opportunity1 := ApplyAll(deal, opportunity, DealToOpportunity(), w.env).0;
    SaveCreates(db, Opportunity, opportunity1);
  }

  /** The role rule: a role is sent exactly when the deal has a contact
      person known to Marketo, and it is a new role (Marketo's own merging of
      roles by their three key fields is not modelled). */
  lemma RoleSentForKnownContact(db: Db, w: World, dealId: Value)
    requires Valid(db)
    requires var deal := Open(db, w, Deal, "id", dealId);
             deal["id"] != Null && PyEq(Get(Open(db, w, Pipeline, "id", Get(deal, "pipeline_id")), "name"), Str(PIPELINE_FILTER_NAME))
    ensures var deal := Open(db, w, Deal, "id", dealId);
            var (db1, status, oid, opportunity) := UpsertOpportunity(db, w, deal);
            var contact := Open(db1, w, Person, "id", Get(deal, "contact_person"));
            var (db2, ret) := OpportunityTask(db, w, dealId);
            && ret.OpportunitySynced? && ret.status == status && ret.id == oid
            && (ret.role.Some? <==> Get(deal, "contact_person") != Null && Truthy(Get(contact, "marketoid")))
            && (ret.role.None? ==> db2 == db1)
            && (ret.role.Some? ==>
                  ret.role == Some(Int(db1.next)) && Key(Role, db1.next) !in db1.store &&
                  var role := RoleOf(db1, w, deal, opportunity, contact);
                  forall f :: f in role && f != "id" ==> f in db2.store[Key(Role, db1.next)] && db2.store[Key(Role, db1.next)][f] == role[f])
  {
    var deal := Open(db, w, Deal, "id", dealId);
    var (db1, status, oid, opportunity) := UpsertOpportunity(db, w, deal);
    assert Valid(db1);
    var contact := Open(db1, w, Person, "id", Get(deal, "contact_person"));
    if Get(deal, "contact_person") != Null && Truthy(Get(contact, "marketoid")) {
      SaveCreates(db1, Role, RoleOf(db1, w, deal, opportunity, contact));
    }
  }

  /** An activity is created for a lead with an owner and a linked person,
      under a fresh id, when the table does not set the id; otherwise the
      task writes nothing. */
  lemma ActivityCreatedWhenEnabled(db: Db, w: World, leadId: Value)
    requires Valid(db) && NotTarget(w.activityTable, "id")
    ensures var lead := Open(db, w, Lead, "id", leadId);
            var (db1, ret) := ActivityTask(db, w, leadId);
            && (lead["id"] != Null && ActivityEnabled(lead) ==>
                  ret == Synced(Created, Int(db.next)) && Key(Activity, db.next) !in db.store
                  && Key(Activity, db.next) in db1.store && db1.next == db.next + 1)
            && (!(lead["id"] != Null && ActivityEnabled(lead)) ==> db1 == db && (ret.Error? || ret.NotEnabled?))
  {
    var lead := Open(db, w, Lead, "id", leadId);
    if lead["id"] != Null && ActivityEnabled(lead) {
      ApplyAllFrame(lead, Blank(w, Activity), w.activityTable, w.env, "id");
      SaveCreates(db, Activity, ApplyAll(lead, Blank(w, Activity), w.activityTable, w.env).0);
    }
  }

  // ---------------------------------------------------------------------
  // The earlier tasks of sync/functions.py. Their person and lead tasks
  // are the ones above but for the text of two error messages; the others
  // differ as follows.

  /** The organization of a company in the earlier task: by the id read out
      of the company's external id (`get_id_part_from_external`, given as
      `idPart`), then by name, then by email domain. */
  function FindOrganizationEarly(db: Db, w: World, idPart: Value -> Value, company: Record): Record
  {
    var organizationId := idPart(Get(company, "externalCompanyId"));
    var byId := if Truthy(organizationId) then Open(db, w, Organization, "id", organizationId) else Blank(w, Organization);
    if byId["id"] != Null then byId
    else
      var byName := Open(db, w, Organization, "name", Get(company, "company"));
      if byName["id"] != Null then byName else Open(db, w, Organization, "email_domain", Get(company, "website"))
  }

  /** `create_or_update_organization_in_pipedrive` of sync/functions.py. */
  function EarlyOrganizationTask(db: Db, w: World, idPart: Value -> Value, externalId: Value): (Db, Ret)
  {
    var company := Open(db, w, Company, "externalCompanyId", externalId);
    if company["id"] == Null then (db, Error("No company found with external id " + Show(externalId)))
    else
      var org := FindOrganizationEarly(db, w, idPart, company);
      var (org1, changed) := ApplyAll(company, org, OrganizationToCompany(), w.env);
      if !changed then (db, Synced(Skipped, org["id"]))
      else
        var (db1, oid) := Save(db, Organization, org1);
        (db1, Synced(StatusOf(org), Int(oid)))
  }

  /** The company of an organization in the earlier task: by computed
      external id, then by name. */
  function FindCompanyEarly(db: Db, w: World, org: Record): Record
  {
    var byExternalId := Open(db, w, Company, "externalCompanyId", Str(OrganizationExternalId(org)));
    if byExternalId["id"] != Null then byExternalId else Open(db, w, Company, "company", Get(org, "name"))
  }

  /** `create_or_update_company_in_marketo` of sync/functions.py: the flag a
      new company sets is kept, and no link is written back. */
  function EarlyCompanyTask(db: Db, w: World, orgId: Value): (Db, Ret)
  {
    var org := Open(db, w, Organization, "id", orgId);
    if org["id"] == Null then (db, Error("No organization found with id " + Show(orgId)))
    else
      var found := FindCompanyEarly(db, w, org);
      var company := if found["id"] == Null then found["externalCompanyId" := Str(OrganizationExternalId(org))] else found;
      var (company1, changed) := ApplyAll(org, company, CompanyToOrganization(), w.env);
      if !(changed || found["id"] == Null) then
        (db, CompanySynced(Skipped, found["id"], Get(company, "externalCompanyId")))
      else
        var (db1, cid) := Save(db, Company, company1);
        (db1, CompanySynced(StatusOf(found), Int(cid), Get(company1, "externalCompanyId")))
  }

  /** `delete_lead_in_marketo` of sync/functions.py: the lead is marked and
      saved without checking that it was found. */
  function EarlyDeleteLeadTask(db: Db, w: World, leadId: Value): (Db, Ret)
  {
    var lead := Open(db, w, Lead, "id", leadId);
    var (db1, lid) := Save(db, Lead, lead["toDelete" := Bool(true)]);
    (db1, ReadyForDeletion(Int(lid)))
  }

  /** The opportunity part of the earlier task: the flag a new opportunity
      sets is kept. */
  function UpsertOpportunityKeepingFlag(db: Db, w: World, deal: Record): (Db, Status, Value, Record)
  {
    var ext := H.ComputeExternalId("deal", Get(deal, "id"), H.DEFAULT_PREFIX);
    var found := Open(db, w, Opportunity, "externalOpportunityId", Str(ext));
    var opportunity := if found["id"] == Null then found["externalOpportunityId" := Str(ext)] else found;
    var (opportunity1, changed) := ApplyAll(deal, opportunity, DealToOpportunity(), w.env);
    if changed || found["id"] == Null then
      var (db1, oid) := Save(db, Opportunity, opportunity1);
      (db1, StatusOf(found), Int(oid), opportunity1)
    else (db, Skipped, found["id"], opportunity1)
  }

  /** `create_or_update_opportunity_in_marketo` of sync/functions.py;
      `corrected` says whether a deal without a role gives a result without
      one, rather than the AttributeError the code raises on `None`. */
  function EarlyOpportunityTaskWith(db: Db, w: World, dealId: Value, corrected: bool): (Db, Ret)
  {
    var deal := Open(db, w, Deal, "id", dealId);
    if deal["id"] == Null then (db, Error("No deal found with id " + Show(dealId)))
    else
      var pipeline := Open(db, w, Pipeline, "id", Get(deal, "pipeline_id"));
      if !PyEq(Get(pipeline, "name"), Str(PIPELINE_FILTER_NAME)) then
        (db, NotEnabled("Deal sync not allowed for pipeline " + Show(Get(pipeline, "name"))))
      else
        var (db1, status, oid, opportunity) := UpsertOpportunityKeepingFlag(db, w, deal);
        var contact := Open(db1, w, Person, "id", Get(deal, "contact_person"));
        if Get(deal, "contact_person") == Null then
          (db1, if corrected then OpportunitySynced(status, oid, None) else Crashed(AttributeError("marketoid")))
        else if Get(contact, "marketoid") != Null then
          var (db2, rid) := Save(db1, Role, RoleOf(db1, w, deal, opportunity, contact));
          (db2, OpportunitySynced(status, oid, Some(Int(rid))))
        else
          (db1, if corrected then OpportunitySynced(status, oid, None) else Crashed(AttributeError("id")))
  }

  /** The earlier opportunity task as sync/functions.py writes it. */
  function EarlyOpportunityTaskAsWritten(db: Db, w: World, dealId: Value): (Db, Ret)
  {
    EarlyOpportunityTaskWith(db, w, dealId, false)
  }

  /** The earlier opportunity task as intended: no role, no role in the result. */
  function EarlyOpportunityTask(db: Db, w: World, dealId: Value): (Db, Ret)
  {
    EarlyOpportunityTaskWith(db, w, dealId, true)
  }

  /** The earlier organization search tries the id read out of the company's
      external id first, then the name, then the email domain. */
  lemma EarlyOrganizationSearchOrder(db: Db, w: World, idPart: Value -> Value, company: Record)
    ensures var r := FindOrganizationEarly(db, w, idPart, company);
            var part := idPart(Get(company, "externalCompanyId"));
            var byName := Open(db, w, Organization, "name", Get(company, "company"));
            && (Truthy(part) && Open(db, w, Organization, "id", part)["id"] != Null ==> r == Open(db, w, Organization, "id", part))
            && (r["id"] != Null && r != byName ==> Truthy(part) || byName["id"] == Null)
            && (r["id"] == Null <==>
                  (!Truthy(part) || Open(db, w, Organization, "id", part)["id"] == Null) && byName["id"] == Null
                  && Open(db, w, Organization, "email_domain", Get(company, "website"))["id"] == Null)
  {
  }

  /** The earlier organization task fails exactly when the company is not
      found and is skipped exactly when the mapping changes nothing. */
  lemma EarlyOrganizationTaskResult(db: Db, w: World, idPart: Value -> Value, externalId: Value)
    ensures var company := Open(db, w, Company, "externalCompanyId", externalId);
            var (db1, ret) := EarlyOrganizationTask(db, w, idPart, externalId);
            && (ret.Error? <==> company["id"] == Null)
            && (company["id"] != Null ==>
                  (ret.Synced? &&
                   (ret.status == Skipped <==>
                      !ApplyAll(company, FindOrganizationEarly(db, w, idPart, company), OrganizationToCompany(), w.env).1)))
            && (ret.Error? || ret.status == Skipped ==> db1 == db)
  {
  }

  /** In the earlier company task a company that is not found is always
      created, with the organization's external id, and the organization is
      never written to. */
  lemma EarlyNewCompanyCreated(db: Db, w: World, orgId: Value)
    requires Valid(db)
    requires var org := Open(db, w, Organization, "id", orgId);
             org["id"] != Null && FindCompanyEarly(db, w, org)["id"] == Null
    ensures var org := Open(db, w, Organization, "id", orgId);
            var (db1, ret) := EarlyCompanyTask(db, w, orgId);
            && ret == CompanySynced(Created, Int(db.next), Str(OrganizationExternalId(org)))
            && Key(Company, db.next) !in db.store && Key(Company, db.next) in db1.store
            && Get(db1.store[Key(Company, db.next)], "externalCompanyId") == Str(OrganizationExternalId(org))
  {
    var org := Open(db, w, Organization, "id", orgId);
    var found := FindCompanyEarly(db, w, org);
    var company := found["externalCompanyId" := Str(OrganizationExternalId(org))];
    var t := CompanyToOrganization();
    CompanyTableKeepsKeys();
    ApplyAllFrame(org, company, t, w.env, "id");
    ApplyAllFrame(org, company, t, w.env, "externalCompanyId");
    SaveCreates(db, Company, ApplyAll(org, company, t, w.env).0);
  }

  /** The earlier company task writes companies only. */
  lemma EarlyCompanyTaskWritesCompaniesOnly(db: Db, w: World, orgId: Value, key: Key)
    requires key.kind != Company && key in db.store
    ensures var db1 := EarlyCompanyTask(db, w, orgId).0;
            key in db1.store && db1.store[key] == db.store[key]
  {
  }

  /** The earlier delete task agrees with the later one for a lead that is
      found; for one that is not, it creates a new lead marked `toDelete`. */
  lemma EarlyDeleteLeadCreatesMissing(db: Db, w: World, leadId: Value)
    requires Valid(db)
    ensures var lead := Open(db, w, Lead, "id", leadId);
            var (db1, ret) := EarlyDeleteLeadTask(db, w, leadId);
            && (lead["id"] != Null ==> (db1, ret) == DeleteLeadTask(db, w, leadId))
            && (lead["id"] == Null ==>
                  ret == ReadyForDeletion(Int(db.next)) && Key(Lead, db.next) !in db.store
                  && db1.store[Key(Lead, db.next)]["toDelete"] == Bool(true))
  {
    var lead := Open(db, w, Lead, "id", leadId);
    if lead["id"] == Null {
      SaveCreates(db, Lead, lead["toDelete" := Bool(true)]);
    }
  }

  /** Keeping the flag of a new opportunity makes no difference: a new
      opportunity always changes anyway. */
  lemma KeptFlagSameAsReset(db: Db, w: World, deal: Record)
    ensures UpsertOpportunityKeepingFlag(db, w, deal) == UpsertOpportunity(db, w, deal)
  {
    var ext := H.ComputeExternalId("deal", Get(deal, "id"), H.DEFAULT_PREFIX);
    var found := Open(db, w, Opportunity, "externalOpportunityId", Str(ext));
    if found["id"] == Null {
      assert found == Blank(w, Opportunity);
      NewOpportunityChanged(deal, found["externalOpportunityId" := Str(ext)], w.env);
    }
  }

  /** As sync/functions.py is written, a deal without a contact, or whose
      contact is unknown to Marketo, makes the sync task raise once the
      opportunity is saved: line 282 reads `marketoid` on None, line 298
      reads `id` on the role that was never made. */
  lemma EarlyMissingRoleRaises(db: Db, w: World, dealId: Value)
    requires var deal := Open(db, w, Deal, "id", dealId);
             deal["id"] != Null && PyEq(Get(Open(db, w, Pipeline, "id", Get(deal, "pipeline_id")), "name"), Str(PIPELINE_FILTER_NAME))
    requires var deal := Open(db, w, Deal, "id", dealId);
             var db1 := UpsertOpportunity(db, w, deal).0;
             Get(Open(db1, w, Person, "id", Get(deal, "contact_person")), "marketoid") == Null
    ensures var deal := Open(db, w, Deal, "id", dealId);
            var (db1, ret) := EarlyOpportunityTaskAsWritten(db, w, dealId);
            ret.Crashed? && ret.exc.AttributeError? && db1 == UpsertOpportunity(db, w, deal).0
  {
    KeptFlagSameAsReset(db, w, Open(db, w, Deal, "id", dealId));
  }

  /** As intended, such a deal gives the opportunity's result with no role,
      which is what the later task returns for it. */
  lemma EarlyMissingRoleOmitted(db: Db, w: World, dealId: Value)
    requires var deal := Open(db, w, Deal, "id", dealId);
             deal["id"] != Null && PyEq(Get(Open(db, w, Pipeline, "id", Get(deal, "pipeline_id")), "name"), Str(PIPELINE_FILTER_NAME))
    requires var deal := Open(db, w, Deal, "id", dealId);
             var db1 := UpsertOpportunity(db, w, deal).0;
             Get(Open(db1, w, Person, "id", Get(deal, "contact_person")), "marketoid") == Null
    ensures var deal := Open(db, w, Deal, "id", dealId);
            var (db1, status, oid, opportunity) := UpsertOpportunity(db, w, deal);
            EarlyOpportunityTask(db, w, dealId) == (db1, OpportunitySynced(status, oid, None))
            && OpportunityTask(db, w, dealId) == (db1, OpportunitySynced(status, oid, None))
  {
    KeptFlagSameAsReset(db, w, Open(db, w, Deal, "id", dealId));
  }

  // ---------------------------------------------------------------------
  // The sync tasks as they run, step by step, against the two CRMs

  /** An entity opened as `found` and updated by every entry of a mapping
      table: its attributes afterwards and whether any entry changed it. */
  method MapEntity(src: Record, found: Record, table: Table, env: Env) returns (attrs: Record, changed: bool)
    ensures (attrs, changed) == ApplyAll(src, found, table, env)
  {
    var entity := new Entity(found);
    changed := entity.ApplyTable(src, table, env);
    attrs := entity.attrs;
  }

  class Crm {
    var store: map<Key, Record>
    var next: int

    constructor (db: Db)
      ensures store == db.store && next == db.next
    {
      store := db.store;
      next := db.next;
    }

    function State(): Db
      reads this
    {
      Db(store, next)
    }

    /** `entity.save()`. */
    method SaveEntity(k: Kind, e: Record) returns (id: int)
      modifies this
      ensures (State(), id) == Save(old(State()), k, e)
    {
      if "id" in e && e["id"].Int? && Key(k, e["id"].i) in store {
        id := e["id"].i;
        store := store[Key(k, id) := store[Key(k, id)] + e];
      } else {
        id := next;
        store := store[Key(k, id) := e["id" := Int(id)]];
        next := next + 1;
      }
    }

    method SyncPerson(w: World, leadId: Value) returns (ret: Ret)
      modifies this
      ensures (State(), ret) == PersonTask(old(State()), w, leadId)
    {
      var lead := Open(State(), w, Lead, "id", leadId);
      if lead["id"] == Null {
        return Error("No lead found in Marketo with id=" + Show(leadId));
      }
      var found := Open(State(), w, Person, "id", Get(lead, "pipedriveId"));
      var person, changed := MapEntity(lead, found, PersonToLead(), w.env);
      if !changed {
        return Synced(Skipped, found["id"]);
      }
      var pid := SaveEntity(Person, person);
      if LinkStale(Get(lead, "pipedriveId"), pid) {
        var _ := SaveEntity(Lead, lead["pipedriveId" := Int(pid)]);
      }
      ret := Synced(StatusOf(found), Int(pid));
    }

    method DeletePerson(w: World, personId: Value) returns (ret: Ret)
      modifies this
      ensures (State(), ret) == DeletePersonTask(old(State()), w, personId)
    {
      var i := Locate(w, Person, "id", personId);
      if i.Some? && Key(Person, i.value) in store {
        var key := Key(Person, i.value);
        store := store[key := store[key]["active_flag" := Bool(false)]];
        ret := Deleted(Int(i.value));
      } else {
        ret := Error("Could not delete person in Pipedrive with id=" + Show(personId));
      }
    }

    method SyncOrganization(w: World, externalId: Value) returns (ret: Ret)
      modifies this
      ensures (State(), ret) == OrganizationTask(old(State()), w, externalId)
    {
      var company := Open(State(), w, Company, "externalCompanyId", externalId);
      if company["id"] == Null {
        return Error("No company found in Marketo with external_id=" + Show(externalId));
      }
      var found := FindOrganizationOf(w, company);
      var organization, changed := MapEntity(company, found, OrganizationToCompany(), w.env);
      if !changed {
        return Synced(Skipped, found["id"]);
      }
      var oid := SaveEntity(Organization, organization);
      ret := Synced(StatusOf(found), Int(oid));
    }

    method SyncLead(w: World, personId: Value) returns (ret: Ret)
      modifies this
      ensures (State(), ret) == LeadTask(old(State()), w, personId)
    {
      var person := Open(State(), w, Person, "id", personId);
      if person["id"] == Null {
        return Error("No person found with id " + Show(personId));
      }
      var found := Open(State(), w, Lead, "id", Get(person, "marketoid"));
      var lead, changed := MapEntity(person, found, LeadToPerson(), w.env);
      if !changed {
        return Synced(Skipped, found["id"]);
      }
      var lid := SaveEntity(Lead, lead);
      var stale := IntLinkStale(Get(person, "marketoid"), lid);
      if stale.Raised? {
        return Crashed(stale.exc);
      }
      if stale.value {
        var _ := SaveEntity(Person, person["marketoid" := Int(lid)]);
      }
      ret := Synced(StatusOf(found), Int(lid));
    }

    /** The search for the organization of a company. */
    method FindOrganizationOf(w: World, company: Record) returns (found: Record)
      ensures found == FindOrganization(State(), w, company)
    {
      found := Open(State(), w, Organization, "marketoid", Get(company, "id"));
      if found["id"] == Null {
        found := Open(State(), w, Organization, "name", Get(company, "company"));
      }
      if found["id"] == Null {
        found := Open(State(), w, Organization, "email_domain", Get(company, "website"));
      }
    }

    /** The search for the organization of a company in the earlier task. */
    method FindOrganizationEarlyOf(w: World, idPart: Value -> Value, company: Record) returns (found: Record)
      ensures found == FindOrganizationEarly(State(), w, idPart, company)
    {
      var organizationId := idPart(Get(company, "externalCompanyId"));
      found := Blank(w, Organization);
      if Truthy(organizationId) {
        found := Open(State(), w, Organization, "id", organizationId);
      }
      if found["id"] == Null {
        found := Open(State(), w, Organization, "name", Get(company, "company"));
      }
      if found["id"] == Null {
        found := Open(State(), w, Organization, "email_domain", Get(company, "website"));
      }
    }

    /** The search for the company of an organization in the earlier task. */
    method FindCompanyEarlyOf(w: World, org: Record) returns (found: Record)
      ensures found == FindCompanyEarly(State(), w, org)
    {
      found := Open(State(), w, Company, "externalCompanyId", Str(OrganizationExternalId(org)));
      if found["id"] == Null {
        found := Open(State(), w, Company, "company", Get(org, "name"));
      }
    }

    /** The search for the company of an organization. */
    method FindCompanyOf(w: World, org: Record) returns (found: Record)
      ensures found == FindCompany(State(), w, org)
    {
      found := Open(State(), w, Company, "id", Get(org, "marketoid"));
      if found["id"] == Null {
        found := Open(State(), w, Company, "externalCompanyId", Str(OrganizationExternalId(org)));
      }
      if found["id"] == Null {
        found := Open(State(), w, Company, "company", Get(org, "name"));
      }
    }

    /** The company task as sync/tasks.py writes it: the flag a new company
        sets is reset, so only a change of the mapped values saves it. */
    method SyncCompany(w: World, orgId: Value) returns (ret: Ret)
      modifies this
      ensures (State(), ret) == CompanyTaskAsWritten(old(State()), w, orgId)
    {
      var org := Open(State(), w, Organization, "id", orgId);
      if org["id"] == Null {
        return Error("No organization found with id " + Show(orgId));
      }
      var found := FindCompanyOf(w, org);
      var start := found;
      if found["id"] == Null {
        start := found["externalCompanyId" := Str(OrganizationExternalId(org))];
      }
      var company, changed := MapEntity(org, start, CompanyToOrganization(), w.env);
      if !changed {
        return CompanySynced(Skipped, found["id"], Get(start, "externalCompanyId"));
      }
      ret := SaveCompany(org, found, company);
    }

    /** The end of the company task, once the company changed: save it and
      link the organization to it. */
    method SaveCompany(org: Record, found: Record, company: Record) returns (ret: Ret)
      modifies this
      ensures (State(), ret) == CompanySaved(old(State()), org, found, company)
    {
      var cid := SaveEntity(Company, company);
      ret := CompanySynced(StatusOf(found), Int(cid), Get(company, "externalCompanyId"));
      var stale := IntLinkStale(Get(org, "marketoid"), cid);
      if stale.Raised? {
        return Crashed(stale.exc);
      }
      if stale.value {
        var _ := SaveEntity(Organization, org["marketoid" := Int(cid)]);
      }
    }

    method DeleteLead(w: World, leadId: Value) returns (ret: Ret)
      modifies this
      ensures (State(), ret) == DeleteLeadTask(old(State()), w, leadId)
    {
      var lead := Open(State(), w, Lead, "id", leadId);
      if lead["id"] == Null {
        return Error("No lead found with id=" + Show(leadId));
      }
      var lid := SaveEntity(Lead, lead["toDelete" := Bool(true)]);
      ret := ReadyForDeletion(Int(lid));
    }

    /** The opportunity part of the opportunity task. */
    method SaveOpportunity(w: World, deal: Record) returns (status: Status, oid: Value, opportunity: Record)
      modifies this
      ensures (State(), status, oid, opportunity) == UpsertOpportunity(old(State()), w, deal)
    {
      var ext := H.ComputeExternalId("deal", Get(deal, "id"), H.DEFAULT_PREFIX);
      var found := Open(State(), w, Opportunity, "externalOpportunityId", Str(ext));
      var start := found;
      if found["id"] == Null {
        start := found["externalOpportunityId" := Str(ext)];
      }
      var changed;
      opportunity, changed := MapEntity(deal, start, DealToOpportunity(), w.env);
      status, oid := Skipped, found["id"];
      if changed {
        var id := SaveEntity(Opportunity, opportunity);
        status, oid := StatusOf(found), Int(id);
      }
    }

    method SyncOpportunity(w: World, dealId: Value) returns (ret: Ret)
      modifies this
      ensures (State(), ret) == OpportunityTask(old(State()), w, dealId)
    {
      var deal := Open(State(), w, Deal, "id", dealId);
      if deal["id"] == Null {
        return Error("No deal found in Pipedrive with id=" + Show(dealId));
      }
      var pipeline := Open(State(), w, Pipeline, "id", Get(deal, "pipeline_id"));
      if !PyEq(Get(pipeline, "name"), Str(PIPELINE_FILTER_NAME)) {
        return NotEnabled("Deal synchronization with id=" + Show(dealId) + " not enabled for pipeline="
                          + Show(Get(pipeline, "name")));
      }
      var status, oid, opportunity := SaveOpportunity(w, deal);
      var contact := Open(State(), w, Person, "id", Get(deal, "contact_person"));
      if Get(deal, "contact_person") != Null && Truthy(Get(contact, "marketoid")) {
        var rid := SaveEntity(Role, RoleOf(State(), w, deal, opportunity, contact));
        ret := OpportunitySynced(status, oid, Some(Int(rid)));
      } else {
        ret := OpportunitySynced(status, oid, None);
      }
    }

    /** The organization task of sync/functions.py. */
    method SyncOrganizationEarly(w: World, idPart: Value -> Value, externalId: Value) returns (ret: Ret)
      modifies this
      ensures (State(), ret) == EarlyOrganizationTask(old(State()), w, idPart, externalId)
    {
      var company := Open(State(), w, Company, "externalCompanyId", externalId);
      if company["id"] == Null {
        return Error("No company found with external id " + Show(externalId));
      }
      var found := FindOrganizationEarlyOf(w, idPart, company);
      var organization, changed := MapEntity(company, found, OrganizationToCompany(), w.env);
      if !changed {
        return Synced(Skipped, found["id"]);
      }
      var oid := SaveEntity(Organization, organization);
      ret := Synced(StatusOf(found), Int(oid));
    }

    /** The company task of sync/functions.py. */
    method SyncCompanyEarly(w: World, orgId: Value) returns (ret: Ret)
      modifies this
      ensures (State(), ret) == EarlyCompanyTask(old(State()), w, orgId)
    {
      var org := Open(State(), w, Organization, "id", orgId);
      if org["id"] == Null {
        return Error("No organization found with id " + Show(orgId));
      }
      var found := FindCompanyEarlyOf(w, org);
      var start := found;
      if found["id"] == Null {
        start := found["externalCompanyId" := Str(OrganizationExternalId(org))];
      }
      var company, changed := MapEntity(org, start, CompanyToOrganization(), w.env);
      if !(changed || found["id"] == Null) {
        return CompanySynced(Skipped, found["id"], Get(start, "externalCompanyId"));
      }
      var cid := SaveEntity(Company, company);
      ret := CompanySynced(StatusOf(found), Int(cid), Get(company, "externalCompanyId"));
    }

    /** The delete task of sync/functions.py. */
    method DeleteLeadEarly(w: World, leadId: Value) returns (ret: Ret)
      modifies this
      ensures (State(), ret) == EarlyDeleteLeadTask(old(State()), w, leadId)
    {
      var lead := Open(State(), w, Lead, "id", leadId);
      var lid := SaveEntity(Lead, lead["toDelete" := Bool(true)]);
      ret := ReadyForDeletion(Int(lid));
    }

    /** The opportunity task as sync/functions.py writes it: a deal without
        a contact, or whose contact has no lead, raises AttributeError after
        the opportunity was saved. */
    method SyncOpportunityEarly(w: World, dealId: Value) returns (ret: Ret)
      modifies this
      ensures (State(), ret) == EarlyOpportunityTaskAsWritten(old(State()), w, dealId)
    {
      var deal := Open(State(), w, Deal, "id", dealId);
      if deal["id"] == Null {
        return Error("No deal found with id " + Show(dealId));
      }
      var pipeline := Open(State(), w, Pipeline, "id", Get(deal, "pipeline_id"));
      if !PyEq(Get(pipeline, "name"), Str(PIPELINE_FILTER_NAME)) {
        return NotEnabled("Deal sync not allowed for pipeline " + Show(Get(pipeline, "name")));
      }
      KeptFlagSameAsReset(State(), w, deal);
      var status, oid, opportunity := SaveOpportunity(w, deal);
      var contact := Open(State(), w, Person, "id", Get(deal, "contact_person"));
      if Get(deal, "contact_person") == Null {
        ret := Crashed(AttributeError("marketoid"));
      } else if Get(contact, "marketoid") != Null {
        var rid := SaveEntity(Role, RoleOf(State(), w, deal, opportunity, contact));
        ret := OpportunitySynced(status, oid, Some(Int(rid)));
      } else {
        ret := Crashed(AttributeError("id"));
      }
    }

    method CreateActivity(w: World, leadId: Value) returns (ret: Ret)
      modifies this
      ensures (State(), ret) == ActivityTask(old(State()), w, leadId)
    {
      var lead := Open(State(), w, Lead, "id", leadId);
      if lead["id"] == Null {
        return Error("No lead found in Marketo with id=" + Show(leadId));
      }
      if !ActivityEnabled(lead) {
        return NotEnabled("Activity synchronization for lead with id=" + Show(leadId) + " not enabled when no owner");
      }
      var activity, _ := MapEntity(lead, Blank(w, Activity), w.activityTable, w.env);
      var aid := SaveEntity(Activity, activity);
      ret := Synced(Created, Int(aid));
    }
  }
}
