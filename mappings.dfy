/** The mapping tables of sync/mappings.py. Each entry names the source
    fields to read (`fields`), how to combine several of them (`mode`), and
    the adapters to run on each field (`pre_adapter`), on the combined value
    (`post_adapter`) or on the whole source record (`transformer`). */
module Mappings {
  import opened Values
  import opened Registry

  datatype Mode = Join | Choose | OtherMode(name: string)

  datatype Entry = Entry(
    fields: Option<seq<string>>,
    mode: Option<Mode>,
    pre: Option<Adapter>,
    post: Option<Adapter>,
    transformer: Option<Adapter>)

  /** A table: target field name and entry, in declaration order. */
  type Table = seq<(string, Entry)>

  function Fields(fs: seq<string>): Entry
  {
    Entry(Some(fs), None, None, None, None)
  }

  function WithMode(e: Entry, m: Mode): Entry
  {
    e.(mode := Some(m))
  }

  function WithPre(e: Entry, a: Adapter): Entry
  {
    e.(pre := Some(a))
  }

  function WithPost(e: Entry, a: Adapter): Entry
  {
    e.(post := Some(a))
  }

  function Targets(t: Table): seq<string>
  {
    seq(|t|, i requires 0 <= i < |t| => t[i].0)
  }

  predicate DistinctTargets(t: Table)
  {
    forall i, j :: 0 <= i < j < |t| ==> t[i].0 != t[j].0
  }

  /** What the header comment of sync/mappings.py requires of every entry:
      `fields` is present, and several fields come with a `mode`; the target
      names are the keys of a dictionary, so they are distinct. */
  predicate WellFormed(t: Table)
  {
    DistinctTargets(t)
    && (forall i :: 0 <= i < |t| ==> t[i].1.fields.Some?)
    && (forall i :: 0 <= i < |t| && |t[i].1.fields.value| > 1 ==> t[i].1.mode.Some?)
  }

  /** The entry for a target field, if the table has one. */
  function Lookup(t: Table, target: string): (r: Option<Entry>)
    ensures r.Some? <==> exists i :: 0 <= i < |t| && t[i].0 == target
    ensures r.Some? ==> exists i :: 0 <= i < |t| && t[i] == (target, r.value)
  {
    if t == [] then None
    else if t[0].0 == target then Some(t[0].1)
    else
      var r := Lookup(t[1..], target);
      assert forall i :: 1 <= i < |t| ==> t[i] == t[1..][i - 1];
      r
  }

  /** PERSON_TO_LEAD: a Marketo lead into a Pipedrive person. */
  function PersonToLead(): (t: Table)
    ensures WellFormed(t)
  {
    [ ("name", WithMode(Fields(["firstName", "lastName"]), Join)),
      ("email", Fields(["email"])),
      ("org_id", WithPost(Fields(["company"]), CompanyNameToOrgId)),
      ("title", Fields(["title"])),
      ("phone", Fields(["phone"])),
      ("inferred_country", WithPre(WithMode(Fields(["inferredCountry", "country"]), Choose), CountryIsoToName)),
      ("lead_source", Fields(["leadSource"])),
      ("owner_id", WithPost(WithMode(Fields(["conversicaLeadOwnerFirstName", "conversicaLeadOwnerLastName"]), Join),
                            LeadNameToUserId)),
      ("created_date", WithPost(Fields(["createdAt"]), DatetimeToDate)),
      ("marketoid", Fields(["id"])),
      ("state", WithMode(Fields(["inferredStateRegion", "state"]), Choose)),
      ("city", WithMode(Fields(["inferredCity", "city"]), Choose)),
      ("lead_score", Fields(["leadScore"])),
      ("date_sql", WithPost(Fields(["mKTODateSQL"]), DatetimeToDate)) ]
  }

  /** ORGANIZATION_TO_COMPANY: a Marketo company into a Pipedrive organization. */
  function OrganizationToCompany(): (t: Table)
    ensures WellFormed(t)
  {
    [ ("name", Fields(["company"])),
      ("industry", WithPost(Fields(["industry"]), IndustryNameToCode)),
      ("people_count", Fields(["numberOfEmployees"])),
      ("owner_id", WithPost(Fields([]), BigBotId)) ]
  }

  /** LEAD_TO_PERSON: a Pipedrive person into a Marketo lead. */
  function LeadToPerson(): (t: Table)
    ensures WellFormed(t)
  {
    [ ("firstName", WithPost(Fields(["name"]), SplitNameGetFirst)),
      ("lastName", WithPost(Fields(["name"]), SplitNameGetLast)),
      ("email", Fields(["email"])),
      ("externalCompanyId", WithPost(WithPre(Fields(["organization"]), OrganizationToName),
                                     OrganizationNameToExternalId)),
      ("title", Fields(["title"])),
      ("phone", Fields(["phone"])),
      ("leadSource", Fields(["lead_source"])),
      ("conversicaLeadOwnerEmail", WithPre(Fields(["owner"]), UserToEmail)),
      ("conversicaLeadOwnerFirstName", WithPre(Fields(["owner"]), UserToFirstName)),
      ("conversicaLeadOwnerLastName", WithPre(Fields(["owner"]), UserToLastName)),
      ("pipedriveId", Fields(["id"])) ]
  }

  /** COMPANY_TO_ORGANIZATION: a Pipedrive organization into a Marketo company. */
  function CompanyToOrganization(): (t: Table)
    ensures WellFormed(t)
  {
    [ ("company", Fields(["name"])),
      ("industry", WithPost(Fields(["industry"]), IndustryCodeToName)),
      ("numberOfEmployees", Fields(["people_count"])) ]
  }

  /** DEAL_TO_OPPORTUNITY: a Pipedrive deal into a Marketo opportunity. */
  function DealToOpportunity(): (t: Table)
    ensures WellFormed(t)
  {
    [ ("name", Fields(["title"])),
      ("type", WithPost(Fields(["type"]), TypeCodeToName)),
      ("description", Fields(["deal_description"])),
      ("lastActivityDate", Fields(["last_activity_date"])),
      ("isClosed", WithPost(Fields(["status"]), IsClosed)),
      ("isWon", WithPost(Fields(["status"]), IsWon)),
      ("amount", WithPost(Fields(["value"]), NumberToFloat)),
      ("closeDate", WithPost(WithMode(Fields(["close_time", "expected_close_date"]), Choose), DatetimeToDate2)),
      ("stage", Fields(["stage"])),
      ("fiscalQuarter", WithPost(WithMode(Fields(["close_time", "expected_close_date"]), Choose), DatetimeToQuarter)),
      ("fiscalYear", WithPost(WithMode(Fields(["close_time", "expected_close_date"]), Choose), DatetimeToYear)) ]
  }

  /** In a table with distinct targets, looking a target up finds its own entry. */
  lemma {:induction false} LookupAt(t: Table, i: nat)
    requires DistinctTargets(t) && i < |t|
    ensures Lookup(t, t[i].0) == Some(t[i].1)
  {
    if i > 0 {
      assert t[0].0 != t[i].0;
      assert DistinctTargets(t[1..]) by {
        forall p, q | 0 <= p < q < |t[1..]| ensures t[1..][p].0 != t[1..][q].0 {
          assert t[1..][p] == t[p + 1] && t[1..][q] == t[q + 1];
        }
      }
      LookupAt(t[1..], i - 1);
    }
  }

  /** The cross references between the two CRMs are ordinary table entries:
      a person's `marketoid` is the lead's id, a lead's `pipedriveId` the person's id. */
  lemma CrossReferencesMapped()
    ensures Lookup(PersonToLead(), "marketoid") == Some(Fields(["id"]))
    ensures Lookup(LeadToPerson(), "pipedriveId") == Some(Fields(["id"]))
  {
    LookupAt(PersonToLead(), 9);
    LookupAt(LeadToPerson(), 10);
  }

  /** The lead's first and last names both come from the person's single `name`
      field, through the two name-splitting adapters. */
  lemma NamesFromOneField()
    ensures Lookup(LeadToPerson(), "firstName") == Some(WithPost(Fields(["name"]), SplitNameGetFirst))
    ensures Lookup(LeadToPerson(), "lastName") == Some(WithPost(Fields(["name"]), SplitNameGetLast))
  {
    LookupAt(LeadToPerson(), 0);
    LookupAt(LeadToPerson(), 1);
  }

  /** The close date, fiscal quarter and fiscal year of an opportunity choose
      between the same two deal fields and differ only in their post-adapter. */
  lemma CloseFieldsShareSource()
    ensures Lookup(DealToOpportunity(), "closeDate")
            == Some(WithPost(WithMode(Fields(["close_time", "expected_close_date"]), Choose), DatetimeToDate2))
    ensures Lookup(DealToOpportunity(), "fiscalQuarter")
            == Some(WithPost(WithMode(Fields(["close_time", "expected_close_date"]), Choose), DatetimeToQuarter))
    ensures Lookup(DealToOpportunity(), "fiscalYear")
            == Some(WithPost(WithMode(Fields(["close_time", "expected_close_date"]), Choose), DatetimeToYear))
  {
    LookupAt(DealToOpportunity(), 7);
    LookupAt(DealToOpportunity(), 9);
    LookupAt(DealToOpportunity(), 10);
  }

  /** The organization's owner reads no field at all: only its post-adapter runs. */
  lemma OwnerReadsNoField()
    ensures Lookup(OrganizationToCompany(), "owner_id") == Some(WithPost(Fields([]), BigBotId))
  {
    LookupAt(OrganizationToCompany(), 3);
  }
}
