/** The mapping tables of the first version, mappings.py at the root of the
    repository. An entry lists the source fields and optional pre- and
    post-adapters; it has no combination mode, because the engine that reads
    these tables always joins the field values with spaces. */
module RootMappings {
  import opened Values
  import R = RootAdapters

  datatype Entry = Entry(fields: seq<string>, pre: Option<R.Adapter>, post: Option<R.Adapter>)

  /** Target field and entry, in the order the table declares them. */
  type Table = seq<(string, Entry)>

  function Plain(fs: seq<string>): Entry
  {
    Entry(fs, None, None)
  }

  /** `PERSON_TO_LEAD`: a Pipedrive person from a Marketo lead. */
  function PersonToLead(): Table
  {
    [("marketoid", Plain(["id"])),
     ("name", Plain(["firstName", "lastName"])),
     ("email", Plain(["email"])),
     ("inferred_country", Entry(["country"], None, Some(R.CountryIsoToName))),
     ("org_id", Entry(["company"], None, Some(R.CompanyNameToOrgId))),
     ("lead_score", Plain(["leadScore"]))]
  }

  /** `ORGANIZATION_TO_COMPANY`: a Pipedrive organization from a Marketo company. */
  function OrganizationToCompany(): Table
  {
    [("name", Plain(["company"])),
     ("people_count", Plain(["numberOfEmployees"]))]
  }

  /** `LEAD_TO_PERSON`: a Marketo lead from a Pipedrive person. */
  function LeadToPerson(): Table
  {
    [("pipedriveId", Plain(["id"])),
     ("firstName", Entry(["name"], None, Some(R.SplitNameGetFirst))),
     ("lastName", Entry(["name"], None, Some(R.SplitNameGetLast))),
     ("email", Plain(["email"])),
     ("country", Entry(["inferred_country"], None, Some(R.CountryNameToIso))),
     ("externalCompanyId", Entry(["organization"], Some(R.OrganizationToName), Some(R.OrganizationNameToExternalId))),
     ("leadScore", Plain(["lead_score"]))]
  }

  /** `COMPANY_TO_ORGANIZATION`: a Marketo company from a Pipedrive organization. */
  function CompanyToOrganization(): Table
  {
    [("company", Plain(["name"])),
     ("numberOfEmployees", Plain(["people_count"]))]
  }

  /** `DEAL_TO_OPPORTUNITY`: a Marketo opportunity from a Pipedrive deal. */
  function DealToOpportunity(): Table
  {
    [("name", Plain(["title"]))]
  }

  function AllTables(): seq<Table>
  {
    [PersonToLead(), OrganizationToCompany(), LeadToPerson(), CompanyToOrganization(), DealToOpportunity()]
  }

  /** No two entries of a table write the same field. */
  predicate DistinctTargets(t: Table)
  {
    forall i, j :: 0 <= i < j < |t| ==> t[i].0 != t[j].0
  }

  /** Every entry of every table reads at least one field, and no table writes
      a field twice. */
  lemma TablesWellFormed()
    ensures forall k :: 0 <= k < |AllTables()| ==>
              DistinctTargets(AllTables()[k]) && forall i :: 0 <= i < |AllTables()[k]| ==> AllTables()[k][i].1.fields != []
  {
  }

  /** A person's name is the lead's first and last names, joined by the engine
      since the entry declares no mode. */
  lemma NameFromTwoFields()
    ensures PersonToLead()[1] == ("name", Entry(["firstName", "lastName"], None, None))
  {
  }

  /** A lead's company id is the name of the person's organization, turned
      into an external id. */
  lemma CompanyIdAdaptedTwice()
    ensures LeadToPerson()[5] ==
            ("externalCompanyId", Entry(["organization"], Some(R.OrganizationToName), Some(R.OrganizationNameToExternalId)))
  {
  }

  /** Each side records the other's id: `marketoid` from the lead's id and
      `pipedriveId` from the person's. */
  lemma CrossReferencesMapped()
    ensures PersonToLead()[0] == ("marketoid", Plain(["id"]))
    ensures LeadToPerson()[0] == ("pipedriveId", Plain(["id"]))
  {
  }

  /** The organization and company tables mirror each other: each copies a
      field straight back to the field it was copied from. */
  lemma CompanyTablesMirror()
    ensures |OrganizationToCompany()| == |CompanyToOrganization()|
    ensures forall i :: 0 <= i < |OrganizationToCompany()| ==>
              OrganizationToCompany()[i].1 == Plain([CompanyToOrganization()[i].0])
              && CompanyToOrganization()[i].1 == Plain([OrganizationToCompany()[i].0])
  {
  }
}
