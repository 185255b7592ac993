/** The adapters the mapping tables of sync/mappings.py name, as a closed
    enumeration, and what applying each of them to a value gives. */
module Registry {
  import opened Values
  import A = Adapters

  datatype Adapter =
    // interpreted: defined in sync/adapters.py
    | SplitNameGetFirst | SplitNameGetLast | IsClosed | IsWon | ToggleBoolean
    | NumberToString | CallType | CustomSubject | StageToName
    | UserToEmail | UserToFirstName | UserToLastName
    | UserNameToUserIdOrBigBot | UserNameToUserId | CountryIsoToName
    | DatetimeToDate | DatetimeToDate2 | DatetimeToQuarter | DatetimeToYear
    // not interpreted: they run a whole task, query a CRM, read the clock,
    // compute in floating point, or are not defined in sync/adapters.py
    | CompanyNameToOrgId | OrganizationToExternalId | NumberToFloat | TodayDate
    | LeadNameToUserId | IndustryNameToCode | BigBotId | OrganizationToName
    | OrganizationNameToExternalId | IndustryCodeToName | TypeCodeToName

  predicate Interpreted(a: Adapter)
  {
    !(a.CompanyNameToOrgId? || a.OrganizationToExternalId? || a.NumberToFloat? || a.TodayDate?
      || a.LeadNameToUserId? || a.IndustryNameToCode? || a.BigBotId? || a.OrganizationToName?
      || a.OrganizationNameToExternalId? || a.IndustryCodeToName? || a.TypeCodeToName?)
  }

  /** What the adapters need from outside: the answers of the adapters that are
      not interpreted, the country table, and the Pipedrive user search by name. */
  datatype Env = Env(oracle: (Adapter, Value) -> Value, countries: A.Countries, userLookup: string -> Value)

  function Apply(a: Adapter, v: Value, env: Env): Value
  {
    match a
    case SplitNameGetFirst => A.SplitNameGetFirst(v)
    case SplitNameGetLast => A.SplitNameGetLast(v)
    case IsClosed => A.IsClosed(v)
    case IsWon => A.IsWon(v)
    case ToggleBoolean => A.ToggleBoolean(v)
    case NumberToString => A.NumberToString(v)
    case CallType => A.CallType(v)
    case CustomSubject => A.CustomSubject(v)
    case StageToName => A.StageToName(v)
    case UserToEmail => A.UserToEmail(v)
    case UserToFirstName => A.UserToFirstName(v)
    case UserToLastName => A.UserToLastName(v)
    case UserNameToUserIdOrBigBot => A.UserNameToUserIdOrBigBot(v, env.userLookup)
    case UserNameToUserId => A.UserNameToUserId(v, env.userLookup)
    case CountryIsoToName => A.CountryIsoToName(v, env.countries)
    case DatetimeToDate => A.DatetimeToDate(v)
    case DatetimeToDate2 => A.DatetimeToDate2(v)
    case DatetimeToQuarter => A.DatetimeToQuarter(v)
    case DatetimeToYear => A.DatetimeToYear(v)
    case _ => env.oracle(a, v)
  }

  /** An optional adapter: applied when present, the identity otherwise. */
  function ApplyOpt(a: Option<Adapter>, v: Value, env: Env): Value
  {
    if a.Some? then Apply(a.value, v, env) else v
  }
}
