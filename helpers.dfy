/** The two helpers of sync/marketo/helpers.py: the external id a Marketo
    object synchronised from Pipedrive is given, and the test that tells a
    Marketo GUID from a numeric id. */
module MarketoHelpers {
  import opened Values

  const DEFAULT_PREFIX := "pd"

  /** `compute_external_id(pd_entity_name, id_, prefix)`. */
  function ComputeExternalId(entityName: string, id: Value, prefix: string): (r: string)
    ensures |r| == |prefix| + |entityName| + |Show(id)| + 2
  {
    prefix + "-" + entityName + "-" + Show(id)
  }

  /** The inverse reading: the id text of an external id computed with the
      given prefix and entity name, if it was computed that way. */
  function IdPart(entityName: string, prefix: string, s: string): (r: Option<string>)
    ensures r.Some? ==> |r.value| == |s| - |prefix| - |entityName| - 2
  {
    var head := prefix + "-" + entityName + "-";
    if |head| <= |s| && s[..|head|] == head then Some(s[|head|..]) else None
  }

  /** Reading the id back out of an external id gives the id's text. */
  lemma IdPartOfExternalId(entityName: string, id: Value, prefix: string)
    ensures IdPart(entityName, prefix, ComputeExternalId(entityName, id, prefix)) == Some(Show(id))
  {
    var head := prefix + "-" + entityName + "-";
    var s := ComputeExternalId(entityName, id, prefix);
    assert s == head + Show(id);
    assert s[..|head|] == head && s[|head|..] == Show(id);
  }

  /** For one prefix and one entity name, distinct Pipedrive ids give distinct
      external ids, so no two deals (or organizations) share a Marketo object. */
  lemma ExternalIdInjective(entityName: string, prefix: string, a: int, b: int)
    requires ComputeExternalId(entityName, Int(a), prefix) == ComputeExternalId(entityName, Int(b), prefix)
    ensures a == b
  {
    IdPartOfExternalId(entityName, Int(a), prefix);
    IdPartOfExternalId(entityName, Int(b), prefix);
    IntToStringInjective(a, b);
  }

  /** The examples the synchronisation relies on: a deal's opportunity and an
      organization's company. */
  lemma ExternalIdExamples()
    ensures ComputeExternalId("deal", Int(12), DEFAULT_PREFIX) == "pd-deal-12"
    ensures ComputeExternalId("organization", Int(7), DEFAULT_PREFIX) == "pd-organization-7"
  {
    assert NatToString(12) == NatToString(1) + [DigitChar(2)];
  }

  predicate GuidChar(c: char)
  {
    'a' <= c <= 'z' || '0' <= c <= '9'
  }

  /** Positions 8, 13, 18 and 23 of a GUID hold the dashes. */
  predicate DashAt(i: int)
  {
    i == 8 || i == 13 || i == 18 || i == 23
  }

  /** `[a-z0-9]{8}-[a-z0-9]{4}-[a-z0-9]{4}-[a-z0-9]{4}-[a-z0-9]{12}` matched at
      the start of the text (`re.match` anchors only there). */
  predicate GuidPrefix(s: string)
  {
    |s| >= 36 && forall i :: 0 <= i < 36 ==> if DashAt(i) then s[i] == '-' else GuidChar(s[i])
  }

  /** `is_marketo_guid(id_)`: the pattern matched against `str(id_)`. */
  function IsMarketoGuid(id: Value): (r: bool)
    ensures r ==> |Show(id)| >= 36 && Show(id)[8] == '-'
  {
    GuidPrefix(Show(id))
  }

  /** The examples of the function's documentation. */
  lemma GuidExamples()
    ensures IsMarketoGuid(Str("6a38a3bd-edce-4d86-bcc0-83f1feef8997"))
    ensures !IsMarketoGuid(Str("7591021"))
  {
  }

  /** Only the start is anchored: anything may follow a GUID. */
  lemma GuidThenAnything(s: string, t: string)
    requires GuidPrefix(s)
    ensures GuidPrefix(s + t)
  {
    assert forall i :: 0 <= i < 36 ==> (s + t)[i] == s[i];
  }

  /** The class is lower case only: an upper-case letter where a GUID
      character is expected is rejected. */
  lemma UpperCaseRejected(s: string, i: nat)
    requires i < 36 && i < |s| && !DashAt(i) && 'A' <= s[i] <= 'Z'
    ensures !GuidPrefix(s)
  {
  }

  /** A Marketo numeric id, whatever its size, is never taken for a GUID:
      its ninth character is a digit, not a dash. */
  lemma NumericIdNotGuid(n: int)
    ensures !IsMarketoGuid(Int(n))
  {
    var r := IntToString(n);
    if |r| >= 36 {
      if n < 0 {
        assert r[8] == NatToString(-n)[7];
      }
      assert IsDigit(r[8]);
    }
  }
}

/** `simple_pluralize` of marketo/helpers.py: the plural form of a Marketo
    entity name used to build a REST path. */
module Pluralize {

  function SimplePluralize(word: string): (r: string)
    ensures |r| > 0 && r[|r| - 1] == 's'
    ensures |word| > 0 && word[|word| - 1] == 'y' ==> |r| == |word| + 2 && r[..|word| - 1] == word[..|word| - 1]
    ensures !(|word| > 0 && word[|word| - 1] == 'y') ==> |r| == |word| + 1 && r[..|word|] == word
  {
    var plural := word;
    var stem := if |word| > 0 && word[|word| - 1] == 'y' then plural[..|plural| - 1] + "ie" else plural;
    stem + "s"
  }

  /** The examples of the function's documentation. */
  lemma PluralizeExamples()
    ensures SimplePluralize("lead") == "leads"
    ensures SimplePluralize("opportunity") == "opportunities"
  {
    assert "opportunity"[..10] == "opportunit";
  }

  /** Two words with the same plural are the same word, unless one of them
      ends in `y` and the other in `ie`: `pie` and `py` both give `pies`. */
  lemma PluralizeInjective(a: string, b: string)
    requires SimplePluralize(a) == SimplePluralize(b)
    requires !(|a| >= 2 && a[|a| - 2..] == "ie") && !(|b| >= 2 && b[|b| - 2..] == "ie")
    ensures a == b
  {
    var r := SimplePluralize(a);
    var ya := |a| > 0 && a[|a| - 1] == 'y';
    var yb := |b| > 0 && b[|b| - 1] == 'y';
    if ya != yb {
      assert false;
    } else if ya {
      assert a[..|a| - 1] == r[..|a| - 1] == b[..|b| - 1];
      assert a == a[..|a| - 1] + "y" && b == b[..|b| - 1] + "y";
    } else {
      assert a == r[..|a|] == b;
    }
  }

  /** The exception the injectivity lemma leaves out is real. */
  lemma PluralizeCollision()
    ensures SimplePluralize("pie") == SimplePluralize("py") == "pies"
  {
  }
}
