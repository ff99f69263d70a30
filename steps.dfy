/** Main.mapStepToId: the names a Tally form sends for an onboarding step, mapped to the step identifiers the UI uses. */
module Steps {
  import opened Wrappers
  import opened Ascii

  /** The switch's table: a lower-case step name and its identifier. */
  const StepTable: seq<(string, string)> :=
    [("contract", "2"), ("access", "3"), ("intake", "4"), ("kickoff", "5"), ("final", "6")]

  /** A null step name gives "0"; a name from the table in any letter case gives its identifier; anything else is returned unchanged. */
  function MapStepToId(stepName: Option<string>): (id: string)
    ensures stepName.None? ==> id == "0"
  {
    match stepName
    case None => "0"
    case Some(name) =>
      var key := ToLower(name);
      if key == "contract" then "2"
      else if key == "access" then "3"
      else if key == "intake" then "4"
      else if key == "kickoff" then "5"
      else if key == "final" then "6"
      else name
  }

  /** Index of the table row whose name matches `name` ignoring case, if any. */
  function TableIndex(name: string): (r: Option<nat>)
    ensures r.Some? ==> r.value < |StepTable| && EqualsIgnoreCase(name, StepTable[r.value].0)
    ensures r.None? ==> forall i :: 0 <= i < |StepTable| ==> !EqualsIgnoreCase(name, StepTable[i].0)
  {
    if EqualsIgnoreCase(name, "contract") then Some(0)
    else if EqualsIgnoreCase(name, "access") then Some(1)
    else if EqualsIgnoreCase(name, "intake") then Some(2)
    else if EqualsIgnoreCase(name, "kickoff") then Some(3)
    else if EqualsIgnoreCase(name, "final") then Some(4)
    else None
  }

  /**
   * The switch agrees with the table read with equalsIgnoreCase: a matching name
   * gives that row's identifier, any other string passes through unchanged.
   */
  lemma MapStepToIdMatchesTable(name: string)
    ensures TableIndex(name).Some? ==> MapStepToId(Some(name)) == StepTable[TableIndex(name).value].1
    ensures TableIndex(name).None? ==> MapStepToId(Some(name)) == name
  {
    LowerKey(name, "contract");
    LowerKey(name, "access");
    LowerKey(name, "intake");
    LowerKey(name, "kickoff");
    LowerKey(name, "final");
  }

  /** For a lower-case table name, equalsIgnoreCase and the switch on toLowerCase agree. */
  lemma LowerKey(name: string, key: string)
    requires IsLowerCase(key)
    ensures EqualsIgnoreCase(name, key) <==> ToLower(name) == key
  {
    EqualsIgnoreCaseIffLowerEqual(name, key);
    ToLowerOfLowerCase(key);
  }

  /** Every spelling of a table name, in any letter case, maps to that row's identifier. */
  lemma MapStepToIdNamedStep(name: string, i: nat)
    requires i < |StepTable| && EqualsIgnoreCase(name, StepTable[i].0)
    ensures MapStepToId(Some(name)) == StepTable[i].1
  {
    MapStepToIdMatchesTable(name);
  }

  /** A name matching no row of the table (for example "1") is returned as it is. */
  lemma MapStepToIdPassesThrough(name: string)
    requires forall i :: 0 <= i < |StepTable| ==> !EqualsIgnoreCase(name, StepTable[i].0)
    ensures MapStepToId(Some(name)) == name
  {
    MapStepToIdMatchesTable(name);
  }

  /** Normalising a step identifier a second time changes nothing. */
  lemma MapStepToIdIdempotent(name: string)
    ensures MapStepToId(Some(MapStepToId(Some(name)))) == MapStepToId(Some(name))
  {
  }
}
