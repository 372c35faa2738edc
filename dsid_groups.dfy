/** The accessors of the DSID table: groups name lists of dataset IDs, and a group is
    a data group exactly when its name contains "data". The table itself is a
    parameter. */
module DsidGroups {
  import opened Strs

  type Table = map<string, seq<string>>

  /** `get_mc_groups`: the groups whose name does not contain "data". */
  function McGroups(table: Table): (r: Table)
    ensures forall k :: k in r <==> k in table && !Contains(k, "data")
    ensures forall k :: k in r ==> r[k] == table[k]
  {
    map k | k in table && !Contains(k, "data") :: table[k]
  }

  /** The name fragment `get_data_groups` looks for: "data", followed by the year
      when one is given (a zero year means none). */
  function DataPattern(year: int): (p: string)
    ensures "data" <= p
  {
    if year != 0 then "data" + IntToString(year) else "data"
  }

  /** `get_data_groups(year)`: the groups whose name contains the pattern. */
  function DataGroups(table: Table, year: int): (r: Table)
    ensures forall k :: k in r <==> k in table && Contains(k, DataPattern(year))
    ensures forall k :: k in r ==> r[k] == table[k]
  {
    map k | k in table && Contains(k, DataPattern(year)) :: table[k]
  }

  /** A string containing `p + q` contains `p`. */
  lemma {:induction false} ContainsPrefix(s: string, p: string, q: string)
    requires Contains(s, p + q)
    ensures Contains(s, p)
    decreases |s|
  {
    if !(p + q <= s) {
      ContainsPrefix(s[1..], p, q);
    } else {
      assert p <= s by { assert (p + q)[..|p|] == p; }
    }
  }

  /** The MC groups and all the data groups split the table: no group is in both and
      every group is in one. */
  lemma McAndDataPartition(table: Table)
    ensures McGroups(table).Keys !! DataGroups(table, 0).Keys
    ensures McGroups(table).Keys + DataGroups(table, 0).Keys == table.Keys
  {
  }

  /** The data groups of one year are among the data groups of all years. */
  lemma YearIsSubset(table: Table, year: int)
    ensures forall k :: k in DataGroups(table, year) ==> k in DataGroups(table, 0)
  {
    forall k | k in DataGroups(table, year) ensures k in DataGroups(table, 0) {
      if year != 0 {
        ContainsPrefix(k, "data", IntToString(year));
      }
    }
  }
}
