/** The instrument master list and `get_security_id`: keep the rows whose
    underlying, expiry, option type and strike all equal the arguments, and
    answer the SECURITY_ID of the first of them, or `None`. */
module Instruments {
  import opened Wrappers

  /** One row of the instrument list, restricted to the columns the lookup
      reads: UNDERLYING_SYMBOL, SM_EXPIRY_DATE, OPTION_TYPE, STRIKE_PRICE and
      SECURITY_ID. */
  datatype Instrument = Instrument(
    underlying: string,
    expiry: string,
    optionType: string,
    strike: real,
    securityId: int)

  /** The instrument list in file order; only ever read. */
  type Table = seq<Instrument>

  /** The four values `get_security_id` filters on; `strike` is already
      converted by `float(...)`. */
  datatype Key = Key(underlying: string, expiry: string, optionType: string, strike: real)

  /** A row passes all four column comparisons of the filter. */
  predicate Matches(row: Instrument, key: Key) {
    && row.underlying == key.underlying
    && row.expiry == key.expiry
    && row.optionType == key.optionType
    && row.strike == key.strike
  }

  /** `i` is the position of the first row of `table` that matches `key`. */
  predicate IsFirstMatch(table: Table, i: int, key: Key) {
    && 0 <= i < |table|
    && Matches(table[i], key)
    && forall j | 0 <= j < i :: !Matches(table[j], key)
  }

  /** The rows of `table` that `keep` selects, in table order: a boolean
      mask applied to a frame. */
  function Where(table: Table, keep: Instrument -> bool): (rows: Table)
    ensures |rows| <= |table|
    ensures forall k | 0 <= k < |rows| :: keep(rows[k]) && rows[k] in table
    ensures forall i | 0 <= i < |table| && keep(table[i]) :: table[i] in rows
  {
    if table == [] then []
    else if keep(table[0]) then [table[0]] + Where(table[1..], keep)
    else Where(table[1..], keep)
  }

  /** The first selected row is the first row of the table `keep` accepts. */
  lemma {:induction false} WhereStartsAtFirstKept(table: Table, keep: Instrument -> bool)
    requires |Where(table, keep)| > 0
    ensures exists i :: && 0 <= i < |table| && keep(table[i])
                        && (forall j | 0 <= j < i :: !keep(table[j]))
                        && Where(table, keep)[0] == table[i]
  {
    if !keep(table[0]) {
      WhereStartsAtFirstKept(table[1..], keep);
      var i :| && 0 <= i < |table[1..]| && keep(table[1..][i])
               && (forall j | 0 <= j < i :: !keep(table[1..][j]))
               && Where(table[1..], keep)[0] == table[1..][i];
      assert forall j | 0 <= j < i + 1 :: !keep(table[j]) by {
        forall j | 0 <= j < i + 1 ensures !keep(table[j]) {
          if j > 0 { assert table[j] == table[1..][j - 1]; }
        }
      }
    }
  }

  /** Selecting with a narrower mask after a wider one selects the same rows
      as the narrower mask alone. */
  lemma {:induction false} WhereNarrows(table: Table, wide: Instrument -> bool, narrow: Instrument -> bool)
    requires forall row :: narrow(row) ==> wide(row)
    ensures Where(Where(table, wide), narrow) == Where(table, narrow)
  {
    if table != [] {
      WhereNarrows(table[1..], wide, narrow);
    }
  }

  /** The filtered frame `df_filtered`: the rows matching all four keys. */
  function Filter(table: Table, key: Key): (rows: Table)
    ensures forall k | 0 <= k < |rows| :: Matches(rows[k], key) && rows[k] in table
    ensures forall i | 0 <= i < |table| && Matches(table[i], key) :: table[i] in rows
  {
    Where(table, row => Matches(row, key))
  }

  /** `get_security_id`: SECURITY_ID of the first filtered row, or `None`
      when the filtered frame is empty. `None` comes back exactly when no
      row matches all four keys; otherwise the id is that of the first
      matching row in table order. */
  function GetSecurityId(table: Table, key: Key): (r: Option<int>)
    ensures r.None? <==> forall i | 0 <= i < |table| :: !Matches(table[i], key)
    ensures r.Some? ==> exists i :: IsFirstMatch(table, i, key) && table[i].securityId == r.value
  {
    var hits := Filter(table, key);
    if |hits| == 0 then None
    else
      WhereStartsAtFirstKept(table, row => Matches(row, key));
      Some(hits[0].securityId)
  }

  /** There is at most one first matching row. */
  lemma FirstMatchUnique(table: Table, key: Key, i: int, j: int)
    requires IsFirstMatch(table, i, key) && IsFirstMatch(table, j, key)
    ensures i == j
  {
  }

  /** When a row matches, the lookup answers the SECURITY_ID of the first
      matching row in table order. */
  lemma GetSecurityIdIsFirstMatch(table: Table, key: Key, i: int)
    requires IsFirstMatch(table, i, key)
    ensures GetSecurityId(table, key) == Some(table[i].securityId)
  {
    var r := GetSecurityId(table, key);
    assert r.Some?;
    var f :| IsFirstMatch(table, f, key) && table[f].securityId == r.value;
    FirstMatchUnique(table, key, i, f);
  }

  /** The rows of one contract series (one underlying, one expiry). */
  function Series(table: Table, underlying: string, expiry: string): (rows: Table)
    ensures forall k | 0 <= k < |rows| :: rows[k].underlying == underlying && rows[k].expiry == expiry && rows[k] in table
    ensures forall i | 0 <= i < |table| && table[i].underlying == underlying && table[i].expiry == expiry :: table[i] in rows
  {
    Where(table, (row: Instrument) => row.underlying == underlying && row.expiry == expiry)
  }

  /** Rows of other series never influence the lookup: it answers the same
      on the whole table as on the key's own series. */
  lemma GetSecurityIdOnlyReadsSeries(table: Table, key: Key)
    ensures GetSecurityId(table, key) == GetSecurityId(Series(table, key.underlying, key.expiry), key)
  {
    WhereNarrows(table, (row: Instrument) => row.underlying == key.underlying && row.expiry == key.expiry, row => Matches(row, key));
  }
}
