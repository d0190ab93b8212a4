/** The name-only view served as `/org-via-ombud.json`. */
module NameView {
  import opened Wrappers
  import opened JsonValues
  import opened RecordFetcher

  /** Whether a name survives the view's filter: truthy and not the "N/A" sentinel. */
  predicate IsShownName(name: Json)
  {
    Truthy(Some(name)) && name != NotAvailable
  }

  /**
   * `aggregatedData.map(item => item.namn).filter(name => name && name !== 'N/A')`:
   * the names in aggregate order, without falsy values and without "N/A".
   */
  function OrgNames(rows: seq<Row>): (names: seq<Json>)
    ensures |names| <= |rows|
    ensures forall i :: 0 <= i < |names| ==> IsShownName(names[i])
    ensures forall i :: 0 <= i < |names| ==> exists j :: 0 <= j < |rows| && rows[j].namn == names[i]
  {
    if rows == [] then []
    else if IsShownName(rows[0].namn) then [rows[0].namn] + OrgNames(rows[1..])
    else OrgNames(rows[1..])
  }

  /** Every row whose name passes the filter contributes that name. */
  lemma {:induction false} ShownNamesKept(rows: seq<Row>, j: int)
    requires 0 <= j < |rows| && IsShownName(rows[j].namn)
    ensures rows[j].namn in OrgNames(rows)
  {
    if j > 0 {
      ShownNamesKept(rows[1..], j - 1);
    }
  }

  /** The view of a concatenation is the concatenation of the views: aggregate order is kept. */
  lemma {:induction false} OrgNamesAppend(a: seq<Row>, b: seq<Row>)
    ensures OrgNames(a + b) == OrgNames(a) + OrgNames(b)
  {
    if a == [] {
      assert a + b == b;
    } else {
      assert (a + b)[0] == a[0];
      assert (a + b)[1..] == a[1..] + b;
      OrgNamesAppend(a[1..], b);
    }
  }
}
