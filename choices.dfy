/**
  Choice tables: each enumerated column stores a code and shows the label paired with it.
  `Label` is what `get_<field>_display()` returns: the label paired with the stored code,
  or the stored value itself when no pair has it (a code outside the table is shown as
  it is stored). `Label` takes the first matching pair, where Django's lookup in
  `dict(flatchoices)` would take the last; the two agree on tables without repeated
  codes, and `OutbreakModels.ChoiceTablesDistinct` and `UpdateModels.UpdateTypeLabels`
  show that every table of the model is one.
 */
module Choices {

  type ChoiceTable = seq<(string, string)>

  function Label(table: ChoiceTable, code: string): string
  {
    if table == [] then code
    else if table[0].0 == code then table[0].1
    else Label(table[1..], code)
  }

  /** No two pairs of the table share a code. */
  predicate DistinctCodes(table: ChoiceTable)
  {
    forall i, j :: 0 <= i < j < |table| ==> table[i].0 != table[j].0
  }

  predicate Listed(table: ChoiceTable, code: string)
  {
    exists i :: 0 <= i < |table| && table[i].0 == code
  }

  /** In a table without repeated codes every listed code shows its own paired label. */
  lemma {:induction false} LabelOfListed(table: ChoiceTable, i: nat)
    requires DistinctCodes(table) && i < |table|
    ensures Label(table, table[i].0) == table[i].1
  {
    if i > 0 {
      LabelOfListed(table[1..], i - 1);
    }
  }

  /** A code the table does not list is shown unchanged. */
  lemma {:induction false} LabelOfUnlisted(table: ChoiceTable, code: string)
    requires !Listed(table, code)
    ensures Label(table, code) == code
  {
    if table != [] {
      assert table[0].0 != code;
      assert !Listed(table[1..], code) by {
        forall i | 0 <= i < |table[1..]| ensures table[1..][i].0 != code {
          assert table[i + 1].0 != code;
        }
      }
      LabelOfUnlisted(table[1..], code);
    }
  }
}
