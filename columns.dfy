/**
 * The label mappings of the page: the `Cell` renderers of the record table,
 * the credit badge of the result panel, and the dropdown options of the form.
 */
module Columns {

  import opened Wrappers

  /** Gender column: "M" reads "Male", anything else "Female". */
  function GenderCell(v: string): (text: string)
    ensures text == "Male" <==> v == "M"
    ensures text == "Male" || text == "Female"
  {
    if v == "M" then "Male" else "Female"
  }

  /** Job and Married columns: "Y" reads "Yes", anything else "No". */
  function YesNoCell(v: string): (text: string)
    ensures text == "Yes" <==> v == "Y"
    ensures text == "Yes" || text == "No"
  {
    if v == "Y" then "Yes" else "No"
  }

  /** Salary column: the seven brackets; any other code renders nothing. */
  function SalaryCell(code: int): (text: Option<string>)
    ensures text.Some? <==> 0 <= code <= 6
  {
    match code
    case 0 => Some("0-250")
    case 1 => Some("251-500")
    case 2 => Some("501-750")
    case 3 => Some("751-1000")
    case 4 => Some("1001-1250")
    case 5 => Some("1251-1500")
    case 6 => Some("1501+")
    case _ => None
  }

  /** Children column: 0, 1-2, 3-4, and "5+" for every other code. */
  function ChildrenCell(code: int): (text: string)
    ensures text == "5+" <==> code != 0 && code != 1 && code != 2
  {
    match code
    case 0 => "0"
    case 1 => "1-2"
    case 2 => "3-4"
    case _ => "5+"
  }

  /** Type Credit column: 1 and 2 are approvals, every other code "Rejected". */
  function TypeCreditCell(code: int): (text: string)
    ensures text == "Approved Regular" <==> code == 1
    ensures text == "Approved Gold" <==> code == 2
    ensures text == "Rejected" <==> code != 1 && code != 2
  {
    match code
    case 1 => "Approved Regular"
    case 2 => "Approved Gold"
    case _ => "Rejected"
  }

  /** The credit badge of a result row: shown only for the codes 0, 1 and 2. */
  function CreditBadge(code: int): (badge: Option<string>)
    ensures badge.Some? <==> 0 <= code <= 2
    ensures code == 1 || code == 2 ==> badge == Some(TypeCreditCell(code))
    ensures code == 0 ==> badge == Some("Not Approved") && TypeCreditCell(code) == "Rejected"
  {
    if code == 0 then Some("Not Approved")
    else if code == 1 then Some("Approved Regular")
    else if code == 2 then Some("Approved Gold")
    else None
  }

  /** The salary dropdown: (value, text) pairs, the first a placeholder. */
  const SalaryOptions: seq<(int, string)> := [
    (-1, "Salary USD"), (0, "0-250"), (1, "251-500"), (2, "501-750"),
    (3, "751-1000"), (4, "1001-1250"), (5, "1251-1500"), (6, "1501+")
  ]

  /** The children dropdown: (value, text) pairs, the first a placeholder. */
  const ChildrenOptions: seq<(int, string)> := [
    (-1, "Child"), (0, "0"), (1, "1-2"), (2, "3-4"), (3, "5+")
  ]

  /**
   * A salary chosen in the form is shown in the table under the text the
   * dropdown gave it, and the placeholder value has no label.
   */
  lemma SalaryOptionsMatchCells()
    ensures SalaryCell(SalaryOptions[0].0) == None
    ensures forall i :: 1 <= i < |SalaryOptions| ==> SalaryCell(SalaryOptions[i].0) == Some(SalaryOptions[i].1)
  {
    forall i | 1 <= i < |SalaryOptions|
      ensures SalaryCell(SalaryOptions[i].0) == Some(SalaryOptions[i].1)
    {
      assert SalaryOptions[i].0 == i - 1;
    }
  }

  /** Likewise for the number of children. */
  lemma ChildrenOptionsMatchCells()
    ensures forall i :: 1 <= i < |ChildrenOptions| ==> ChildrenCell(ChildrenOptions[i].0) == ChildrenOptions[i].1
  {
    forall i | 1 <= i < |ChildrenOptions|
      ensures ChildrenCell(ChildrenOptions[i].0) == ChildrenOptions[i].1
    {
      assert ChildrenOptions[i].0 == i - 1;
    }
  }

  /** Distinct salary brackets read differently. */
  lemma SalaryCellInjective(a: int, b: int)
    requires 0 <= a <= 6 && 0 <= b <= 6 && a != b
    ensures SalaryCell(a) != SalaryCell(b)
  {
    var labels := ["0-250", "251-500", "501-750", "751-1000", "1001-1250", "1251-1500", "1501+"];
    assert SalaryCell(a) == Some(labels[a]) && SalaryCell(b) == Some(labels[b]);
    assert labels[a][..2] != labels[b][..2] || labels[a][2..] != labels[b][2..];
  }

}
