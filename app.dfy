/**
 * The page component `CCApp`: the record list, the form selections, the
 * pending query, the ranked result and the selected record, with the
 * handlers and effects that update them.
 */
module App {

  import opened Wrappers
  import opened Records
  import opened KnnSort
  import opened Neyman
  import opened Columns

  /** The gender toggle as stored: "M" when on, "F" when off. */
  function EncodeGender(male: bool): string
  {
    if male then "M" else "F"
  }

  /** A checkbox as stored: "Y" when checked, "N" otherwise. */
  function EncodeFlag(checked: bool): string
  {
    if checked then "Y" else "N"
  }

  /** A query whose symbolic attributes use the page's encodings. */
  predicate WellEncoded(q: Query)
  {
    && (q.gender == "M" || q.gender == "F")
    && (q.job == "Y" || q.job == "N")
    && (q.married == "Y" || q.married == "N")
  }

  /** `_newData` of `handleCalculate`: the form selections as a query. */
  function BuildQuery(age: int, gender: bool, salary: int, job: bool, married: bool, numChildren: int): (q: Query)
    ensures WellEncoded(q)
    ensures q.age == age && q.salary == salary && q.numChildren == numChildren
    ensures q.gender == "M" <==> gender
    ensures q.job == "Y" <==> job
    ensures q.married == "Y" <==> married
  {
    Query(age, EncodeGender(gender), salary, EncodeFlag(job), EncodeFlag(married), numChildren)
  }

  /**
   * The encodings read back, in the table's columns, as the form showed
   * them: the gender button's caption and the checkboxes' states.
   */
  lemma QueryLabelsRoundTrip(age: int, gender: bool, salary: int, job: bool, married: bool, numChildren: int)
    ensures GenderCell(BuildQuery(age, gender, salary, job, married, numChildren).gender)
         == (if gender then "Male" else "Female")
    ensures YesNoCell(BuildQuery(age, gender, salary, job, married, numChildren).job)
         == (if job then "Yes" else "No")
    ensures YesNoCell(BuildQuery(age, gender, salary, job, married, numChildren).married)
         == (if married then "Yes" else "No")
  {
  }

  /** `result[0]?.ID ?? -1`: the record selected by default. */
  function DefaultSelection(result: seq<Ranked>): (id: int)
    ensures result != [] ==> id == result[0].rec.id
    ensures result == [] ==> id == -1
  {
    if result == [] then -1 else result[0].rec.id
  }

  /** `data[i]` is the first record whose ID is `id`. */
  predicate FirstWithId(data: seq<Record>, i: int, id: int)
  {
    && 0 <= i < |data|
    && data[i].id == id
    && forall j :: 0 <= j < i ==> data[j].id != id
  }

  /** `data.find((d) => d.ID === id)`. */
  function Find(data: seq<Record>, id: int): (r: Option<Record>)
    ensures r.None? <==> forall i :: 0 <= i < |data| ==> data[i].id != id
    ensures r.Some? ==> exists i :: FirstWithId(data, i, id) && data[i] == r.value
  {
    if data == [] then None
    else if data[0].id == id then
      assert FirstWithId(data, 0, id);
      Some(data[0])
    else
      var r := Find(data[1..], id);
      assert forall i :: 1 <= i < |data| ==> data[i] == data[1..][i - 1];
      assert r.Some? ==> exists i :: FirstWithId(data, i, id) && data[i] == r.value by {
        if r.Some? {
          var k :| FirstWithId(data[1..], k, id) && data[1..][k] == r.value;
          assert FirstWithId(data, k + 1, id);
        }
      }
      r
  }

  /** `?.type_credit ?? -1`: the credit type recorded for `id`, or -1. */
  function TypeCreditOf(data: seq<Record>, id: int): int
  {
    match Find(data, id)
    case None => -1
    case Some(d) => d.typeCredit
  }

  /** `result.slice(0, 5)`: the rows the result panel shows. */
  function Shown(result: seq<Ranked>): (shown: seq<Ranked>)
    ensures |shown| == if |result| < 5 then |result| else 5
    ensures shown == result[..|shown|]
  {
    if |result| < 5 then result else result[..5]
  }

  /** The rows shown are the best matches: no hidden entry scores higher. */
  lemma ShownAreBest(data: seq<Record>, q: Query)
    ensures forall i, j :: 0 <= i < |Shown(Ranking(data, q))| <= j < |Ranking(data, q)| ==>
      Ranking(data, q)[i].knn >= Ranking(data, q)[j].knn
  {
    RankingOrdered(data, q);
  }

  predicate UniqueIds(data: seq<Record>)
  {
    forall i, j :: 0 <= i < j < |data| ==> data[i].id != data[j].id
  }

  /**
   * The suggested classification: when IDs are distinct, the credit type
   * submitted by default is the top-ranked record's own.
   */
  lemma DefaultCreditIsTopRecords(data: seq<Record>, q: Query)
    requires data != [] && UniqueIds(data)
    ensures Ranking(data, q) != []
    ensures TypeCreditOf(data, DefaultSelection(Ranking(data, q))) == Ranking(data, q)[0].rec.typeCredit
  {
    TopIsBestMatch(data, q);
    var top := Ranking(data, q)[0].rec;
    var k :| 0 <= k < |data| && data[k] == top;
    var r := Find(data, top.id);
    assert r.Some?;
    var i :| FirstWithId(data, i, top.id) && data[i] == r.value;
    assert data[i].id == data[k].id;
    assert i == k;
  }

  /** The state of the page. */
  class CCApp {
    var data: seq<Record>
    var age: int
    var gender: bool
    var salary: int
    var job: bool
    var married: bool
    var numChildren: int
    var result: seq<Ranked>
    var newData: Option<Query>
    var selectedID: int
    /** The record list `result` was last computed from. */
    ghost var rankedOver: seq<Record>

    /** `result` is the ranking of the pending query, and empty without one. */
    ghost predicate Valid()
      reads this
    {
      && (newData.None? ==> result == [])
      && (newData.Some? ==> WellEncoded(newData.value) && result == Ranking(rankedOver, newData.value))
    }

    /** Age, salary and number of children are chosen (-1 means not yet). */
    predicate AllChosen()
      reads this
    {
      age != -1 && salary != -1 && numChildren != -1
    }

    function CurrentQuery(): Query
      reads this
    {
      BuildQuery(age, gender, salary, job, married, numChildren)
    }

    /** The initial state: nothing loaded, nothing chosen. */
    constructor ()
      ensures Valid()
      ensures data == [] && result == [] && newData == None && selectedID == -1
      ensures age == -1 && salary == -1 && numChildren == -1
      ensures !gender && !job && !married
    {
      data, result, newData, selectedID := [], [], None, -1;
      age, salary, numChildren := -1, -1, -1;
      gender, job, married := false, false, false;
      rankedOver := [];
    }

    /** `fetchData`: the record list the store returned replaces `data`. */
    method Load(fetched: seq<Record>)
      requires Valid()
      modifies this`data
      ensures Valid() && data == fetched
    {
      data := fetched;
    }

    /**
     * `handleCalculate`: with age, salary and number of children chosen,
     * build the query and rank `data` against it; otherwise do nothing.
     */
    method Calculate() returns (recomputed: bool)
      requires Valid()
      modifies this`newData, this`result, this`rankedOver
      ensures Valid()
      ensures recomputed <==> AllChosen()
      ensures !recomputed ==> newData == old(newData) && result == old(result)
      ensures recomputed ==> newData == Some(CurrentQuery()) && result == Ranking(data, CurrentQuery())
    {
      if age == -1 || salary == -1 || numChildren == -1 {
        return false;
      }
      var q := BuildQuery(age, gender, salary, job, married, numChildren);
      newData := Some(q);
      result := SortWithNeyman(data, q);
      rankedOver := data;
      recomputed := true;
    }

    /** The effect on `result`: select the top-ranked record, or -1. */
    method SelectDefault()
      modifies this`selectedID
      ensures selectedID == DefaultSelection(result)
    {
      selectedID := if |result| > 0 then result[0].rec.id else -1;
    }

    /** The effect on the form fields: recalculate, then reselect. */
    method Refresh()
      requires Valid()
      modifies this`newData, this`result, this`rankedOver, this`selectedID
      ensures Valid() && Recalculated()
    {
      var recomputed := Calculate();
      if recomputed {
        SelectDefault();
      }
    }

    /**
     * What a change of a form field leads to: with the three dropdowns
     * chosen, a fresh query, its ranking, and its top record selected;
     * otherwise no change at all.
     */
    twostate predicate Recalculated()
      reads this
    {
      if AllChosen() then
        && newData == Some(CurrentQuery())
        && result == Ranking(data, CurrentQuery())
        && selectedID == DefaultSelection(result)
      else
        && newData == old(newData)
        && result == old(result)
        && selectedID == old(selectedID)
    }

    /** The age dropdown; an unchanged value re-renders nothing. */
    method ChooseAge(v: int)
      requires Valid()
      modifies this`age, this`newData, this`result, this`rankedOver, this`selectedID
      ensures Valid() && age == v
      ensures old(age) == v ==> unchanged(this)
      ensures old(age) != v ==> Recalculated()
    {
      if v != age {
        age := v;
        Refresh();
      }
    }

    /** The gender button flips the selection. */
    method ToggleGender()
      requires Valid()
      modifies this`gender, this`newData, this`result, this`rankedOver, this`selectedID
      ensures Valid() && gender == !old(gender)
      ensures Recalculated()
    {
      gender := !gender;
      Refresh();
    }

    /** The salary dropdown. */
    method ChooseSalary(v: int)
      requires Valid()
      modifies this`salary, this`newData, this`result, this`rankedOver, this`selectedID
      ensures Valid() && salary == v
      ensures old(salary) == v ==> unchanged(this)
      ensures old(salary) != v ==> Recalculated()
    {
      if v != salary {
        salary := v;
        Refresh();
      }
    }

    /** The job checkbox. */
    method SetJob(checked: bool)
      requires Valid()
      modifies this`job, this`newData, this`result, this`rankedOver, this`selectedID
      ensures Valid() && job == checked
      ensures old(job) == checked ==> unchanged(this)
      ensures old(job) != checked ==> Recalculated()
    {
      if checked != job {
        job := checked;
        Refresh();
      }
    }

    /** The married checkbox. */
    method SetMarried(checked: bool)
      requires Valid()
      modifies this`married, this`newData, this`result, this`rankedOver, this`selectedID
      ensures Valid() && married == checked
      ensures old(married) == checked ==> unchanged(this)
      ensures old(married) != checked ==> Recalculated()
    {
      if checked != married {
        married := checked;
        Refresh();
      }
    }

    /** The children dropdown. */
    method ChooseChildren(v: int)
      requires Valid()
      modifies this`numChildren, this`newData, this`result, this`rankedOver, this`selectedID
      ensures Valid() && numChildren == v
      ensures old(numChildren) == v ==> unchanged(this)
      ensures old(numChildren) != v ==> Recalculated()
    {
      if v != numChildren {
        numChildren := v;
        Refresh();
      }
    }

    /** A row's Select button. */
    method Select(id: int)
      modifies this`selectedID
      ensures selectedID == id
    {
      selectedID := id;
    }

    /**
     * `handleSubmitNewData`: without a pending query nothing is sent.
     * Otherwise the query goes out with the credit type of the first record
     * whose ID is `selectedID` (or -1), and the record the store answers
     * with (`None` when the request fails) is appended to `data`.
     */
    method Submit(response: Option<Record>) returns (sent: Option<Submission>)
      requires Valid()
      modifies this`data
      ensures Valid()
      ensures newData.None? ==> sent.None?
      ensures newData.Some? ==> sent == Some(Submission(newData.value, TypeCreditOf(old(data), selectedID)))
      ensures data == if sent.Some? && response.Some? then old(data) + [response.value] else old(data)
    {
      if newData.None? {
        return None;
      }
      sent := Some(Submission(newData.value, TypeCreditOf(data, selectedID)));
      if response.Some? {
        data := data + [response.value];
      }
    }
  }

  /**
   * Setting a dropdown back to its placeholder does not withdraw the
   * pending query: the last complete query is still submitted, and with an
   * empty record list it goes out with credit type -1.
   */
  method SubmitAfterReset() returns (sent: Option<Submission>)
    ensures sent == Some(Submission(Query(1, "F", 2, "N", "N", 0), -1))
  {
    var page := new CCApp();
    page.ChooseAge(1);
    page.ChooseSalary(2);
    page.ChooseChildren(0);
    page.ChooseAge(-1);
    sent := page.Submit(None);
  }

}
