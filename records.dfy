/**
 * The entities of the credit-application page: a stored record, the query
 * the form builds, the query promoted with a chosen credit type, and the two
 * annotated shapes the ranker produces.
 */
module Records {

  import opened Wrappers

  /** A stored credit application (the `data` table): the server assigns `id`. */
  datatype Record = Record(
    id: int,
    age: int,
    gender: string,      // "M" or "F"
    salary: int,
    job: string,         // "Y" or "N"
    married: string,     // "Y" or "N"
    numChildren: int,
    typeCredit: int      // 0 rejected, 1 approved regular, 2 approved gold
  )

  /** `NewData`: a record without `ID` and `type_credit`. */
  datatype Query = Query(
    age: int,
    gender: string,
    salary: int,
    job: string,
    married: string,
    numChildren: int
  )

  /** `NewDataWithTypeCredit`: the body sent to the store on submission. */
  datatype Submission = Submission(query: Query, typeCredit: int)

  /** `DataWithKNN`: a stored record, unchanged, with its match fraction. */
  datatype Scored = Scored(rec: Record, knn: real)

  /**
   * `DataWithKNNAndNeyman`: a scored record with its Neyman similarity;
   * `None` where the formula divides by zero (no attribute matches).
   */
  datatype Ranked = Ranked(rec: Record, knn: real, neyman: Option<real>)
}
