/**
 * The records of app/models.py. They carry no behaviour of their own: a
 * classification result pairs an email text with its tags, and a batch
 * result is an ordered sequence of those.
 */
module Models {
  /** `ClassificationResult`: the email text echoed back with its tags. */
  datatype ClassificationResult = ClassificationResult(email: string, tags: seq<string>)

  /** `BatchClassificationResult`: one result per input email, in input order. */
  datatype BatchClassificationResult = BatchClassificationResult(results: seq<ClassificationResult>)

  /** `[r.email for r in results]` */
  function EmailsOf(results: seq<ClassificationResult>): (emails: seq<string>)
    ensures |emails| == |results|
    ensures forall i :: 0 <= i < |results| ==> emails[i] == results[i].email
  {
    if results == [] then [] else [results[0].email] + EmailsOf(results[1..])
  }
}
