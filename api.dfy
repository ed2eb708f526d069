/**
 * The request handlers of app/main.py: `/classify`, `/classify-batch` and
 * `/export-csv`, with the module-global one-slot cache `last_batch_results`.
 *
 * The cache is owned by a `Service` object, whose field `lastBatch` is the
 * global (None until the first batch). The field `calls` counts the remote
 * calls made so far, one per classified email; the next call is call number
 * `calls`, and its response is `remote(calls, email)`. The same email may get
 * a different response on a later call, so a reused batch and a fresh
 * classification need not agree.
 */
module Api {
  import opened Wrappers
  import opened Models
  import Classifier
  import Export

  /**
   * Lines 39-42: `zip(batch.emails, results)` paired into results. `zip` stops
   * at the shorter input.
   */
  function Pair(emails: seq<string>, tagLists: seq<seq<string>>): (results: seq<ClassificationResult>)
    ensures |results| == if |emails| <= |tagLists| then |emails| else |tagLists|
    ensures forall i :: 0 <= i < |results| ==> results[i] == ClassificationResult(emails[i], tagLists[i])
  {
    if emails == [] || tagLists == [] then []
    else [ClassificationResult(emails[0], tagLists[0])] + Pair(emails[1..], tagLists[1..])
  }

  /**
   * The batch result for `emails` when the classification of email i is made
   * as remote call number `first + i`: each email paired with its own tags.
   */
  function BatchAt(remote: Classifier.Remote, first: nat, emails: seq<string>): (batch: BatchClassificationResult)
    ensures |batch.results| == |emails|
    ensures forall i :: 0 <= i < |emails| ==>
              batch.results[i] == ClassificationResult(emails[i], Classifier.ClassifyEmail(remote, first + i, emails[i]))
    ensures EmailsOf(batch.results) == emails
  {
    BatchClassificationResult(Pair(emails, Classifier.ClassifyEmails(remote, first, emails)))
  }

  /**
   * Lines 51-54: the cached batch is reused when it is set, has as many
   * results as there are emails, and holds the same email sequence. (A
   * pydantic model defines no truth value of its own, so any stored batch,
   * the empty one included, passes the `if last_batch_results` test.)
   */
  predicate CanReuse(cache: Option<BatchClassificationResult>, emails: seq<string>)
    ensures CanReuse(cache, emails) <==>
              && cache.Some?
              && |cache.value.results| == |emails|
              && forall i :: 0 <= i < |emails| ==> cache.value.results[i].email == emails[i]
  {
    var ok := cache.Some? && |cache.value.results| == |emails| && EmailsOf(cache.value.results) == emails;
    assert cache.Some? && |cache.value.results| == |emails|
           && (forall i :: 0 <= i < |emails| ==> cache.value.results[i].email == emails[i])
           ==> EmailsOf(cache.value.results) == emails;
    ok
  }

  /** The length test at line 51 adds nothing to the list equality at line 54. */
  lemma CanReuseIff(cache: Option<BatchClassificationResult>, emails: seq<string>)
    ensures CanReuse(cache, emails) <==> cache.Some? && EmailsOf(cache.value.results) == emails
  {
  }

  /** Every result that a handler can hand out: non-empty vocabulary tags. */
  ghost predicate WellTagged(results: seq<ClassificationResult>)
  {
    forall i :: 0 <= i < |results| ==>
      |results[i].tags| >= 1 &&
      forall k :: 0 <= k < |results[i].tags| ==> results[i].tags[k] in Classifier.AvailableTags
  }

  /** A fresh batch holds non-empty vocabulary tags only, whatever the remote answers. */
  lemma BatchAtWellTagged(remote: Classifier.Remote, first: nat, emails: seq<string>)
    ensures WellTagged(BatchAt(remote, first, emails).results)
  {
  }

  /** The handler state: the classifier, the call counter, and the cache `last_batch_results`. */
  class Service {
    const remote: Classifier.Remote
    var calls: nat
    var lastBatch: Option<BatchClassificationResult>

    /** A stored batch holds non-empty vocabulary tags only. */
    ghost predicate Valid()
      reads this
    {
      lastBatch.Some? ==> WellTagged(lastBatch.value.results)
    }

    /** Module load: `last_batch_results = None` (line 23). */
    constructor (remote: Classifier.Remote)
      ensures Valid()
      ensures this.remote == remote && lastBatch == None && calls == 0
    {
      this.remote := remote;
      lastBatch := None;
      calls := 0;
    }

    /** `/classify`: the input echoed verbatim with its tags; the cache is not touched. */
    method ClassifyEmail(content: string) returns (result: ClassificationResult)
      requires Valid()
      modifies this`calls
      ensures Valid()
      ensures result.email == content
      ensures result.tags == Classifier.ClassifyEmail(remote, old(calls), content)
      ensures WellTagged([result])
      ensures lastBatch == old(lastBatch) && calls == old(calls) + 1
    {
      var tags := Classifier.ClassifyEmail(remote, calls, content);
      calls := calls + 1;
      result := ClassificationResult(content, tags);
    }

    /**
     * `/classify-batch`: classify every email, then overwrite the cache. The
     * batch is `BatchAt` from the current call number, whose contract gives
     * its length and its entries.
     */
    method ClassifyEmails(emails: seq<string>) returns (batch: BatchClassificationResult)
      requires Valid()
      modifies this
      ensures Valid()
      ensures batch == BatchAt(remote, old(calls), emails)
      ensures WellTagged(batch.results)
      ensures lastBatch == Some(batch)
      ensures calls == old(calls) + |emails|
    {
      BatchAtWellTagged(remote, calls, emails);
      batch := BatchAt(remote, calls, emails);
      calls := calls + |emails|;
      lastBatch := Some(batch);
    }

    /**
     * `/export-csv`, up to the table it serialises: reuse the cached batch when
     * `CanReuse` holds, otherwise classify again through `ClassifyEmails`
     * (which overwrites the cache), then build one row per result.
     */
    method ExportCsv(emails: seq<string>) returns (rows: seq<Export.Row>)
      requires Valid()
      modifies this
      ensures Valid()
      ensures CanReuse(old(lastBatch), emails) ==>
                lastBatch == old(lastBatch) && calls == old(calls)
                && rows == Export.Rows(old(lastBatch).value.results)
      ensures !CanReuse(old(lastBatch), emails) ==>
                lastBatch == Some(BatchAt(remote, old(calls), emails)) && calls == old(calls) + |emails|
                && rows == Export.Rows(BatchAt(remote, old(calls), emails).results)
      ensures lastBatch.Some? && rows == Export.Rows(lastBatch.value.results)
      ensures |rows| == |emails|
      ensures forall i :: 0 <= i < |emails| ==> rows[i].email == emails[i]
      ensures forall i :: 0 <= i < |emails| ==>
                |Export.Split(rows[i].tags)| >= 1 &&
                forall k :: 0 <= k < |Export.Split(rows[i].tags)| ==> Export.Split(rows[i].tags)[k] in Classifier.AvailableTags
    {
      var resultsToUse: BatchClassificationResult;
      if lastBatch.Some? && |lastBatch.value.results| == |emails| {
        var storedEmails := EmailsOf(lastBatch.value.results);
        if storedEmails == emails {
          resultsToUse := lastBatch.value;
        } else {
          resultsToUse := ClassifyEmails(emails);
        }
      } else {
        resultsToUse := ClassifyEmails(emails);
      }
      rows := Export.Rows(resultsToUse.results);
      forall i | 0 <= i < |emails|
        ensures Export.Split(rows[i].tags) == resultsToUse.results[i].tags
      {
        Export.RowsFaithful(resultsToUse.results, i);
      }
    }
  }

  /**
   * The export table of a fresh batch: row i holds `emails[i]` verbatim, and
   * its "Tags" cell splits back into exactly the tags of call `first + i`.
   */
  lemma {:induction false} ExportRowsFaithful(remote: Classifier.Remote, first: nat, emails: seq<string>, i: nat)
    requires i < |emails|
    ensures |Export.Rows(BatchAt(remote, first, emails).results)| == |emails|
    ensures Export.Rows(BatchAt(remote, first, emails).results)[i].email == emails[i]
    ensures Export.Split(Export.Rows(BatchAt(remote, first, emails).results)[i].tags)
            == Classifier.ClassifyEmail(remote, first + i, emails[i])
  {
    Export.RowsFaithful(BatchAt(remote, first, emails).results, i);
  }
}
