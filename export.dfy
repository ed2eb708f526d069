/**
 * The rows `export_csv` builds before serialising (app/main.py, lines 65-71):
 * one row per result, the email verbatim and its tags joined with ", ".
 * `Split` is the inverse of the join, for tag lists drawn from the vocabulary.
 */
module Export {
  import opened Models
  import Classifier

  /** One row of the exported table: columns "Email" and "Tags". */
  datatype Row = Row(email: string, tags: string)

  /** The separator of `", ".join(...)`. */
  const Separator: string := ", "

  /** `", ".join(tags)` */
  function Join(tags: seq<string>): (s: string)
    ensures tags == [] ==> s == ""
    ensures |tags| >= 1 ==> tags[0] <= s
  {
    if tags == [] then ""
    else if |tags| == 1 then tags[0]
    else tags[0] + Separator + Join(tags[1..])
  }

  /** `s.split(", ")`: the pieces between non-overlapping separators, left to right. */
  function Split(s: string): (parts: seq<string>)
    ensures |parts| >= 1
    decreases |s|
  {
    if |s| == 0 then [""]
    else if |s| >= |Separator| && s[..|Separator|] == Separator then [""] + Split(s[|Separator|..])
    else
      var rest := Split(s[1..]);
      [[s[0]] + rest[0]] + rest[1..]
  }

  /** The rows of the export table, one per result, in order. */
  function Rows(results: seq<ClassificationResult>): (rows: seq<Row>)
    ensures |rows| == |results|
    ensures forall i :: 0 <= i < |results| ==> rows[i].email == results[i].email
  {
    if results == [] then []
    else [Row(results[0].email, Join(results[0].tags))] + Rows(results[1..])
  }

  /** No vocabulary tag contains a comma, so the joined column is unambiguous. */
  lemma VocabularyCommaFree()
    ensures forall k :: 0 <= k < |Classifier.AvailableTags| ==> ',' !in Classifier.AvailableTags[k]
  {
  }

  /** A comma-free text splits to itself. */
  lemma {:induction false} SplitCommaFree(t: string)
    requires ',' !in t
    ensures Split(t) == [t]
  {
    if |t| > 0 {
      assert ',' !in t[1..] by {
        forall k | 0 <= k < |t[1..]| ensures t[1..][k] != ',' {
          assert t[1..][k] == t[k + 1];
        }
      }
      SplitCommaFree(t[1..]);
      assert [t[0]] + t[1..] == t;
    }
  }

  /** Splitting stops at the first separator after a comma-free prefix. */
  lemma {:induction false} SplitAfterCommaFree(t: string, u: string)
    requires ',' !in t
    ensures Split(t + Separator + u) == [t] + Split(u)
  {
    if |t| == 0 {
      assert t + Separator + u == Separator + u;
      assert (Separator + u)[|Separator|..] == u;
    } else {
      assert ',' !in t[1..] by {
        forall k | 0 <= k < |t[1..]| ensures t[1..][k] != ',' {
          assert t[1..][k] == t[k + 1];
        }
      }
      SplitAfterCommaFree(t[1..], u);
      assert (t + Separator + u)[0] == t[0] != ',';
      assert (t + Separator + u)[1..] == t[1..] + Separator + u;
      assert [t[0]] + t[1..] == t;
    }
  }

  /** The "Tags" column decodes back to the tag list when no tag holds a comma. */
  lemma {:induction false} SplitJoin(tags: seq<string>)
    requires |tags| >= 1
    requires forall k :: 0 <= k < |tags| ==> ',' !in tags[k]
    ensures Split(Join(tags)) == tags
  {
    if |tags| == 1 {
      SplitCommaFree(tags[0]);
    } else {
      SplitJoin(tags[1..]);
      SplitAfterCommaFree(tags[0], Join(tags[1..]));
      assert [tags[0]] + tags[1..] == tags;
    }
  }

  /**
   * Every row holds its email verbatim and a "Tags" cell from which the tag
   * list is recovered exactly, whenever the tags are non-empty vocabulary
   * tags, as every classification result is.
   */
  lemma RowsFaithful(results: seq<ClassificationResult>, i: nat)
    requires i < |results|
    requires |results[i].tags| >= 1
    requires forall k :: 0 <= k < |results[i].tags| ==> results[i].tags[k] in Classifier.AvailableTags
    ensures Rows(results)[i].email == results[i].email
    ensures Split(Rows(results)[i].tags) == results[i].tags
  {
    RowsAt(results, i);
    VocabularyCommaFree();
    var tags := results[i].tags;
    forall k | 0 <= k < |tags| ensures ',' !in tags[k] {
      var j :| 0 <= j < |Classifier.AvailableTags| && Classifier.AvailableTags[j] == tags[k];
    }
    SplitJoin(tags);
  }

  /** Row i is built from result i alone. */
  lemma {:induction false} RowsAt(results: seq<ClassificationResult>, i: nat)
    requires i < |results|
    ensures Rows(results)[i] == Row(results[i].email, Join(results[i].tags))
  {
    if i > 0 {
      RowsAt(results[1..], i - 1);
    }
  }
}
