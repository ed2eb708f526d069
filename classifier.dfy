/**
 * The tag post-processing of `EmailClassifier` (app/services/classifier.py).
 *
 * The remote generative-language call is not modelled as HTTP or JSON: its
 * outcome is a `Response` value that records exactly the distinctions the
 * Python code makes between the POST and the validated tag list. The prompt
 * is a function of the email text alone. The remote service need not answer
 * the same email the same way twice, so it is a function of the call's number
 * (counted from 0 in the order the calls are made) and the email text.
 */
module Classifier {
  import opened Wrappers

  /** `AVAILABLE_TAGS`: the fixed, ordered twelve-label vocabulary. */
  const AvailableTags: seq<string> := [
    "Bug Report",
    "Billing Issue",
    "Praise",
    "Complaint",
    "Feature Request",
    "Technical Support",
    "Sales Inquiry",
    "Security Concern",
    "Spam/Irrelevant",
    "Refund Request",
    "Shipping/Delivery",
    "Other"
  ]

  /** The tag returned on every failure path, and when no returned tag is valid. */
  const Fallback: string := "Other"

  /**
   * One value yielded by iterating over `parsed_result["tags"]`: the elements of
   * a JSON list, the one-character strings of a JSON string, or the keys of a
   * JSON object. Numbers, booleans, `null`, lists and objects among the
   * elements are `NonStr`; none of them is equal to a vocabulary string.
   */
  datatype JsonItem = Str(s: string) | NonStr

  /** What `json.loads(generated_text)["tags"]` and its iteration come to. */
  datatype Decoded =
    | NotJson          // json.loads raises JSONDecodeError (or TypeError: the text is not a str)
    | NotAnObject      // the top-level value is a list, string, number or null: `["tags"]` raises TypeError
    | NoTagsKey        // an object without a "tags" key: KeyError
    | TagsNotIterable  // "tags" is a number, boolean or null: iterating raises TypeError
    | Tags(items: seq<JsonItem>)

  /** The body of a status-200 response, after `await response.json()`. */
  datatype Body =
    | BodyNotJson        // response.json() raises
    | EnvelopeMalformed  // the `.get(...)[0].get(...)` chain raises: an empty list (IndexError), a non-dict (AttributeError)
    | Generated(parsed: Option<Decoded>)  // None: no "text" field, so the default "{}" is parsed

  /** The outcome of the single POST to the remote service. */
  datatype Response =
    | TransportError     // aiohttp raises before a status is read
    | Http(status: int, body: Body)

  /** The remote service: the response to call number n, made for an email text. */
  type Remote = (nat, string) -> Response

  /** `json.loads("{}")` is an empty object, which has no "tags" key. */
  const DefaultText: Decoded := NoTagsKey

  /** The condition of the comprehension at line 95: exact, case-sensitive membership. */
  predicate IsValidItem(x: JsonItem)
    ensures IsValidItem(x) <==> exists k :: 0 <= k < |AvailableTags| && x == Str(AvailableTags[k])
  {
    x.Str? && x.s in AvailableTags
  }

  /**
   * `[tag for tag in parsed_result["tags"] if tag in AVAILABLE_TAGS]`: the
   * vocabulary strings among the items, in their order, duplicates kept.
   */
  function ValidTags(items: seq<JsonItem>): (r: seq<string>)
    ensures |r| <= |items|
    ensures forall k :: 0 <= k < |r| ==> r[k] in AvailableTags
    ensures r == [] <==> forall i :: 0 <= i < |items| ==> !IsValidItem(items[i])
  {
    if items == [] then []
    else
      var rest := ValidTags(items[1..]);
      assert forall i :: 1 <= i < |items| ==> items[i] == items[1..][i - 1];
      if IsValidItem(items[0]) then [items[0].s] + rest else rest
  }

  /**
   * The tag items reached at line 95, or None when the response takes one of
   * the early returns (lines 77-80, 106-108, 110-112).
   */
  function TagItems(resp: Response): (r: Option<seq<JsonItem>>)
    ensures r.Some? <==> resp.Http? && resp.status == 200 && resp.body.Generated?
                         && resp.body.parsed.Some? && resp.body.parsed.value.Tags?
  {
    match resp
    case TransportError => None
    case Http(status, body) =>
      if status != 200 then None
      else match body
        case BodyNotJson => None
        case EnvelopeMalformed => None
        case Generated(parsed) =>
          match (if parsed.None? then DefaultText else parsed.value)
          case Tags(items) => Some(items)
          case _ => None
  }

  /** Lines 95-100: the valid tags, or `["Other"]` when there are none. */
  function WithFallback(items: seq<JsonItem>): (tags: seq<string>)
    ensures |tags| >= 1
    ensures forall k :: 0 <= k < |tags| ==> tags[k] in AvailableTags
    ensures (exists i :: 0 <= i < |items| && IsValidItem(items[i])) ==> tags == ValidTags(items)
    ensures (forall i :: 0 <= i < |items| ==> !IsValidItem(items[i])) ==> tags == [Fallback]
  {
    var validated := ValidTags(items);
    if validated == [] then [Fallback] else validated
  }

  /** `EmailClassifier.classify_email`, from the remote response onwards. */
  function ClassifyResponse(resp: Response): (tags: seq<string>)
    ensures |tags| >= 1
    ensures forall k :: 0 <= k < |tags| ==> tags[k] in AvailableTags
    ensures TagItems(resp).None? ==> tags == [Fallback]
    ensures TagItems(resp).Some? ==> tags == WithFallback(TagItems(resp).value)
  {
    match TagItems(resp)
    case None => [Fallback]
    case Some(items) => WithFallback(items)
  }

  /** `classify_email(email_content)["tags"]`, made as remote call number `call`. */
  function ClassifyEmail(remote: Remote, call: nat, email: string): (tags: seq<string>)
    ensures |tags| >= 1
    ensures forall k :: 0 <= k < |tags| ==> tags[k] in AvailableTags
  {
    ClassifyResponse(remote(call, email))
  }

  /**
   * `classify_emails`: one classification per email, the i-th made as call
   * number `first + i`. `asyncio.gather` returns the results in the order of
   * the tasks, whatever order they finish in.
   */
  function ClassifyEmails(remote: Remote, first: nat, emails: seq<string>): (results: seq<seq<string>>)
    ensures |results| == |emails|
    ensures forall i :: 0 <= i < |emails| ==> results[i] == ClassifyEmail(remote, first + i, emails[i])
    decreases |emails|
  {
    if emails == [] then []
    else [ClassifyEmail(remote, first, emails[0])] + ClassifyEmails(remote, first + 1, emails[1..])
  }

  /** The vocabulary has twelve distinct labels, and the fallback is the last of them. */
  lemma VocabularyFacts()
    ensures |AvailableTags| == 12
    ensures AvailableTags[11] == Fallback
    ensures forall i, j :: 0 <= i < j < |AvailableTags| ==> AvailableTags[i] != AvailableTags[j]
  {
  }

  /**
   * The early returns that do not depend on the status or on the parse: a
   * transport exception, a body that is not JSON, an envelope chain that
   * raises, and a missing "text" (parsed as "{}") all yield exactly `["Other"]`.
   */
  lemma FallbackPaths()
    ensures ClassifyResponse(TransportError) == [Fallback]
    ensures ClassifyResponse(Http(200, BodyNotJson)) == [Fallback]
    ensures ClassifyResponse(Http(200, EnvelopeMalformed)) == [Fallback]
    ensures ClassifyResponse(Http(200, Generated(None))) == [Fallback]
  {
  }

  /** Lines 77-80: any status other than 200 yields exactly `["Other"]`, whatever the body. */
  lemma NonSuccessStatus(status: int, body: Body)
    requires status != 200
    ensures ClassifyResponse(Http(status, body)) == [Fallback]
  {
  }

  /** Lines 106-112: every parse outcome other than iterable tags yields exactly `["Other"]`. */
  lemma UnusableParse(decoded: Decoded)
    requires !decoded.Tags?
    ensures ClassifyResponse(Http(200, Generated(Some(decoded)))) == [Fallback]
  {
  }

  /**
   * A 200 response whose tags hold no vocabulary string, the empty list
   * included, yields exactly `["Other"]`; otherwise the valid tags themselves.
   */
  lemma TagsOutcome(items: seq<JsonItem>)
    ensures (forall i :: 0 <= i < |items| ==> !IsValidItem(items[i])) ==>
              ClassifyResponse(Http(200, Generated(Some(Tags(items))))) == [Fallback]
    ensures (exists i :: 0 <= i < |items| && IsValidItem(items[i])) ==>
              ClassifyResponse(Http(200, Generated(Some(Tags(items))))) == ValidTags(items)
  {
  }

  // ---------------------------------------------------------------------------
  // Properties of the validation filter
  // ---------------------------------------------------------------------------

  /** The filter distributes over concatenation: relative order is kept. */
  lemma {:induction false} ValidTagsAppend(a: seq<JsonItem>, b: seq<JsonItem>)
    ensures ValidTags(a + b) == ValidTags(a) + ValidTags(b)
  {
    if a == [] {
      assert a + b == b;
    } else {
      assert (a + b)[1..] == a[1..] + b;
      ValidTagsAppend(a[1..], b);
    }
  }

  /** A single item is kept exactly when it is a vocabulary string. */
  lemma ValidTagsSingle(x: JsonItem)
    ensures ValidTags([x]) == if IsValidItem(x) then [x.s] else []
  {
  }

  /**
   * Duplicates are kept: each vocabulary tag occurs in the result as often as
   * it occurs in the items, and nothing outside the vocabulary occurs at all.
   */
  lemma {:induction false} ValidTagsCounts(items: seq<JsonItem>, t: string)
    ensures multiset(ValidTags(items))[t] == if t in AvailableTags then multiset(items)[Str(t)] else 0
  {
    if items != [] {
      ValidTagsCounts(items[1..], t);
      assert items == [items[0]] + items[1..];
      assert multiset(items) == multiset([items[0]]) + multiset(items[1..]);
    }
  }

  /** Every valid tag returned by the remote service is kept in the result. */
  lemma {:induction false} ValidTagsComplete(items: seq<JsonItem>, i: nat)
    requires i < |items| && IsValidItem(items[i])
    ensures items[i].s in ValidTags(items)
  {
    if i > 0 {
      ValidTagsComplete(items[1..], i - 1);
    }
  }

  /** Membership is case-sensitive string equality: "bug report" is dropped. */
  lemma ExactMembership()
    ensures ValidTags([Str("bug report"), Str("Bug Report"), NonStr, Str("Praise ")]) == ["Bug Report"]
  {
  }
}
