# Email categorizer: tag validation and the batch-result cache

This project models the two pieces of logic that sit around the remote
generative-language call in the email categorizer service:

1. **Tag post-processing in `EmailClassifier`** (`app/services/classifier.py`),
   module `Classifier`. The twelve-label vocabulary `AVAILABLE_TAGS` is a
   constant. Every outcome of the remote call is reduced to a tag list. The
   outcomes are a transport exception, a status other than 200, a body that is
   not JSON, an envelope lookup chain that raises, a missing `text` field, text
   that is not JSON, JSON that is not an object, an object without `tags`, a
   `tags` value that cannot be iterated, and iterable tags. Valid tags are
   filtered by exact membership, keeping order and duplicates. An empty result
   becomes `["Other"]`. `classify_emails` is an ordered map over the emails.
2. **Request handlers and the one-slot batch cache** (`app/main.py`), module
   `Api`. `/classify` echoes the email with its tags. `/classify-batch` pairs
   each email with its tags and overwrites the cache. `/export-csv` either
   reuses the cache or reclassifies, then builds one `(Email, Tags)` row per
   result. `Service` is a class whose field `lastBatch` is the module-global
   `last_batch_results`. Its field `calls` counts the remote calls made so far.

Module `Models` holds the records of `app/models.py`. Module `Export` holds
the row construction with `", ".join`, and a `Split` that inverts it for
vocabulary tags. Module `Wrappers` holds `Option`.

The remote service is a parameter. It maps a call number and an email text
to an abstract `Response`. The prompt is built from the email text alone, so
this function stands for prompt construction plus the POST. Calls are numbered
from 0 in the order the service makes them, and the n-th call gets
`remote(n, email)`. The same email can therefore get a different answer on a
later call, as with the real generative service. As a result, a reused batch
and a fresh classification need not agree. `ExportCsv` says which one the rows
come from, and how many calls were made.

Python's `if last_batch_results` test is true for any stored batch. A pydantic
model defines no truth value of its own, so this includes an empty batch.
Exporting the empty email list right after an empty batch therefore reuses the
cache (`Api.CanReuse`).

## Model

| member | source | states |
|---|---|---|
| `Classifier.VocabularyFacts` | app/services/classifier.py:10-23 | `AVAILABLE_TAGS` has twelve distinct labels, and the fallback `"Other"` is the last of them (line 22), so the fallback itself passes validation. |
| `Classifier.IsValidItem` | app/services/classifier.py:95 | An item passes the filter exactly when it is a string equal to one of the twelve vocabulary labels. |
| `Classifier.ValidTags` | app/services/classifier.py:95 | The result has only vocabulary tags and is no longer than the input. It is empty exactly when no item is a vocabulary string (both directions). |
| `Classifier.TagItems` | app/services/classifier.py:76-95 | The tag items reach the filter exactly when the status is 200, the envelope yields a `text`, and that text parses to iterable tags. Every other outcome is an early return. |
| `Classifier.WithFallback` | app/services/classifier.py:95-100 | The result is non-empty and made only of vocabulary tags. It is the filtered tags when at least one item is valid, and exactly `["Other"]` when none is. |
| `Classifier.ClassifyResponse` | app/services/classifier.py:63-112 | On every path the result is non-empty and a subset of the vocabulary. Every early-return path gives exactly `["Other"]`. The tag path gives the filtered tags with the fallback. |
| `Classifier.ClassifyEmail` | app/services/classifier.py:30-112 | For any email, any call number and any remote behaviour, the tag list is non-empty and every tag is in `AVAILABLE_TAGS`. |
| `Classifier.ClassifyEmails` | app/services/classifier.py:114-118 | Exactly one result per email. Result i is the classification of email i, made as its own remote call, so input order is kept. |
| `Classifier.FallbackPaths` | app/services/classifier.py:76-112 | Each of these gives exactly `["Other"]`: a transport exception, a body that is not JSON, a failing envelope chain, and a missing `text` (the default `"{}"` has no `tags`). |
| `Classifier.NonSuccessStatus` | app/services/classifier.py:77-80 | Any status other than 200 gives exactly `["Other"]`, whatever the body. |
| `Classifier.UnusableParse` | app/services/classifier.py:87-112 | Each parse outcome other than iterable tags gives exactly `["Other"]`: text that is not JSON, JSON that is not an object, no `tags` key, and a `tags` value that cannot be iterated. |
| `Classifier.TagsOutcome` | app/services/classifier.py:95-100 | Tags that are all outside the vocabulary, or an empty list, give exactly `["Other"]`. Otherwise the result is exactly the valid subsequence. |
| `Classifier.ValidTagsAppend` | app/services/classifier.py:95 | Filtering distributes over concatenation, so valid tags keep their relative order. |
| `Classifier.ValidTagsSingle` | app/services/classifier.py:95 | One item is kept exactly when it is a vocabulary string. |
| `Classifier.ValidTagsCounts` | app/services/classifier.py:95 | Each vocabulary tag occurs in the result as many times as in the response, so duplicates are kept. A string outside the vocabulary never occurs. |
| `Classifier.ValidTagsComplete` | app/services/classifier.py:95 | Every valid tag in the response appears in the result. |
| `Classifier.ExactMembership` | app/services/classifier.py:95 | Membership is case- and space-sensitive: `"bug report"` and `"Praise "` are dropped, and `"Bug Report"` is kept. |
| `Models.EmailsOf` | app/main.py:53 | The stored email list has one entry per result, and entry i is result i's email. |
| `Api.Pair` | app/main.py:39-42 | The `zip` comprehension has the length of the shorter input. Entry i pairs email i with tag list i. |
| `Api.BatchAt` | app/main.py:37-43 | The batch result has the same length as the input. Entry i pairs `emails[i]` with the tags of its own remote call, so the email sequence read back is the input. |
| `Api.CanReuse` | app/main.py:51-54 | The reuse test holds exactly when the cache is set, the lengths match, and the cached emails equal the input element-wise. |
| `Api.CanReuseIff` | app/main.py:51-54 | The length test is implied by the list equality: reuse holds exactly when the cache is set and its email list equals the input. |
| `Api.Service.constructor` | app/main.py:23 | The cache starts empty (`None`), and no remote call has been made yet. |
| `Api.Service.ClassifyEmail` | app/main.py:29-32 | `/classify` echoes the input verbatim as `email`, paired with the tags of the next remote call. It makes exactly one call and leaves the cache unchanged. |
| `Api.Service.ClassifyEmails` | app/main.py:34-44 | `/classify-batch` returns one result per input, in order, with valid tags from one remote call per email. The cache then holds exactly this batch, replacing any earlier one. |
| `Api.Service.ExportCsv` | app/main.py:46-71 | When the reuse test holds, the cached batch is used: the cache is unchanged, no remote call is made, and the rows are built from the cached results. Otherwise the emails are reclassified with one new call per email, and the cache holds the new batch. In both cases there is one row per email, in order, with the email verbatim and a Tags cell that splits into a non-empty list of vocabulary tags. |
| `Export.Join` | app/main.py:68 | Joining no tags gives the empty string. Otherwise the joined text starts with the first tag. |
| `Export.Split` | app/main.py:68 | Splitting on `", "` always gives at least one piece. This is the inverse used to state what the Tags cell holds. |
| `Export.Rows` | app/main.py:65-71 | One row per result, in order, with the email verbatim. |
| `Export.RowsAt` | app/main.py:65-71 | Row i is `(results[i].email, ", ".join(results[i].tags))`. |
| `Export.VocabularyCommaFree` | app/services/classifier.py:10-23 | No vocabulary tag contains a comma. |
| `Export.SplitJoin` | app/main.py:68 | For a non-empty list of comma-free tags, splitting the joined text on `", "` gives back the list exactly. |
| `Export.RowsFaithful` | app/main.py:65-71 | For non-empty vocabulary tags, row i holds the email verbatim, and its Tags cell splits back into exactly that result's tags. |
| `Api.ExportRowsFaithful` | app/main.py:65-71 | The export table of a fresh batch has one row per email. Row i holds `emails[i]` and a Tags cell that decodes to the tags of that email's remote call. |

## Left out

- The aiohttp session, the URL with the API key, the POST payload, `os.getenv` and `load_dotenv` are left out. They are network and environment I/O. The remote service is a function from the call number and the email text to an abstract `Response`.
- The prompt template is left out. It is free text; it only embeds the vocabulary, the guidance and the email.
- `json.loads`, `response.json()` and the `.get(...)[0]` chain are not real parsers here. Their possible outcomes are the constructors of `Body` and `Decoded`. The items of `tags` are `JsonItem`s: list elements, characters of a string, or keys of an object.
- The remote service's answers are a fixed function of the call number and the email. Timing and the order in which concurrent calls complete are not modelled. The i-th email of a batch is simply numbered as the i-th call of that batch.
- The `print` and `logging` diagnostics are left out. A `print` can raise, for example a `UnicodeEncodeError` or a `BrokenPipeError`. The prints in `app/services/classifier.py` at lines 64, 79, 83, 88, 92, 96, 99, 103 and 107 are inside the `try` that opens at line 63. If one of them raises, the `except Exception` at lines 110-112 catches it and the result is `["Other"]`. The model covers this only as a `Response` whose outcome is `["Other"]`. It also counts a remote call when the print at line 64 fails before the POST is sent. A print at line 111 that raises inside that handler would propagate out of `classify_email`; the model always returns a tag list. `logger.info` at `app/main.py:55` cannot raise into the handler.
- `asyncio.gather` concurrency is modelled as a sequential map. Only its order guarantee matters.
- FastAPI routing, the `GET /` template page and pydantic request validation are left out; `EmailInput` and `EmailBatchInput` become plain `string` and `seq<string>` parameters.
- pandas `DataFrame.to_csv` is left out: the header row, CSV quoting and `StringIO`. The model stops at the list of (email, joined tags) rows.
- Idempotence of `/classify` against a stub that always answers the same way holds by construction: `Classifier.ClassifyEmail` is a function of the response. It has no lemma of its own.
