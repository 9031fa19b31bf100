# ChatPDF backend: retry policy, rate-limit test and session state

A verified Dafny model of the logic of its own that the ChatPDF backend (`backend/app.py`)
contains around its third-party services:

- the **retry wrapper** `process_with_retry`: it calls an operation up to `max_retries` times
  (default 3), sleeps `initial_delay * 2^attempt` seconds (default delay 4) after each
  rate-limited failure, raises 500 with the error text for any other failure, and raises 429
  with a fixed text when every attempt was rate-limited;
- the **rate-limit test**, `"quota" in str(e).lower() or "429" in str(e)`, used by the wrapper
  and by both handlers;
- the **session state**: the globals `vector_store` and `conversation_chain`. `/upload` writes
  them, and `/chat` refuses to answer until both are set;
- the **source projection** of a chat reply: one `{page, content}` entry per source document.

Modules, one per concern: `Options` (optional values), `Text` (ASCII lower-casing, substring
search, `endswith`, slicing), `RateLimit` (the test and the handlers' classification of a failure),
`Retry` (the wrapper), `Sources` (the projection), `Session` (class `AppState` with `Upload` and
`Chat`, plus scenarios that compose them).

`ProcessWithRetry` is an imperative loop just as the source is. Its loop invariants keep the
calls made, the delays recorded and the fact that `last_error` is always a rate-limit error.
It is proved equal to `Retried`, a closed-form definition of the whole run. The source's
properties are lemmas about `Retried`. An operation is a function `op: nat -> Outcome<T>`:
`op(i)` is the outcome of its `i`-th call. A sleep is recorded as a delay in the returned list.
`AppState` holds the two globals as `Option` fields. The vector store, the chain and everything
the libraries do are parameters: what loading and splitting the PDF produced, the outcomes of
the store builder's calls, the outcome of building the chain, and the outcomes of the chain's calls.

Two facts about the code that the model makes explicit:

- `/upload` writes the two globals one after the other, `vector_store` at line 137 and
  `conversation_chain` at line 152. It does not replace them as one atomic pair. If building
  the chain fails, the new store stays in place beside the previous chain. `AppState.Upload`
  states exactly that. After a failed first upload the chain is still unset, so `/chat`
  refuses (`ChatAfterHalfUpload`). After a successful upload followed by a failed one, `/chat`
  answers through the first chain while the second store is current (`MixedStateServed`).
- The `429` test runs on the raw text, and only `quota` is looked for in the lower-cased text.
  Digits have no case, so the test as a whole is still case-insensitive
  (`RateLimit.DigitsIgnoreCase`, `RateLimit.IsRateLimitCaseInsensitive`).

`AppState.Valid()` (a chain never exists without a store) is a proved invariant of `Upload`.
No other contract relies on it.

Some definitions are covered through the rows of the lemmas about them:
- `Text.EndsWith` is `str.endswith` at line 108.
- `RateLimit.IsRateLimit` is the test at lines 87, 95, 161 and 210.
- `Retry.Settle` is how a call that is not rate-limited ends the wrapper: the `return` at
  line 84 or the 500 at line 92.
- `Sources.Entry` is the dict literal at lines 200-203. It is covered through `Sources.Project`
  and `Sources.ReplyEntries`.
- `Sources.PageOf` and `Sources.ProjectResponse` are lines 201 and 204. They are covered by
  `Sources.ReplyEntries`.

## Model

| member | source | states |
|---|---|---|
| `Text.Lower` | backend/app.py:87 | the model's ASCII fold for `str.lower()`: it keeps the length and lowers each character on its own, `A`–`Z` to `a`–`z`, leaving every other character as it is |
| `Text.ContainsIff` | backend/app.py:87 | the substring test `pat in s` holds exactly when `pat` occurs at some position of `s` |
| `Text.Take` | backend/app.py:202 | `s[:n]` is the prefix of `s` of length `min(n, len(s))` |
| `RateLimit.RateLimitIff` | backend/app.py:87 | an error counts as rate-limit exactly when `quota` occurs in the lower-cased text or `429` occurs in the raw text |
| `RateLimit.LowerSlice` | backend/app.py:87 | lower-casing a slice equals slicing the lower-cased text |
| `RateLimit.QuotaInAnyCase` | backend/app.py:87 | any spelling of `quota` (`QUOTA`, `Quota`, …) anywhere in the text makes it a rate-limit error |
| `RateLimit.DigitsIgnoreCase` | backend/app.py:87 | `429` occurs at a position of the lower-cased text exactly when it occurs there in the raw text |
| `RateLimit.IsRateLimitCaseInsensitive` | backend/app.py:87 | classifying the lower-cased text gives the same answer as classifying the raw text |
| `RateLimit.UpperCaseQuotaExample` | backend/app.py:87 | `"Resource exhausted: QUOTA"` is classified as rate-limited |
| `RateLimit.NotRateLimitWithout` | backend/app.py:87 | a text with no `q`, `Q` or `4` is never classified as rate-limited |
| `RateLimit.RateLimitDetailNotRateLimited` | backend/app.py:98 | the fixed 429 text is not itself a rate-limit message |
| `RateLimit.ClassifyFailure` | backend/app.py:159-166 | a handler's plain exception becomes 429 exactly when `quota` occurs in the lower-cased text or `429` in the raw text. It then carries the fixed text, which always differs from the provider's text. Otherwise it becomes 500 carrying `str(e)` |
| `Retry.Backoff` | backend/app.py:88 | the first `n` backoff delays: `n` of them, the first is `initial_delay`, and each later delay is double the one before |
| `Retry.FirstNonRateLimited` | backend/app.py:79-92 | the index of the first of the permitted calls that is not a rate-limit failure: every earlier call was rate-limited, and it is `n` if all were |
| `Retry.FirstNonRateLimitedUnique` | backend/app.py:79-92 | those facts fix the index: no other index has them |
| `Retry.Retried` | backend/app.py:77-100 | closed form of a whole run. `None` exactly when `max_retries <= 0`, and then no call. Otherwise 1..`max_retries` calls, delays always `initial_delay*2^i` in order, every call but the last rate-limited; 429 exactly when all `max_retries` calls were rate-limited, then with the fixed text, exactly `max_retries` calls and one delay per call; a 500 carries the last call's non-rate-limit text; a returned value is the last call's |
| `Retry.ProcessWithRetry` | backend/app.py:77-100 | the step-by-step loop returns the result, the number of calls and the recorded delays that `Retried` defines; the final 500 branch (line 100) is proved unreachable |
| `Retry.SucceedsAfterRateLimits` | backend/app.py:79-91 | `k` rate-limited failures then a success at attempt `k < max_retries`: that value, `k+1` calls, delays `initial_delay*2^0 … initial_delay*2^(k-1)` |
| `Retry.StopsOnOtherFailure` | backend/app.py:85-92 | a non-rate-limit failure at attempt `k` raises 500 with `str(e)` after `k+1` calls, with no sleep for that attempt and no further call |
| `Retry.ExhaustedOnRateLimits` | backend/app.py:79-100 | all `max_retries` attempts rate-limited: exactly `max_retries` calls and `max_retries` delays, the last included, then 429 with the fixed text |
| `Retry.BackoffTotal` | backend/app.py:88-90 | over `n` backed-off attempts the total sleep is `initial_delay * (2^n - 1)` |
| `Retry.DefaultSchedule` | backend/app.py:77-88 | with the defaults the wrapper never returns `None`, and its delays are a prefix of 4, 8, 16 seconds |
| `Sources.Excerpt` | backend/app.py:202 | `page_content[:200] + "..."` has length `min(200, len) + 3 <= 203`, ends with `...`, and what precedes the `...` is a prefix of the text |
| `Sources.Project` | backend/app.py:199-205 | one entry per source document, in the same order, entry `i` made from document `i` |
| `Sources.ProjectAppend` | backend/app.py:199-205 | projecting a concatenation is concatenating the projections (the order is kept) |
| `Sources.ReplyEntries` | backend/app.py:199-205 | an absent `source_documents` gives an empty list. A present one gives one entry per document, and every entry is its document's first `min(200, len)` characters followed by `...`, so it ends with `...`, has at most 203 characters, begins with its document's text and carries `metadata.get("page", 0)` |
| `Session.AppState.constructor` | backend/app.py:74-75 | at start-up both the store and the chain are unset |
| `Session.AppState.Upload` | backend/app.py:102-176 | a name not ending in `.pdf` (case-sensitive) fails with 400 and changes nothing. A load or split failure is classified as 429 or 500 and changes nothing. A wrapper failure is passed on and changes nothing. Otherwise the store is set; then either the chain is set and the upload succeeds, or it fails classified and the old chain remains. A chain never exists without a store |
| `Session.AppState.Chat` | backend/app.py:178-206 | unless both store and chain are set it fails with 400 "Please upload a PDF file first" and calls nothing. Otherwise it calls the chain as the wrapper does: an answer comes back with its projected sources, a wrapper error is passed on |
| `Session.ChatBeforeUpload` | backend/app.py:178-184 | before any upload, `/chat` fails with 400 whatever the request, and calls nothing |
| `Session.ChatAfterHalfUpload` | backend/app.py:137-156 | a first upload whose store is built but whose chain fails is reported as failed, and `/chat` still refuses with 400 |
| `Session.ChatAfterUpload` | backend/app.py:137-206 | after a successful upload, `/chat` answers from the new chain with one call |
| `Session.UploadUpperCaseSuffix` | backend/app.py:108-110 | `X.PDF` is refused with 400 and leaves the state untouched, so `/chat` still refuses |
| `Session.SecondUploadReplaces` | backend/app.py:137-156 | after two successful uploads `/chat` asks only the second chain |
| `Session.MixedStateServed` | backend/app.py:137-206 | after a successful upload, an upload whose chain build fails reports the classified failure and leaves the second store current. `/chat` then answers through the first chain |

## Left out

- `Text.Lower`: folds only `A`–`Z`, whereas Python's `str.lower` follows Unicode. For the rate-limit test this makes no difference. No other character lowers to `q`, `u`, `o`, `t`, `a` or to a digit, and every character `lower` produces comes from one input character. This argument is not proved in the model.
- `Session.AppState.Upload` and `Session.AppState.Chat`: when the wrapper raises, the handler's `except` re-raises a new error built from `str(e)` of the wrapper's exception (lines 159-166, 208-215). That text depends on the web framework's exception format, so `Reply.RetryFailed` records the wrapper's own exception instead.
- `Session.AppState.Chat`: the guard at line 180 tests truthiness (`not vector_store`, `not conversation_chain`). The model tests "unset" (`None?`) and so assumes a built store and chain are never falsy. A store whose `__len__` returned 0 would make the source refuse `/chat` after a successful upload, and the model does not capture that.
- `Retry.ProcessWithRetry`: `if last_error:` (line 94) is modelled as "an error was recorded". This assumes exception objects are truthy, as they are unless their class overrides `__bool__` or `__len__`.
- `Session.AppState.Upload`: the wrapper returning `None` (which would set `vector_store` to `None`) is proved impossible with the default three attempts, so the model has no behaviour for it.
- Saving the upload to a temporary file, reading it back and deleting it (lines 113-118, 167-173) are file-system I/O. The result of lines 115-132 (reading and writing the upload, loading and splitting the PDF) is the `prepared` parameter. A failure while creating the temporary file (line 113), or while closing it when the `with` block exits after line 173, escapes `upload_pdf` without passing through the `except` at lines 159-166. It is not classified, and the model does not cover it.
- The PDF loader, the text splitter and its chunk size and overlap, the vector store, the embedding and chat models, and the chain (lines 27-40, 63-66, 122-156) are foreign library calls. They are parameters, and nothing is claimed about chunking.
- `asyncio.sleep` and `asyncio.iscoroutine` (lines 82-83, 90): an operation returns its value directly, and a sleep is recorded as its delay.
- Concurrency: each handler runs to completion in the model. In the source, `/upload` yields to other requests only before its first write (at lines 115 and 137, inside the wrapper at lines 83 and 90). The two writes at lines 137 and 152 have only synchronous code between them, so no request sees a half-written pair. Two interleavings are real and not modelled. First, a `/chat` that passed the guard keeps the chain it read at line 190 through its backoff sleeps, so it can answer from the previous document after a later upload has succeeded. Second, overlapping uploads take effect in the order their wrapper calls return, so the last to finish wins, not the last sent.
- Exceptions outside `Exception` (cancellation, for one) pass through the wrapper unclassified. The model covers only `Exception`.
- A chain result without an `answer` key, and metadata `page` values that are not integers, are not modelled: `ChainAnswer` always has an answer and `metadata` maps to integers.
- A non-integer `initial_delay`: delays are integers.
- Logging (lines 27-40 and every `logger` call), the API-key check (lines 43-48), FastAPI/CORS set-up, the request model and server start-up (lines 50-71, 217-219) are side effects or framework wiring.
- The React front end (`src/App.js`, `src/components/*.js`) is not part of this model.
