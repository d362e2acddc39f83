# S3 data pipeline job — a Dafny model

This project models the control logic of the repository's AWS Lambda job. The job reads its configuration from the environment and fetches JSON from an API. It keeps the products whose price is above 50, uploads the result to S3 with a bounded retry loop, and calls one notification helper about the outcome, which attempts an SNS publish when a topic is configured. All I/O is replaced by inputs:

- the process environment is a `map<string, string>`;
- the value `fetch_data_with_retry` returned is an `Option<seq<Record>>`;
- each `put_object` attempt is one `bool` in a sequence (true means no `BotoCoreError` or `ClientError`);
- `time.sleep` is a counter;
- each call of `notify_failure` or `notify_success` is an event in the run's trace. The event records the kind, subject and message, and the SNS topic the publish was addressed to, or that publishing was skipped.

Modules:

- `Wrappers`: `Option` and `Result`.
- `Seqs`: order-preserving `Filter`, shared by the environment check and the row filter.
- `Environment`: `validate_environment_vars`.
- `Processing`: the empty check, the `price > 50` row filter and the missing-column failure of `process_data`.
- `Uploader`: the retry loop of `upload_to_s3`. It has a recursive reference definition and the loop as written.
- `Handler`: `lambda_handler` and the `notify_failure` / `notify_success` helpers.

A handler run is a `Run`: the response (or `None`), the ordered events (stages that ran and notification calls), the batch handed to the upload, and the upload's status, attempt count and sleep count. A run that stops before the upload carries `NoUpload`: no status, no attempt, no sleep.

Design choices:

- A price is absent (no `price` key), a JSON `null`, or an integer. A record without the key holds NaN in the price column. A `null` price becomes NaN, or stays `None` in a column with no number. Both compare false, so the row is dropped.
- When no record has a `price` key, the frame has no `price` column. `df['price']` then raises `KeyError`, and the generic `except Exception` turns that into `None`. This is modelled as the explicit failure `MissingPriceColumn`.
- An empty selection is not a failure. `process_data` still returns a `StringIO` (holding only a header line), and a buffer object is always truthy to `if not txt_buffer`.
- `upload_to_s3` with `retries <= 0` never enters its loop and returns Python `None` (`NoResult`). The handler always passes the default 3. The model keeps `retries` visible through `Handler.Handle` and proves that with no iterations the handler would return `None` and send no notification.
- The notification helpers re-read `SNS_TOPIC_ARN` and skip publishing when it is unset or empty. So "exactly one notification" means exactly one call of a helper. A publish is attempted iff the topic is set; a failing client or `publish` is swallowed, so an attempt does not guarantee delivery. The topic can be missing only on the environment-failure path; once the check passes, every notification is addressed to the configured topic.

`process_data` keeps every column of a kept row. It treats empty input as a failure (main.py:89-90). Each failing stage sends its own fixed message (main.py:206, 217, 228).

## Model

| member | source | states |
|---|---|---|
| Environment.MissingVars | main.py:173 | the missing names are exactly the required names that are unset or bound to the empty string, and the list is empty iff every required name is set |
| Environment.Validate | main.py:163-177 | `None` iff some required name is unset or empty; otherwise a map whose keys are exactly the required names, each bound to its environment value |
| Environment.ValidatedHasTopic | main.py:195 | an environment that passes the handler's check has a non-empty `SNS_TOPIC_ARN` |
| Processing.Expensive | main.py:97-98 | every kept row has a price above 50 and comes from the input; every input row with a price above 50 is kept; no more rows than the input |
| Processing.ExpensiveKeepsOrder | main.py:98 | filtering a concatenation is the concatenation of the filtered parts, so kept rows keep their relative order |
| Processing.ExpensiveSingle | main.py:98 | a single row is kept iff its price is a number above 50 |
| Processing.ExpensiveSubMultiset | main.py:98 | the filter only drops rows: each row occurs in the result at most as often as in the input |
| Processing.NothingAboveThreshold | main.py:98 | when no price exceeds 50 the selection is empty |
| Processing.EverythingAboveThreshold | main.py:98 | when every price exceeds 50 the selection is the whole input, in order |
| Processing.ProcessData | main.py:77-111 | fails with `NoData` iff the input is empty (the `ValueError` path); fails with `MissingPriceColumn` iff the input is non-empty and no record has a `price` key; succeeds iff some record has the key (even with `null`), and then yields the rows above 50 |
| Processing.AllNullPricesSelectNothing | main.py:89-106 | a non-empty batch whose prices are all `null` is processed successfully into an empty selection |
| Uploader.RunFrom | main.py:131-156 | from any iteration on: at least one and at most the remaining attempts, one sleep fewer than attempts; success only at the first successful attempt; failure only when all remaining attempts failed |
| Uploader.Upload | main.py:117-156 | with `retries <= 0` no attempt, no sleep and `None`; otherwise between 1 and `retries` attempts and exactly one sleep fewer (never after the last); success is reported right after the first successful attempt, failure only after `retries` failed attempts |
| Uploader.UploadSucceedsIff | main.py:131-156 | with `retries >= 1` the result is "upload_successful" iff some allowed attempt succeeds and "upload_failed" iff none does |
| Uploader.SuccessAtAttempt | main.py:131-147 | if attempt k+1 is the first success (k < retries), there are exactly k+1 attempts and k sleeps, and the result is success |
| Uploader.AllAttemptsFail | main.py:148-156 | if every attempt fails, there are exactly `retries` attempts and `retries - 1` sleeps, and the result is failure |
| Uploader.UploadToS3 | main.py:117-156 | the loop as written, returning from inside the body, has the same status, attempt count and sleep count as the reference definition on every input |
| Handler.Notify | main.py:250-299 | a notification call of the requested kind and message; a publish is attempted iff `SNS_TOPIC_ARN` is set and non-empty, and then addressed to that topic |
| Handler.Finish | main.py:197-201 | one terminal branch (the same shape at 208-212, 219-223, 230-234 and 239-243): the stages that ran, then exactly one notification call of the given kind, subject and message as the last event, addressed as the configuration says, and the response dict with the given status and body |
| Handler.UploadAndReport | main.py:225-243 | after the upload all four stages have run. Status 200 with the success body iff the upload succeeded, and the last notification is then `notify_success` with the success message. 500 with the upload body iff it failed, and the last notification is then `notify_failure` with "Data pipeline failed during S3 upload.". Exactly one notification call, addressed as the configuration says. No response and no notification when the upload returned `None` |
| Handler.AfterEnvCheck | main.py:203-243 | the stages that ran are a prefix of the pipeline of length at least 2. An empty or missing fetch stops after the fetch with 500 "Data fetch failed." and a failure notice carrying the fetch-stage message. A processing failure stops before the upload with 500 "Data processing failed." and the process-stage message. A successful processing step hands the rows above 50 to the upload. A failed upload gives 500 "S3 upload failed." with the upload message; a successful one gives 200 with the success message. An upload returning `None` gives no response and no notification. A run that stops before the upload records no upload at all: no status, no attempt, no sleep. Every response comes with exactly one matching notification call |
| Handler.Handle | main.py:180-243 | the stages that ran form a non-empty prefix of env-check, fetch, process, upload. A failed environment check runs nothing else, records no upload status, attempt or sleep, calls `notify_failure` with "Missing required environment variables." and returns 500 with the environment body. A passed check implies the topic is set, and then every later outcome of `AfterEnvCheck`'s contract holds, messages included. Every response comes with exactly one notification call, made last, of the kind its status names and addressed as the configuration says |
| Handler.EmptySelectionStillUploaded | main.py:214-226 | a batch with a price column but no price above 50 still reaches the upload, as an empty selection |
| Handler.HandlerSucceedsIff | main.py:195-243 | with three retries the handler answers 200 with the success body iff the environment is complete, the fetch returned a non-empty list with a price column, and one of the first three upload attempts succeeded |
| Handler.LambdaHandler | main.py:180-243 | every invocation returns 200 or 500 and calls exactly one notification helper, as its last step: `notify_failure` iff 500, `notify_success` iff 200. A failed environment check stops at once with 500, the environment body and message, and no upload status, attempt or sleep. Otherwise every stage-specific outcome of `AfterEnvCheck`'s contract holds: short-circuit, 500 body and message per failing stage, the rows above 50 handed to the upload, and the notification addressed to the configured topic. The answer is 200 iff every stage succeeded. At most three upload attempts are made |

## Left out

- `fetch_data_with_retry` (main.py:25-71) is an input. Its retry and backoff live in the `requests`/`urllib3` adapter. Its result is any list of records or `None`, unrelated to the `API_URL` value. JSON values other than a list (an object or a number) are not modelled, nor is a list whose items are not JSON objects (such as `[1, 2]`).
- JSON decoding, DataFrame construction, `head()` logging and the tab-separated `to_csv` output (main.py:93-104) are library formatting. The batch is modelled as the kept records.
- Numeric prices are integers. Float prices and IEEE comparison are not modelled. A `null` price is modelled and never kept. Prices that are strings or booleans are not representable.
- Exceptions from `put_object` other than `BotoCoreError` and `ClientError` are not modelled. They would escape `upload_to_s3` and the handler, so no notification would be sent.
- SNS `publish` failures (main.py:272-273, 298-299) are caught and logged and change nothing the handler reports. The model records the topic a message was addressed to, not whether delivery succeeded.
- Logging, message emoji in log lines, and the `delay` duration are not modelled. Sleeps are only counted. The `event` and `context` arguments are unused by the source and are omitted.
- Uploader.Upload: requires `retries <= |outcomes|`. This only says the oracle supplies an outcome for every attempt the loop may make. It is not a demand of the source.
