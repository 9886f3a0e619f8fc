# telemetry-ai-ops: batch dispatcher, hybrid analyzer and telemetry queue in Dafny

This project models the three sequential cores of the telemetry-ai-ops service and proves properties of them.

- `ai_batcher.dfy` (module `Batcher`) models the batch dispatcher `AIBatcher`. It keeps a record buffer, a `running` flag and a flush event. A size threshold sets the flush event. A flush moves the whole buffer out as one dispatched batch. `start` and `stop` do nothing when repeated, and `stop` ends with a drain flush. Each dispatched batch goes to the analyzer with up to three attempts. The class invariant `Valid()` states conservation: the dispatched batches, concatenated in dispatch order and followed by the buffer, equal the enqueued records in order. So no record is lost or duplicated. Every method keeps this invariant, so it holds across any sequence of enqueue, flush, loop step, start and stop.
- `ai_analyzer.dfy` (module `Analyzer`) models the hybrid analyzer `AIAnalyzer`:
  - the OSNR/BER threshold heuristic per record;
  - the batch routine, which splits a batch by position into heuristic verdicts and a residual of records that need AI, skips the external call when nothing needs AI, and otherwise merges the external answers back by index, truncated the way `zip` truncates;
  - the shaping of the external answer into per-record entries: a parsed JSON list, the line-by-line fallback, or the uniform error list.
- `telemetry_queue.dfy` (module `Queue`) models the FIFO `TelemetryQueue` over a deque. It offers enqueue, dequeue-or-None, size and isEmpty.
- `wrappers.dfy` holds `Option`, which stands for Python's `None`, and `Min`.

How the model abstracts the source:
- The analyzer that the dispatcher calls is a function `analyzer(batch, i)`. It says whether attempt `i` on the batch returns without raising.
- The external AI call is a function `service(records)`. It yields a `Response`: the reply parsed as a JSON list, the reply's lines, or the failure of the call with its exception text.
- Records are generic in the dispatcher and the queue. In the analyzer, a record is the three fields it reads: `device_id`, `osnr` and `ber`. A missing key and a `None` value are both `None`.

## Model

| member | source | states |
|---|---|---|
| Queue.TelemetryQueue.constructor | app/core/telemetry_queue.py:5-6 | a new queue is empty |
| Queue.TelemetryQueue.Enqueue | app/core/telemetry_queue.py:8-9 | the contents become the old contents with the packet appended, so the size grows by one |
| Queue.TelemetryQueue.Dequeue | app/core/telemetry_queue.py:11-16 | on an empty queue it returns None and leaves the queue as it was; otherwise it returns the front packet and leaves the tail; in both cases the returned packet followed by the new contents is the old contents |
| Queue.TelemetryQueue.Size | app/core/telemetry_queue.py:18-19 | returns the number of queued packets and changes nothing |
| Queue.TelemetryQueue.IsEmpty | app/core/telemetry_queue.py:21-22 | true exactly when no packet is queued (size 0), and changes nothing |
| Queue.EnqueueThenDequeue | app/tests/test_queue.py:4-14 | one packet into a fresh queue: size 1 and not empty, dequeue returns that packet, size back to 0 |
| Queue.FreshQueueDequeue | app/tests/test_queue.py:17-20 | a fresh queue's dequeue returns None and the queue is empty |
| Queue.TwoPacketsInOrder | app/core/telemetry_queue.py:8-16 | first in, first out: two packets come back in enqueue order, then None |
| Batcher.AiBatcher.constructor | app/services/ai_batcher.py:32-47 | stores the configuration, by default batch size 16, timeout 12.0 seconds and concurrency 2; the buffer is empty, the batcher is not running, the flush event is clear, the counters are zero and nothing has been dispatched |
| Batcher.DefaultConfiguration | app/services/ai_batcher.py:35-37 | a batcher built without arguments has batch size 16, timeout 12.0 seconds and concurrency 2 |
| Batcher.AiBatcher.Start | app/services/ai_batcher.py:49-55 | on a running batcher nothing changes and no loop task is created; otherwise it becomes running and exactly one loop task is created |
| Batcher.AiBatcher.Enqueue | app/services/ai_batcher.py:70-80 | the buffer becomes the old buffer with the record appended; at `batchSize` or more records the flush event is set, and below that it keeps its old value; the gauge equals the buffer length |
| Batcher.AiBatcher.Flush | app/services/ai_batcher.py:82-101 | on an empty buffer nothing is dispatched; otherwise exactly one batch equal to the old buffer, in order, is dispatched; afterwards the buffer is empty and the flush event is clear; conservation is kept |
| Batcher.AiBatcher.Stop | app/services/ai_batcher.py:57-68 | on a stopped batcher nothing changes; otherwise it stops, the loop exits, the old buffer (if non-empty) is dispatched as one batch, and the buffer ends empty; every enqueued record has then been dispatched exactly once, so the dispatched sizes add up to the number of enqueued records |
| Batcher.AiBatcher.BatchLoopStep | app/services/ai_batcher.py:127-145 | one loop iteration: while running, the step flushes (whether the event fired or the timeout expired); after the loop has seen the stop, nothing changes |
| Batcher.AiBatcher.RunBatchWithRetries | app/services/ai_batcher.py:107-125 | the attempts made and the final outcome are those of `Retry`; the call counter rises by exactly one per batch; the error counter rises by one exactly when every attempt failed |
| Batcher.RetryFrom | app/services/ai_batcher.py:113-120 | from attempt n on, at most three attempts in all and more than n; every attempt before the last failed; the run succeeds exactly when the last attempt succeeded; a failed run used all three attempts |
| Batcher.RetryBounds | app/services/ai_batcher.py:114 | the analyzer is called at least once and at most three times per batch |
| Batcher.SuccessAfterFailures | app/services/ai_batcher.py:113-122 | if the analyzer succeeds after k < 3 failures, it is called k+1 times and the batch succeeds |
| Batcher.AllAttemptsFail | app/services/ai_batcher.py:113-125 | if every attempt fails, the analyzer is called exactly three times and the batch fails |
| Batcher.RetryUnique | app/services/ai_batcher.py:113-124 | any attempt count and outcome with the retry properties are the ones `Retry` gives |
| Batcher.FlattenAppend | app/services/ai_batcher.py:93-101 | dispatching one more batch appends exactly its records, in order, to the concatenation of all dispatched batches |
| Batcher.FlattenSize | app/services/ai_batcher.py:93-94 | the concatenation of the dispatched batches has as many records as the batch sizes add up to |
| Analyzer.RunAiAnalysis | app/services/ai_analyzer.py:20-31 | the verdict is healthy with reason heuristic_ok exactly when OSNR and BER are both present, OSNR >= 30 and BER <= 1e-9; otherwise it is needs_ai with reason heuristic_uncertain |
| Analyzer.MissingMetricNeedsAi | app/services/ai_analyzer.py:26-31 | a missing OSNR or BER always yields needs_ai / heuristic_uncertain |
| Analyzer.HeuristicExamples | app/services/ai_analyzer.py:28-31 | {osnr 32, ber 1e-9} is healthy; {osnr 10, ber 1e-4} and a record without metrics need AI |
| Analyzer.AiIndicesUpTo | app/services/ai_analyzer.py:48-52 | every collected index is below the prefix length |
| Analyzer.AiIndicesUpToExact | app/services/ai_analyzer.py:48-52 | the collected indices strictly increase; each one is the position of a record that needs AI; every such position below n is collected |
| Analyzer.AiIndicesExact | app/services/ai_analyzer.py:48-52 | `ai_indices` strictly increases, is in range, and holds exactly the positions of the records that need AI |
| Analyzer.AiNeededAtIndicesUpTo | app/services/ai_analyzer.py:48-52 | the collected records and the collected indices have equal length, and record k is the batch record at index k |
| Analyzer.AiNeededAtIndices | app/services/ai_analyzer.py:48-52 | `ai_needed[k] == batch[ai_indices[k]]` for every k |
| Analyzer.NoAiNeeded | app/services/ai_analyzer.py:57-58 | `ai_indices` is empty exactly when no record of the batch needs AI |
| Analyzer.Partition | app/services/ai_analyzer.py:44-55 | a results list as long as the batch, holding None at each AI position and the heuristic verdict at every other position; collects exactly `ai_needed` and `ai_indices` |
| Analyzer.MergeBack | app/services/ai_analyzer.py:63-65 | for k < min(len(ai_indices), len(ai_out)), position ai_indices[k] receives ai_out[k]; every other position is unchanged |
| Analyzer.RunAiAnalysisBatch | app/services/ai_analyzer.py:33-66 | the results are as long as the batch; the external call is made exactly when some record needs AI, and it receives exactly those records in their original order; heuristic verdicts stay in place; the external answers fill the AI positions through zip; placeholders past a short answer stay None |
| Analyzer.LeadingSpaces | app/services/ai_analyzer.py:134-136 | counts the leading whitespace of a line: all counted characters are whitespace, and the next one is not |
| Analyzer.WithoutTrailingSpaces | app/services/ai_analyzer.py:134-136 | everything past the returned length is whitespace, and the character before it is not |
| Analyzer.Strip | app/services/ai_analyzer.py:134-136 | `line.strip()`: a contiguous slice of the line with only whitespace removed at either end, and neither starting nor ending in whitespace |
| Analyzer.ErrorResults | app/services/ai_analyzer.py:141-151 | on failure, exactly one entry per input record, in input order, each with status error, that record's device_id and the message "AI analysis failed: " followed by the reason |
| Analyzer.FirstNonObject | app/services/ai_analyzer.py:124-126 | the position of the first list element that is not a JSON object: every element before it is an object |
| Analyzer.ShapedBelongsToRecords | app/services/ai_analyzer.py:122-151 | whatever the answer, there are never more entries than records, and entry i carries records[i]'s device_id |
| Analyzer.ShapedStructured | app/services/ai_analyzer.py:124-130 | for a parsed list of objects: min(len(records), len(list)) entries, entry i pairing records[i]'s device_id with list element i |
| Analyzer.ShapedStructuredNotObject | app/services/ai_analyzer.py:124-151 | a zipped list element that is not a dict makes `out.get` raise, so the answer becomes the error list, one entry per record |
| Analyzer.ShapedLines | app/services/ai_analyzer.py:131-137 | for the line fallback: min(len(records), len(lines)) entries, entry i pairing records[i]'s device_id with line i stripped |
| Analyzer.CallExternalAiForBatch | app/services/ai_analyzer.py:122-151 | the appending loops build exactly the shaped answer, and an AttributeError midway through the structured loop returns the error list |

## Left out

- Concurrency in `AIBatcher`. This covers the asyncio lock, the semaphore that limits concurrent dispatches, `create_task` and the interleaving of producers with the loop. Each method is one atomic step, and a dispatched batch is recorded in a ghost log. `maxConcurrency` is stored but constrains nothing in the model.
- Timing. The flush timeout, the loop's short sleep, the exponential backoff waits and the latency measurement are all left out. `BatchLoopStep` treats "event set" and "timeout expired" alike, because both lead to the same flush. Only attempts are counted.
- Batcher.AiBatcher.Stop: in the source, the loop task may itself flush once it wakes, before `stop`'s own final flush. The model performs one flush, which ends in the same state. The intermediate "flush event set" state is not visible in the postcondition, because the final flush clears the event.
- Prometheus metrics. In the source they are process-wide objects. The model uses per-batcher integer fields: `calls`, `errors` and `queueSize`, with `queueSize == |buffer|` kept as an invariant. The latency summary is not modelled.
- Batcher.AiBatcher.RunBatchWithRetries: the analyzer is abstracted as one success-or-failure outcome per attempt. What the analyzer returns and the text of its exception are not modelled.
- The OpenAI request, prompt building, code-fence stripping and `json.loads` are foreign calls. The model takes their result as a `Response`. `splitlines()` is part of that input too: `Lines` holds the lines already split.
- Analyzer.ShapedStructuredNotObject: the model keeps the AttributeError text, built from the Python type name in `JsonOther`. It does not keep the printed insight message, which is logging only.
- Floating-point numbers. OSNR and BER are Dafny `real`s, and the thresholds 30 and 1e-9 are exact decimals. Binary float rounding of the threshold is not modelled. Non-numeric readings, which would make the comparison raise, cannot be expressed with typed records.
- Logging `print` calls and the re-raise of `CancelledError` in `run_ai_analysis_batch` are side effects or cancellation, so they are left out.
- app/ai/ai_analyzer.py, app/services/pipeline.py, the routes, the app wiring, the fetcher and the schemas are not part of this model.
- No `clear` on the queue. app/core/telemetry_queue.py has none, even though a route calls `queue.clear()`.
