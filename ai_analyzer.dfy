/** The hybrid analyzer (app/services/ai_analyzer.py): a threshold heuristic
    per record, a batch routine that sends only the undecided records to one
    external call and merges the answers back by position, and the shaping of
    the external call's answer into one entry per record.

    The external call itself (the chat-completion request, fence stripping and
    JSON parsing) is an input: `Response` is what that parse produced. */
module Analyzer {
  import opened Wrappers

  /** The fields of a telemetry record the analyzer reads. A missing key and a
      None value both read as None. */
  datatype Record = Record(deviceId: Option<string>, osnr: Option<real>, ber: Option<real>)

  datatype Status = Healthy | NeedsAi

  /** One element of a parsed JSON list: a JSON object, or another JSON value
      with the name of its Python type ('str', 'int', 'list', ...). */
  datatype Payload =
    | JsonObject(json: string)
    | JsonOther(typeName: string, json: string)

  /** What the external call produced: the cleaned reply parsed as a JSON list;
      otherwise the lines of the cleaned reply (`splitlines()`); or the failure
      of the call, with the text of its exception. */
  datatype Response =
    | ParsedList(items: seq<Payload>)
    | Lines(lines: seq<string>)
    | CallFailed(reason: string)

  /** One analysis result, one variant per dictionary shape the source builds. */
  datatype Outcome =
    | Heuristic(status: Status, reason: string)               // {"status", "reason"}
    | AiOutput(deviceId: Option<string>, output: Payload)     // {"device_id", "ai_output"}
    | AiMessage(deviceId: Option<string>, message: string)    // {"device_id", "message"}
    | AiError(deviceId: Option<string>, message: string)      // {"status": "error", "device_id", "message"}

  const OsnrHealthyMin: real := 30.0
  const BerHealthyMax: real := 0.000000001

  // ---------------------------------------------------------------------------
  // The per-record heuristic

  /** Healthy exactly when both OSNR and BER are present, OSNR >= 30 and
      BER <= 1e-9; anything else, a missing metric included, needs AI. */
  function RunAiAnalysis(rec: Record): (r: Outcome)
    ensures r.Heuristic?
    ensures r.status == Healthy <==>
              rec.osnr.Some? && rec.ber.Some? &&
              rec.osnr.value >= OsnrHealthyMin && rec.ber.value <= BerHealthyMax
    ensures r.reason == if r.status == Healthy then "heuristic_ok" else "heuristic_uncertain"
  {
    if rec.osnr.Some? && rec.ber.Some? && rec.osnr.value >= OsnrHealthyMin && rec.ber.value <= BerHealthyMax
    then Heuristic(Healthy, "heuristic_ok")
    else Heuristic(NeedsAi, "heuristic_uncertain")
  }

  predicate NeedsAiRecord(rec: Record)
  {
    RunAiAnalysis(rec).status == NeedsAi
  }

  /** The first-pass entry for a record: a None placeholder when it needs AI,
      its heuristic verdict otherwise. */
  function FirstPass(rec: Record): Option<Outcome>
  {
    if NeedsAiRecord(rec) then None else Some(RunAiAnalysis(rec))
  }

  /** A missing metric never yields a healthy verdict. */
  lemma MissingMetricNeedsAi(rec: Record)
    requires rec.osnr == None || rec.ber == None
    ensures RunAiAnalysis(rec) == Heuristic(NeedsAi, "heuristic_uncertain")
  {
  }

  /** Examples: {osnr 32, ber 1e-9} is healthy (the BER bound is inclusive);
      {osnr 10, ber 1e-4} and a record without metrics need AI. */
  lemma HeuristicExamples(id: Option<string>)
    ensures RunAiAnalysis(Record(id, Some(32.0), Some(0.000000001))).status == Healthy
    ensures RunAiAnalysis(Record(id, Some(10.0), Some(0.0001))).status == NeedsAi
    ensures RunAiAnalysis(Record(id, None, None)).status == NeedsAi
  {
  }

  // ---------------------------------------------------------------------------
  // The partition of a batch

  /** The positions below n of the records that need AI, in increasing order. */
  function AiIndicesUpTo(batch: seq<Record>, n: nat): (idx: seq<nat>)
    requires n <= |batch|
    ensures forall k :: 0 <= k < |idx| ==> idx[k] < n
  {
    if n == 0 then []
    else AiIndicesUpTo(batch, n - 1) + (if NeedsAiRecord(batch[n - 1]) then [n - 1] else [])
  }

  /** The records below n that need AI, in their original relative order. */
  function AiNeededUpTo(batch: seq<Record>, n: nat): seq<Record>
    requires n <= |batch|
  {
    if n == 0 then []
    else AiNeededUpTo(batch, n - 1) + (if NeedsAiRecord(batch[n - 1]) then [batch[n - 1]] else [])
  }

  /** `ai_indices`: the positions of the records that need AI. */
  function AiIndices(batch: seq<Record>): seq<nat>
  {
    AiIndicesUpTo(batch, |batch|)
  }

  /** `ai_needed`: the records that need AI, in order. */
  function AiNeeded(batch: seq<Record>): seq<Record>
  {
    AiNeededUpTo(batch, |batch|)
  }

  /** The AI indices below n are strictly increasing and are exactly the
      positions below n of the records that need AI. */
  lemma {:induction false} AiIndicesUpToExact(batch: seq<Record>, n: nat)
    requires n <= |batch|
    ensures forall k :: 0 <= k < |AiIndicesUpTo(batch, n)| ==> NeedsAiRecord(batch[AiIndicesUpTo(batch, n)[k]])
    ensures forall k, l :: 0 <= k < l < |AiIndicesUpTo(batch, n)| ==>
              AiIndicesUpTo(batch, n)[k] < AiIndicesUpTo(batch, n)[l]
    ensures forall i :: 0 <= i < n && NeedsAiRecord(batch[i]) ==> i in AiIndicesUpTo(batch, n)
  {
    if n != 0 {
      AiIndicesUpToExact(batch, n - 1);
    }
  }

  lemma AiIndicesExact(batch: seq<Record>)
    ensures forall k :: 0 <= k < |AiIndices(batch)| ==> AiIndices(batch)[k] < |batch|
    ensures forall k :: 0 <= k < |AiIndices(batch)| ==> NeedsAiRecord(batch[AiIndices(batch)[k]])
    ensures forall k, l :: 0 <= k < l < |AiIndices(batch)| ==> AiIndices(batch)[k] < AiIndices(batch)[l]
    ensures forall i :: 0 <= i < |batch| && NeedsAiRecord(batch[i]) ==> i in AiIndices(batch)
  {
    AiIndicesUpToExact(batch, |batch|);
  }

  /** The records sent to the external call are the records at the AI indices. */
  lemma {:induction false} AiNeededAtIndicesUpTo(batch: seq<Record>, n: nat)
    requires n <= |batch|
    ensures |AiNeededUpTo(batch, n)| == |AiIndicesUpTo(batch, n)|
    ensures forall k :: 0 <= k < |AiIndicesUpTo(batch, n)| ==>
              AiNeededUpTo(batch, n)[k] == batch[AiIndicesUpTo(batch, n)[k]]
  {
    if n != 0 {
      AiNeededAtIndicesUpTo(batch, n - 1);
    }
  }

  lemma AiNeededAtIndices(batch: seq<Record>)
    ensures |AiNeeded(batch)| == |AiIndices(batch)|
    ensures forall k :: 0 <= k < |AiIndices(batch)| ==> AiNeeded(batch)[k] == batch[AiIndices(batch)[k]]
  {
    AiNeededAtIndicesUpTo(batch, |batch|);
  }

  /** No record needs AI exactly when there is no AI index. */
  lemma NoAiNeeded(batch: seq<Record>)
    ensures AiIndices(batch) == [] <==> forall i :: 0 <= i < |batch| ==> !NeedsAiRecord(batch[i])
  {
    AiIndicesExact(batch);
    if AiIndices(batch) != [] {
      assert NeedsAiRecord(batch[AiIndices(batch)[0]]);
    }
  }

  // ---------------------------------------------------------------------------
  // Shaping the external call's answer

  /** Python's str.isspace() for one character. */
  predicate IsSpace(c: char)
  {
    || ('\t' <= c <= '\r')
    || ('\U{1c}' <= c <= ' ')
    || c == '\U{85}' || c == '\U{a0}' || c == '\U{1680}'
    || ('\U{2000}' <= c <= '\U{200a}')
    || c == '\U{2028}' || c == '\U{2029}' || c == '\U{202f}' || c == '\U{205f}' || c == '\U{3000}'
  }

  /** The number of leading whitespace characters. */
  function LeadingSpaces(s: string): (n: nat)
    ensures n <= |s|
    ensures forall i :: 0 <= i < n ==> IsSpace(s[i])
    ensures n < |s| ==> !IsSpace(s[n])
    decreases |s|
  {
    if |s| == 0 || !IsSpace(s[0]) then 0 else 1 + LeadingSpaces(s[1..])
  }

  /** The length of `s` without its trailing whitespace. */
  function WithoutTrailingSpaces(s: string): (n: nat)
    ensures n <= |s|
    ensures forall i :: n <= i < |s| ==> IsSpace(s[i])
    ensures n > 0 ==> !IsSpace(s[n - 1])
    decreases |s|
  {
    if |s| == 0 || !IsSpace(s[|s| - 1]) then |s| else WithoutTrailingSpaces(s[..|s| - 1])
  }

  /** Python's str.strip(): `s` without leading and trailing whitespace. */
  function Strip(s: string): (r: string)
    ensures LeadingSpaces(s) + |r| <= |s|
    ensures r == s[LeadingSpaces(s)..LeadingSpaces(s) + |r|]
    ensures forall i :: LeadingSpaces(s) + |r| <= i < |s| ==> IsSpace(s[i])
    ensures |r| > 0 ==> !IsSpace(r[0]) && !IsSpace(r[|r| - 1])
  {
    var t := s[LeadingSpaces(s)..];
    t[..WithoutTrailingSpaces(t)]
  }

  /** The text of the AttributeError that `out.get` raises on a value that is not a dict. */
  function NoGetAttribute(typeName: string): string
  {
    "'" + typeName + "' object has no attribute 'get'"
  }

  /** The uniform fallback on a failed call: one error entry per record, in order. */
  function ErrorResults(records: seq<Record>, reason: string): (out: seq<Outcome>)
    ensures |out| == |records|
    ensures forall i :: 0 <= i < |out| ==>
              out[i] == AiError(records[i].deviceId, "AI analysis failed: " + reason)
  {
    seq(|records|, i requires 0 <= i < |records| => AiError(records[i].deviceId, "AI analysis failed: " + reason))
  }

  /** The position of the first element that is not a JSON object (|items| when there is none). */
  function FirstNonObject(items: seq<Payload>): (k: nat)
    ensures k <= |items|
    ensures forall j :: 0 <= j < k ==> items[j].JsonObject?
    ensures k < |items| ==> items[k].JsonOther?
    decreases |items|
  {
    if |items| == 0 || items[0].JsonOther? then 0 else 1 + FirstNonObject(items[1..])
  }

  /** The answer shaped into per-record entries, as `_call_external_ai_for_batch` returns it. */
  function Shaped(records: seq<Record>, response: Response): seq<Outcome>
  {
    match response
    case CallFailed(reason) => ErrorResults(records, reason)
    case ParsedList(items) =>
      var n := Min(|records|, |items|);
      var bad := FirstNonObject(items[..n]);
      if bad < n then ErrorResults(records, NoGetAttribute(items[bad].typeName))
      else seq(n, i requires 0 <= i < n => AiOutput(records[i].deviceId, items[i]))
    case Lines(lines) =>
      var n := Min(|records|, |lines|);
      seq(n, i requires 0 <= i < n => AiMessage(records[i].deviceId, Strip(lines[i])))
  }

  /** The device of an external result entry (None for a heuristic verdict). */
  function DeviceOf(o: Outcome): Option<string>
  {
    if o.Heuristic? then None else o.deviceId
  }

  /** Whatever the answer, entry i belongs to record i, and there are never more
      entries than records. */
  lemma ShapedBelongsToRecords(records: seq<Record>, response: Response)
    ensures |Shaped(records, response)| <= |records|
    ensures forall i :: 0 <= i < |Shaped(records, response)| ==>
              !Shaped(records, response)[i].Heuristic? &&
              DeviceOf(Shaped(records, response)[i]) == records[i].deviceId
  {
  }

  /** A structured list of objects is zipped with the records: min(|records|,
      |items|) entries, entry i carrying item i for record i. */
  lemma ShapedStructured(records: seq<Record>, items: seq<Payload>)
    requires forall j :: 0 <= j < Min(|records|, |items|) ==> items[j].JsonObject?
    ensures |Shaped(records, ParsedList(items))| == Min(|records|, |items|)
    ensures forall i :: 0 <= i < Min(|records|, |items|) ==>
              Shaped(records, ParsedList(items))[i] == AiOutput(records[i].deviceId, items[i])
  {
  }

  /** A zipped list element that is not an object makes the whole answer the
      uniform error list. */
  lemma ShapedStructuredNotObject(records: seq<Record>, items: seq<Payload>, j: nat)
    requires j < Min(|records|, |items|) && items[j].JsonOther?
    ensures |Shaped(records, ParsedList(items))| == |records|
    ensures forall i :: 0 <= i < |records| ==> Shaped(records, ParsedList(items))[i].AiError?
  {
    var n := Min(|records|, |items|);
    assert items[..n][j] == items[j];
  }

  /** The line fallback: min(|records|, |lines|) entries, entry i the stripped line i for record i. */
  lemma ShapedLines(records: seq<Record>, lines: seq<string>)
    ensures |Shaped(records, Lines(lines))| == Min(|records|, |lines|)
    ensures forall i :: 0 <= i < Min(|records|, |lines|) ==>
              Shaped(records, Lines(lines))[i] == AiMessage(records[i].deviceId, Strip(lines[i]))
  {
  }

  /** The external-call adapter: shapes the answer to `records` into one entry per record. */
  method CallExternalAiForBatch(records: seq<Record>, response: Response) returns (out: seq<Outcome>)
    ensures out == Shaped(records, response)
  {
    match response
    case CallFailed(reason) =>
      out := ErrorResults(records, reason);
    case ParsedList(items) =>
      var n := Min(|records|, |items|);
      out := [];
      var i := 0;
      while i < n
        invariant 0 <= i <= n
        invariant |out| == i
        invariant forall j :: 0 <= j < i ==> items[j].JsonObject?
        invariant forall j :: 0 <= j < i ==> out[j] == AiOutput(records[j].deviceId, items[j])
      {
        if items[i].JsonOther? {
          // out.get raises AttributeError; the handler returns the error list
          assert FirstNonObject(items[..n]) == i by {
            assert items[..n][i] == items[i];
          }
          out := ErrorResults(records, NoGetAttribute(items[i].typeName));
          return;
        }
        out := out + [AiOutput(records[i].deviceId, items[i])];
        i := i + 1;
      }
    case Lines(lines) =>
      var n := Min(|records|, |lines|);
      out := [];
      var i := 0;
      while i < n
        invariant 0 <= i <= n
        invariant |out| == i
        invariant forall j :: 0 <= j < i ==> out[j] == AiMessage(records[j].deviceId, Strip(lines[j]))
      {
        out := out + [AiMessage(records[i].deviceId, Strip(lines[i]))];
        i := i + 1;
      }
  }

  // ---------------------------------------------------------------------------
  // The batch routine

  /** The heuristic pass: a placeholder None for each record that needs AI and
      its verdict for every other record, with the AI records and their
      positions collected on the side. */
  method Partition(batch: seq<Record>)
    returns (results: seq<Option<Outcome>>, needed: seq<Record>, indices: seq<nat>)
    ensures |results| == |batch|
    ensures indices == AiIndices(batch) && needed == AiNeeded(batch)
    ensures forall i :: 0 <= i < |batch| ==> results[i] == FirstPass(batch[i])
  {
    results := [];
    needed := [];
    indices := [];
    var i := 0;
    while i < |batch|
      invariant 0 <= i <= |batch|
      invariant |results| == i
      invariant indices == AiIndicesUpTo(batch, i)
      invariant needed == AiNeededUpTo(batch, i)
      invariant forall j :: 0 <= j < i ==> results[j] == FirstPass(batch[j])
    {
      var res := RunAiAnalysis(batch[i]);
      if res.status == NeedsAi {
        needed := needed + [batch[i]];
        indices := indices + [i];
        results := results + [None];
      } else {
        results := results + [Some(res)];
      }
      i := i + 1;
    }
  }

  /** The merge `for idx, out in zip(ai_indices, ai_out): results[idx] = out`:
      position indices[k] receives aiOut[k] while both lists last, and every
      other position keeps its value. */
  method MergeBack(results: seq<Option<Outcome>>, indices: seq<nat>, aiOut: seq<Outcome>)
    returns (merged: seq<Option<Outcome>>)
    requires forall k :: 0 <= k < |indices| ==> indices[k] < |results|
    requires forall k, l :: 0 <= k < l < |indices| ==> indices[k] < indices[l]
    ensures |merged| == |results|
    ensures forall k :: 0 <= k < Min(|indices|, |aiOut|) ==> merged[indices[k]] == Some(aiOut[k])
    ensures forall p :: 0 <= p < |results| && p !in indices[..Min(|indices|, |aiOut|)] ==>
              merged[p] == results[p]
  {
    merged := results;
    var n := Min(|indices|, |aiOut|);
    var k := 0;
    while k < n
      invariant 0 <= k <= n
      invariant |merged| == |results|
      invariant forall j :: 0 <= j < k ==> merged[indices[j]] == Some(aiOut[j])
      invariant forall p :: 0 <= p < |results| && p !in indices[..k] ==> merged[p] == results[p]
    {
      assert indices[..k + 1] == indices[..k] + [indices[k]];
      merged := merged[indices[k] := Some(aiOut[k])];
      k := k + 1;
    }
  }

  /** Analyses a batch. `service` stands for the external call: given the
      records sent, it yields what the call produced. `sent` is what was sent
      to it, None when no record needed AI and no call was made. Results that
      the external answer does not cover stay None. */
  method RunAiAnalysisBatch(batch: seq<Record>, service: seq<Record> -> Response)
    returns (results: seq<Option<Outcome>>, sent: Option<seq<Record>>)
    ensures |results| == |batch|
    ensures sent == if AiIndices(batch) == [] then None else Some(AiNeeded(batch))
    ensures sent == None <==> forall i :: 0 <= i < |batch| ==> !NeedsAiRecord(batch[i])
    ensures forall i :: 0 <= i < |batch| && !NeedsAiRecord(batch[i]) ==>
              results[i] == Some(RunAiAnalysis(batch[i]))
    ensures sent.Some? ==>
              var out := Shaped(sent.value, service(sent.value));
              var idx := AiIndices(batch);
              && (forall k :: 0 <= k < |idx| && k < |out| ==> results[idx[k]] == Some(out[k]))
              && (forall k :: 0 <= k < |idx| && |out| <= k ==> results[idx[k]] == None)
  {
    var needed, indices;
    results, needed, indices := Partition(batch);
    AiIndicesExact(batch);
    AiNeededAtIndices(batch);
    NoAiNeeded(batch);
    if |needed| == 0 {
      sent := None;
      return;
    }
    sent := Some(needed);
    var aiOut := CallExternalAiForBatch(needed, service(needed));
    results := MergeBack(results, indices, aiOut);
    var n := Min(|indices|, |aiOut|);
    forall m | 0 <= m < |indices| && |aiOut| <= m
      ensures results[indices[m]] == None
    {
      assert forall j :: 0 <= j < n ==> indices[..n][j] < indices[m];
    }
  }
}
