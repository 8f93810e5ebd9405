/**
 * The response handling of the packaged LLM client (`build/lib/aeon/core/llm.py`):
 * the JSON-object extractor with its brace-depth scanner, head/tail truncation,
 * the bounded retry of `get_plan`/`get_action`, and the fallbacks of the
 * summariser, the interruption classifier and the milestone analyser.
 * Provider calls are oracles: a function from the attempt number to a `Reply`.
 */
module BuildLlm {
  import opened Wrappers
  import opened Text
  import opened JsonValue
  import opened Provider

  // ---------------------------------------------------------------------------
  // The brace-depth scanner
  // ---------------------------------------------------------------------------

  /** The scanner's variables between two characters. */
  datatype Scan = Scan(depth: int, start: int, inString: bool, escapeNext: bool)

  const ScanInit: Scan := Scan(0, -1, false, false)

  /** The effect of character `c` at index `i` on the scanner, when it does not end the scan. */
  function Step(st: Scan, c: char, i: int): Scan {
    if st.escapeNext then st.(escapeNext := false)
    else if c == '\\' then st.(escapeNext := true)
    else if c == '"' then st.(inString := !st.inString)
    else if st.inString then st
    else if c == '{' then st.(depth := st.depth + 1, start := if st.start == -1 then i else st.start)
    else if c == '}' then st.(depth := st.depth - 1)
    else st
  }

  /** The scanner's variables just before index `i` of `s`. */
  function StateAt(s: string, i: nat): Scan
    requires i <= |s|
    decreases i
  {
    if i == 0 then ScanInit else Step(StateAt(s, i - 1), s[i - 1], i - 1)
  }

  /** Index `i` of `s` holds a brace the scanner counts: not escaped and not inside a string. */
  predicate Counted(s: string, i: nat)
    requires i < |s|
  {
    !StateAt(s, i).escapeNext && !StateAt(s, i).inString && (s[i] == '{' || s[i] == '}')
  }

  /** Index `i` holds a counted '}' that brings the depth back to 0 after an object has started. */
  predicate ClosesAt(s: string, i: nat)
    requires i < |s|
  {
    Counted(s, i) && s[i] == '}' && StateAt(s, i).depth == 1 && StateAt(s, i).start != -1
  }

  /** The first index at or after `i` where the scanned object closes, or -1. */
  function FirstClose(s: string, i: nat): (r: int)
    requires i <= |s|
    ensures r == -1 || (i <= r < |s| && ClosesAt(s, r) && 0 <= StateAt(s, r).start < r)
    ensures forall j :: i <= j < |s| && (r == -1 || j < r) ==> !ClosesAt(s, j)
    decreases |s| - i
  {
    if i == |s| then -1
    else if ClosesAt(s, i) then StartIsFirstOpen(s, i); i
    else FirstClose(s, i + 1)
  }

  /** The recorded start is -1 until the first counted '{', and that index afterwards. */
  lemma {:induction false} StartIsFirstOpen(s: string, i: nat)
    requires i <= |s|
    ensures StateAt(s, i).start == -1 <==> forall j :: 0 <= j < i ==> !(Counted(s, j) && s[j] == '{')
    ensures StateAt(s, i).start != -1 ==>
              0 <= StateAt(s, i).start < i && s[StateAt(s, i).start] == '{' && Counted(s, StateAt(s, i).start)
              && forall j :: 0 <= j < StateAt(s, i).start ==> !(Counted(s, j) && s[j] == '{')
    decreases i
  {
    if i > 0 {
      StartIsFirstOpen(s, i - 1);
    }
  }

  /** The regex fallback `\{.*\}` with DOTALL: first '{' to last '}', or "{}". */
  function GreedyObject(c: string): (r: string)
    ensures r == "{}" || (|r| >= 2 && r[0] == '{' && r[|r| - 1] == '}')
  {
    var first := FindChar(c, '{');
    var last := RFindChar(c, '}');
    if first >= 0 && last > first then c[first..last + 1] else "{}"
  }

  /** The object extracted from an already stripped response: the scanned object, else the fallback. */
  function ExtractObject(c: string): string {
    var j := FirstClose(c, 0);
    if j >= 0 then c[StateAt(c, j).start..j + 1] else GreedyObject(c)
  }

  /**
   * `_clean_json_response`: "{}" for an empty response; otherwise the object
   * extracted after the `<think>`/fence removal `prepass` and `strip()`.
   */
  function CleanJson(content: string, prepass: string -> string): string {
    if content == "" then "{}" else ExtractObject(Strip(prepass(content)))
  }

  /** Text taken out of `c` between two indices (a contiguous infix). */
  predicate Infix(r: string, c: string) {
    exists i, j :: 0 <= i <= j <= |c| && r == c[i..j]
  }

  /** The extracted text is "{}" or a piece of `c` that begins with '{' and ends with '}'. */
  lemma {:induction false} ExtractObjectShape(c: string)
    ensures var r := ExtractObject(c);
            r == "{}" || (Infix(r, c) && |r| >= 2 && r[0] == '{' && r[|r| - 1] == '}')
  {
    var r := ExtractObject(c);
    var j := FirstClose(c, 0);
    if j >= 0 {
      StartIsFirstOpen(c, j);
      var st := StateAt(c, j).start;
      assert r == c[st..j + 1];
      assert r[0] == c[st] && r[|r| - 1] == c[j];
      assert Infix(r, c);
    } else if r != "{}" {
      var first := FindChar(c, '{');
      var last := RFindChar(c, '}');
      assert r == c[first..last + 1];
      assert Infix(r, c);
    }
  }

  /** The cleaned text is "{}" for an empty response, and otherwise "{}" or a '{'...'}' piece of the stripped response. */
  lemma {:induction false} CleanJsonShape(content: string, prepass: string -> string)
    ensures content == "" ==> CleanJson(content, prepass) == "{}"
    ensures var r := CleanJson(content, prepass);
            r == "{}" || (Infix(r, Strip(prepass(content))) && |r| >= 2 && r[0] == '{' && r[|r| - 1] == '}')
  {
    if content != "" {
      ExtractObjectShape(Strip(prepass(content)));
    }
  }

  /** When the scanner closes an object at `j`, the result runs from the first counted '{' to `j`. */
  lemma {:induction false} ExtractScanned(c: string)
    requires FirstClose(c, 0) >= 0
    ensures var j := FirstClose(c, 0);
            exists st :: 0 <= st < j && Counted(c, st) && c[st] == '{'
              && (forall k :: 0 <= k < st ==> !(Counted(c, k) && c[k] == '{'))
              && ExtractObject(c) == c[st..j + 1]
  {
    var j := FirstClose(c, 0);
    StartIsFirstOpen(c, j);
    var st := StateAt(c, j).start;
    assert 0 <= st < j && Counted(c, st) && c[st] == '{';
  }

  /** When no object closes, the result is the first-'{'-to-last-'}' span, or "{}" when there is none. */
  lemma {:induction false} ExtractFallback(c: string)
    requires FirstClose(c, 0) == -1
    ensures var first := FindChar(c, '{');
            var last := RFindChar(c, '}');
            ExtractObject(c) == if 0 <= first < last then c[first..last + 1] else "{}"
  {
  }

  /**
   * The scanner as the source writes it: one pass over the stripped text,
   * updating the depth, the start, the in-string and escape flags.
   */
  method ScanObject(c: string) returns (jsonStart: int, jsonEnd: int)
    ensures jsonEnd == -1 <==> FirstClose(c, 0) == -1
    ensures jsonEnd != -1 ==> jsonEnd == FirstClose(c, 0) + 1 && jsonStart == StateAt(c, jsonEnd - 1).start
                              && jsonStart != -1
  {
    var braceCount := 0;
    var inString := false;
    var escapeNext := false;
    jsonStart := -1;
    jsonEnd := -1;
    var i := 0;
    while i < |c|
      invariant 0 <= i <= |c|
      invariant Scan(braceCount, jsonStart, inString, escapeNext) == StateAt(c, i)
      invariant forall j :: 0 <= j < i ==> !ClosesAt(c, j)
      decreases |c| - i
    {
      var ch := c[i];
      if escapeNext {
        escapeNext := false;
      } else if ch == '\\' {
        escapeNext := true;
      } else if ch == '"' {
        inString := !inString;
      } else if inString {
      } else if ch == '{' {
        if jsonStart == -1 {
          jsonStart := i;
        }
        braceCount := braceCount + 1;
      } else if ch == '}' {
        braceCount := braceCount - 1;
        if braceCount == 0 && jsonStart != -1 {
          assert ClosesAt(c, i);
          assert FirstClose(c, i) == i;
          FirstCloseSkips(c, 0, i);
          jsonEnd := i + 1;
          return;
        }
      }
      i := i + 1;
    }
    FirstCloseSkips(c, 0, |c|);
  }

  /** `FirstClose` passes over a stretch with no closing index. */
  lemma {:induction false} FirstCloseSkips(s: string, i: nat, k: nat)
    requires i <= k <= |s|
    requires forall j :: i <= j < k ==> !ClosesAt(s, j)
    ensures FirstClose(s, i) == FirstClose(s, k)
    decreases k - i
  {
    if i < k {
      FirstCloseSkips(s, i + 1, k);
    }
  }

  /** `_clean_json_response`, with the scan loop. */
  method CleanJsonResponse(content: string, prepass: string -> string) returns (r: string)
    ensures r == CleanJson(content, prepass)
  {
    if content == "" {
      return "{}";
    }
    var c := Strip(prepass(content));
    var jsonStart, jsonEnd := ScanObject(c);
    if jsonStart != -1 && jsonEnd != -1 {
      StartIsFirstOpen(c, jsonEnd - 1);
      return c[jsonStart..jsonEnd];
    }
    return GreedyObject(c);
  }

  /** A brace inside a string literal is not counted: the whole object is kept. */
  lemma {:induction false} QuotedBraceIgnored()
    ensures ExtractObject("{\"a\":\"}\"}") == "{\"a\":\"}\"}"
  {
    var c := "{\"a\":\"}\"}";
    assert StateAt(c, 0) == Scan(0, -1, false, false);
    assert StateAt(c, 1) == Scan(1, 0, false, false);
    assert StateAt(c, 2) == Scan(1, 0, true, false);
    assert StateAt(c, 3) == Scan(1, 0, true, false);
    assert StateAt(c, 4) == Scan(1, 0, false, false);
    assert StateAt(c, 5) == Scan(1, 0, false, false);
    assert StateAt(c, 6) == Scan(1, 0, true, false);
    assert StateAt(c, 7) == Scan(1, 0, true, false);
    assert StateAt(c, 8) == Scan(1, 0, false, false);
    forall j | 0 <= j < 8
      ensures !ClosesAt(c, j)
    {
      assert c[j] != '}' || StateAt(c, j).inString;
    }
    assert ClosesAt(c, 8);
    FirstCloseSkips(c, 0, 8);
    assert c[0..9] == c;
  }

  /**
   * A stray '}' before the first '{' drives the depth below zero and the scan
   * never closes: the fallback span is returned instead, here "{} {x}",
   * which is not one object.
   */
  lemma {:induction false} StrayCloseBraceQuirk()
    ensures FirstClose("}{} {x}", 0) == -1
    ensures ExtractObject("}{} {x}") == "{} {x}"
  {
    var c := "}{} {x}";
    assert StateAt(c, 0).depth == 0;
    assert StateAt(c, 1).depth == -1;
    assert StateAt(c, 2).depth == 0;
    assert StateAt(c, 3).depth == -1;
    assert StateAt(c, 4).depth == -1;
    assert StateAt(c, 5).depth == 0;
    assert StateAt(c, 6).depth == 0;
    forall j | 0 <= j < |c|
      ensures !ClosesAt(c, j)
    {
      assert StateAt(c, j).depth != 1;
    }
    FirstCloseSkips(c, 0, |c|);
    assert FindChar(c, '{') == 1;
    assert RFindChar(c, '}') == 6;
    assert c[1..7] == "{} {x}";
  }

  // ---------------------------------------------------------------------------
  // Head/tail truncation
  // ---------------------------------------------------------------------------

  function TruncationMarker(dropped: nat): string {
    "\n... [TRUNCATED " + NatToString(dropped) + " CHARS] ...\n"
  }

  /**
   * `_truncate_with_tail`: text within `head + tail` characters is returned as
   * is; longer text keeps its first `head` and last `tail` characters around a
   * marker giving the number of characters dropped (`text[-0:]` keeps all).
   */
  function TruncateWithTail(text: string, head: nat, tail: nat): (r: string)
    ensures |text| <= head + tail ==> r == text
    ensures |text| > head + tail ==>
              StartsWith(r, text[..head] + TruncationMarker(|text| - head - tail))
              && EndsWith(r, TakeLast(text, tail))
  {
    if |text| <= head + tail then text
    else text[..head] + TruncationMarker(|text| - head - tail) + TakeLast(text, tail)
  }

  /** Kept head, dropped middle and kept tail make up the text, and the marker counts the middle. */
  lemma {:induction false} TruncationAccounts(text: string, head: nat, tail: nat)
    requires |text| > head + tail && tail > 0
    ensures var dropped := text[head..|text| - tail];
            text == text[..head] + dropped + text[|text| - tail..]
            && TruncateWithTail(text, head, tail) == text[..head] + TruncationMarker(|dropped|) + text[|text| - tail..]
            && |dropped| == |text| - head - tail
  {
    var dropped := text[head..|text| - tail];
    assert text == text[..head] + dropped + text[|text| - tail..];
  }

  // ---------------------------------------------------------------------------
  // Bounded retry of get_plan / get_action
  // ---------------------------------------------------------------------------

  /** The feedback block one retry appends to the original prompt. */
  function RetryFeedback(lastError: string, rawHead: string): string {
    "\n\n** RETRY - YOUR PREVIOUS RESPONSE HAD INVALID JSON **\nError: " + lastError
    + "\nRaw output started with: " + rawHead
    + "...\n\nYou MUST output ONLY a valid JSON object. No text before { or after }. Use double quotes only."
  }

  /**
   * A prompt the retry loop sends: the original prompt, or the original prompt
   * with one feedback block naming the last parse error and the first 300
   * characters of the rejected answer.
   */
  datatype PromptSent = Original(prompt: string) | WithFeedback(prompt: string, lastError: string, rawHead: string)
  {
    /** The text sent to the provider. */
    function Text(): string {
      match this
      case Original(p) => p
      case WithFeedback(p, e, h) => p + RetryFeedback(e, h)
    }
  }

  /** An answer whose cleaned text `json.loads` rejects. */
  predicate Rejected(reply: Reply, clean: string -> string, loads: string -> Result<Json>) {
    reply.Answer? && loads(clean(reply.content)).Err?
  }

  /** The prompt of the attempt after a rejected answer: the original prompt plus one feedback block. */
  function RetryPrompt(prompt: string, reply: Reply, clean: string -> string, loads: string -> Result<Json>): PromptSent
    requires Rejected(reply, clean, loads)
  {
    WithFeedback(prompt, "JSON parse error: " + loads(clean(reply.content)).error, Take(reply.content, 300))
  }

  /**
   * The prompts sent so far: the first is the original prompt; each later one
   * follows a rejected answer and is the original plus feedback on that answer alone.
   */
  predicate PromptsFollow(prompt: string, sent: seq<PromptSent>, replies: nat -> Reply,
                          clean: string -> string, loads: string -> Result<Json>) {
    (|sent| > 0 ==> sent[0] == Original(prompt))
    && forall k :: 0 <= k < |sent| - 1 ==>
         (Rejected(replies(k), clean, loads) && sent[k + 1] == RetryPrompt(prompt, replies(k), clean, loads))
  }

  lemma {:induction false} PromptsFollowSnoc(prompt: string, sent: seq<PromptSent>, next: PromptSent, replies: nat -> Reply,
                          clean: string -> string, loads: string -> Result<Json>)
    requires PromptsFollow(prompt, sent, replies, clean, loads)
    requires |sent| == 0 ==> next == Original(prompt)
    requires |sent| > 0 ==>
               (Rejected(replies(|sent| - 1), clean, loads) && next == RetryPrompt(prompt, replies(|sent| - 1), clean, loads))
    ensures PromptsFollow(prompt, sent + [next], replies, clean, loads)
  {
    var s2 := sent + [next];
    forall k | 0 <= k < |s2| - 1
      ensures Rejected(replies(k), clean, loads) && s2[k + 1] == RetryPrompt(prompt, replies(k), clean, loads)
    {
      if k + 1 < |sent| {
        assert s2[k + 1] == sent[k + 1];
      }
    }
  }

  /** Every prompt sent is built on the original prompt: retries do not accumulate feedback. */
  lemma {:induction false} PromptsShareOriginal(prompt: string, sent: seq<PromptSent>, replies: nat -> Reply,
                             clean: string -> string, loads: string -> Result<Json>)
    requires PromptsFollow(prompt, sent, replies, clean, loads)
    ensures forall k :: 0 <= k < |sent| ==> sent[k].prompt == prompt
  {
    forall k | 0 <= k < |sent|
      ensures sent[k].prompt == prompt
    {
      if k > 0 {
        assert sent[(k - 1) + 1] == RetryPrompt(prompt, replies(k - 1), clean, loads);
      }
    }
  }

  /** The outcome of a call that either returns text or lets an exception through. */
  datatype Outcome = Returned(text: string) | Raised(error: string)

  /**
   * The retry loop shared by `get_plan` and `get_action`, over the response
   * cleaner `clean`. `replies(k)` is the provider's reply to attempt `k`;
   * `sent` is the prompts sent, in order.
   */
  method QueryJson(prompt: string, maxRetries: int, fallback: string, replies: nat -> Reply,
                   clean: string -> string, loads: string -> Result<Json>)
    returns (out: Outcome, sent: seq<PromptSent>)
    ensures |sent| <= MaxOf0(maxRetries)
    ensures PromptsFollow(prompt, sent, replies, clean, loads)
    // a failing call propagates
    ensures out.Raised? <==> (|sent| > 0 && replies(|sent| - 1).Failure?)
    ensures out.Raised? ==> out.error == replies(|sent| - 1).error
    // the first answer that parses is returned cleaned
    ensures out.Returned? && |sent| > 0 && !Rejected(replies(|sent| - 1), clean, loads) ==>
              out.text == clean(replies(|sent| - 1).content)
    // otherwise every attempt was rejected and the fallback is returned
    ensures out.Returned? && (|sent| == 0 || Rejected(replies(|sent| - 1), clean, loads)) ==>
              (|sent| == MaxOf0(maxRetries) && out.text == fallback)
  {
    var currentPrompt := Original(prompt);
    sent := [];
    var attempt := 0;
    while attempt < maxRetries
      invariant 0 <= attempt == |sent| <= MaxOf0(maxRetries)
      invariant PromptsFollow(prompt, sent, replies, clean, loads)
      invariant attempt > 0 ==> Rejected(replies(attempt - 1), clean, loads)
      invariant attempt == 0 ==> currentPrompt == Original(prompt)
      invariant attempt > 0 && attempt < maxRetries ==>
                  currentPrompt == RetryPrompt(prompt, replies(attempt - 1), clean, loads)
      decreases maxRetries - attempt
    {
      PromptsFollowSnoc(prompt, sent, currentPrompt, replies, clean, loads);
      sent := sent + [currentPrompt];
      var reply := replies(attempt);
      if reply.Failure? {
        return Raised(reply.error), sent;
      }
      var raw := reply.content;
      var cleaned := clean(raw);
      var parsed := loads(cleaned);
      if parsed.Ok? {
        return Returned(cleaned), sent;
      }
      var lastError := "JSON parse error: " + parsed.error;
      if attempt < maxRetries - 1 {
        currentPrompt := WithFeedback(prompt, lastError, Take(raw, 300));
      }
      attempt := attempt + 1;
    }
    out := Returned(fallback);
  }

  /** An answer whose text, cleaned by `_clean_json_response`, does not parse. */
  predicate RejectedAnswer(reply: Reply, prepass: string -> string, loads: string -> Result<Json>) {
    reply.Answer? && loads(CleanJson(reply.content, prepass)).Err?
  }

  /** `get_plan`: the retry loop over `_clean_json_response` with fallback '{}'. */
  method GetPlan(prompt: string, maxRetries: int, replies: nat -> Reply,
                 prepass: string -> string, loads: string -> Result<Json>)
    returns (out: Outcome, sent: seq<PromptSent>)
    ensures |sent| <= MaxOf0(maxRetries)
    ensures |sent| > 0 ==> sent[0] == Original(prompt)
    ensures forall k :: 0 <= k < |sent| ==> sent[k].prompt == prompt
    ensures out.Raised? <==> (|sent| > 0 && replies(|sent| - 1).Failure?)
    ensures forall k :: 0 <= k < |sent| - 1 ==> RejectedAnswer(replies(k), prepass, loads)
    ensures out.Returned? && |sent| > 0 && !RejectedAnswer(replies(|sent| - 1), prepass, loads) ==>
              out.text == CleanJson(replies(|sent| - 1).content, prepass)
    ensures out.Returned? && (|sent| == 0 || RejectedAnswer(replies(|sent| - 1), prepass, loads)) ==>
              (|sent| == MaxOf0(maxRetries) && out.text == "{}")
  {
    out, sent := QueryJson(prompt, maxRetries, "{}", replies, c => CleanJson(c, prepass), loads);
    PromptsShareOriginal(prompt, sent, replies, c => CleanJson(c, prepass), loads);
  }

  /** `get_action`: the retry loop over `_clean_json_response` with fallback '{"actions": []}'. */
  method GetAction(prompt: string, maxRetries: int, replies: nat -> Reply,
                   prepass: string -> string, loads: string -> Result<Json>)
    returns (out: Outcome, sent: seq<PromptSent>)
    ensures |sent| <= MaxOf0(maxRetries)
    ensures |sent| > 0 ==> sent[0] == Original(prompt)
    ensures forall k :: 0 <= k < |sent| ==> sent[k].prompt == prompt
    ensures out.Raised? <==> (|sent| > 0 && replies(|sent| - 1).Failure?)
    ensures forall k :: 0 <= k < |sent| - 1 ==> RejectedAnswer(replies(k), prepass, loads)
    ensures out.Returned? && |sent| > 0 && !RejectedAnswer(replies(|sent| - 1), prepass, loads) ==>
              out.text == CleanJson(replies(|sent| - 1).content, prepass)
    ensures out.Returned? && (|sent| == 0 || RejectedAnswer(replies(|sent| - 1), prepass, loads)) ==>
              (|sent| == MaxOf0(maxRetries) && out.text == "{\"actions\": []}")
  {
    out, sent := QueryJson(prompt, maxRetries, "{\"actions\": []}", replies, c => CleanJson(c, prepass), loads);
    PromptsShareOriginal(prompt, sent, replies, c => CleanJson(c, prepass), loads);
  }

  // ---------------------------------------------------------------------------
  // Fallbacks of the single-shot calls
  // ---------------------------------------------------------------------------

  /** The text `summarize_execution` sends to the summariser: a 4000-character head and a 16000-character tail. */
  function SummaryInput(rawOut: string): (r: string)
    ensures |rawOut| <= 20000 ==> r == rawOut
    ensures |rawOut| > 20000 ==> StartsWith(r, rawOut[..4000]) && EndsWith(r, rawOut[|rawOut| - 16000..])
  {
    TruncateWithTail(rawOut, 4000, 16000)
  }

  /** The first part of the summariser's failure message: the reason and the raw length. */
  function SummaryFailureHead(reason: string, rawLength: nat): string {
    "!! SYSTEM ERROR: SUMMARIZATION FAILED !!\nReason: " + reason + "\nOutput Length: " + NatToString(rawLength)
  }

  /** The last part of the summariser's failure message: at most the last 1000 raw characters. */
  function SummaryFailureTail(rawOut: string): string {
    "--- RAW TAIL (Last 1000 chars) ---\n" + TakeLast(rawOut, 1000)
  }

  lemma {:induction false} ThreePartAffixes(a: string, b: string, c: string)
    ensures StartsWith(a + b + c, a) && EndsWith(a + b + c, c)
  {
    assert a + b + c == a + (b + c);
    ConcatAffixes(a, b + c);
    ConcatAffixes(a + b, c);
  }

  /**
   * `summarize_execution`: the summariser's answer, or on failure a loud
   * message carrying the reason, the raw length and the last 1000 characters.
   */
  function SummarizeExecution(rawOut: string, reply: Reply): (r: string)
    ensures reply.Answer? ==> r == reply.content
    ensures reply.Failure? ==>
              StartsWith(r, SummaryFailureHead(reply.error, |rawOut|)) && EndsWith(r, SummaryFailureTail(rawOut))
  {
    match reply
    case Answer(content) => content
    case Failure(e) =>
      var tailSample := if |rawOut| > 1000 then rawOut[|rawOut| - 1000..] else rawOut;
      assert tailSample == TakeLast(rawOut, 1000);
      ThreePartAffixes(SummaryFailureHead(e, |rawOut|), "\n", SummaryFailureTail(rawOut));
      SummaryFailureHead(e, |rawOut|) + "\n" + ("--- RAW TAIL (Last 1000 chars) ---\n" + tailSample)
  }

  /** The classification `analyze_interruption` falls back to. */
  function InterruptionFallback(userInput: string): (r: Json)
    ensures r.JObj? && Get(r.fields, "classification", JNull) == JStr("ADVICE")
    ensures Get(r.fields, "updated_text", JNull) == JStr(userInput)
  {
    JObj(map["classification" := JStr("ADVICE"), "updated_text" := JStr(userInput),
             "reasoning" := JStr("Failed to analyze")])
  }

  /** `analyze_interruption`: the decoded answer (not cleaned), or the ADVICE fallback on any failure. */
  function AnalyzeInterruption(userInput: string, reply: Reply, loads: string -> Result<Json>): (r: Json)
    ensures reply.Failure? ==> r == InterruptionFallback(userInput)
    ensures reply.Answer? && loads(reply.content).Err? ==> r == InterruptionFallback(userInput)
    ensures reply.Answer? && loads(reply.content).Ok? ==> r == loads(reply.content).value
  {
    match reply
    case Failure(_) => InterruptionFallback(userInput)
    case Answer(content) =>
      match loads(content)
      case Ok(v) => v
      case Err(_) => InterruptionFallback(userInput)
  }

  /** `analyze_milestones`: the decoded cleaned answer, or `{}` on any failure. */
  function AnalyzeMilestones(reply: Reply, prepass: string -> string, loads: string -> Result<Json>): (r: Json)
    ensures reply.Failure? ==> r == EmptyObject
    ensures reply.Answer? && loads(CleanJson(reply.content, prepass)).Err? ==> r == EmptyObject
    ensures reply.Answer? && loads(CleanJson(reply.content, prepass)).Ok? ==>
              r == loads(CleanJson(reply.content, prepass)).value
  {
    match reply
    case Failure(_) => EmptyObject
    case Answer(content) =>
      match loads(CleanJson(content, prepass))
      case Ok(v) => v
      case Err(_) => EmptyObject
  }
}
