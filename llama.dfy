/**
 * The retry loop of `LlamaModel.chat_completion`. The backend's replies are an
 * input: the sequence of responses it gives to successive calls. A response
 * with choices but empty content consumes a retry; a response without choices
 * consumes none, so the loop is bounded by `max_retries` only when every
 * response has choices. When the modelled responses run out while the loop
 * would call the backend again, the run is still pending (outcome `None`).
 */
module Llama {
  import opened Wrappers
  import opened Strings

  /** One chat message sent to the backend. */
  datatype Message = Message(role: string, content: string)

  /** A choice of a reply; only its message content is read. */
  datatype Choice = Choice(content: string)

  /** A reply of the backend; `choices` is `None` when the key is missing. */
  datatype Response = Response(choices: Option<seq<Choice>>)

  /** What a caller of `chat_completion` observes: the content, or the exception. */
  datatype Completion = Completed(content: string) | Raised(message: string)

  /**
   * A run of the loop: its outcome (`None` while still waiting for a response
   * beyond the modelled ones), the number of backend calls it answered from the
   * input, and the final `retry_count`.
   */
  datatype ChatRun = ChatRun(outcome: Option<Completion>, calls: nat, retries: nat)

  const DefaultMaxRetries: int := 3

  /** `LlamaModel.system_prompt` */
  const DefaultSystemPrompt: string := "You are an AI assistant. You are helping a user with a task."

  /** The messages of one backend call: system first, then user. */
  function ChatMessages(systemPrompt: string, userPrompt: string): seq<Message>
  {
    [Message("system", systemPrompt), Message("user", userPrompt)]
  }

  predicate HasChoices(r: Response) {
    r.choices.Some? && |r.choices.value| > 0
  }

  /** A response whose first choice has non-empty content: the loop returns it. */
  predicate IsAnswer(r: Response) {
    HasChoices(r) && r.choices.value[0].content != ""
  }

  /** A response with choices but empty content: the loop retries. */
  predicate IsEmptyReply(r: Response) {
    HasChoices(r) && r.choices.value[0].content == ""
  }

  function AnswerOf(r: Response): string
    requires HasChoices(r)
  {
    r.choices.value[0].content
  }

  function FailureMessage(maxRetries: int): string
  {
    "Chat completion failed after " + IntString(maxRetries) + " retries"
  }

  /**
   * The loop from the state (`retryCount`, `calls` calls made so far) with
   * `responses` the replies still to come.
   */
  function Run(maxRetries: int, responses: seq<Response>, retryCount: nat, calls: nat): ChatRun
    decreases |responses|
  {
    if retryCount >= maxRetries then ChatRun(Some(Raised(FailureMessage(maxRetries))), calls, retryCount)
    else if |responses| == 0 then ChatRun(None, calls, retryCount)
    else if IsAnswer(responses[0]) then ChatRun(Some(Completed(AnswerOf(responses[0]))), calls + 1, retryCount)
    else if IsEmptyReply(responses[0]) then Run(maxRetries, responses[1..], retryCount + 1, calls + 1)
    else Run(maxRetries, responses[1..], retryCount, calls + 1)
  }

  /** `chat_completion` from its initial state. */
  function Chat(maxRetries: int, responses: seq<Response>): ChatRun
  {
    Run(maxRetries, responses, 0, 0)
  }

  /**
   * `LlamaModel.chat_completion(system_prompt, user_prompt, max_retries)`, with
   * `responses` the backend's replies in call order. Returns the outcome and
   * the messages of every backend call it made.
   */
  method ChatCompletion(systemPrompt: string, userPrompt: string, maxRetries: int, responses: seq<Response>)
    returns (outcome: Option<Completion>, sent: seq<seq<Message>>)
    ensures outcome == Chat(maxRetries, responses).outcome
    ensures |sent| == Chat(maxRetries, responses).calls
    ensures forall i :: 0 <= i < |sent| ==>
      sent[i] == [Message("system", systemPrompt), Message("user", userPrompt)]
  {
    var retryCount: nat := 0;
    var i := 0;
    sent := [];
    while retryCount < maxRetries
      invariant 0 <= i <= |responses| && |sent| == i
      invariant Run(maxRetries, responses[i..], retryCount, i) == Chat(maxRetries, responses)
      invariant forall k :: 0 <= k < |sent| ==> sent[k] == ChatMessages(systemPrompt, userPrompt)
      decreases |responses| - i
    {
      if i == |responses| {
        // the backend would be called again, beyond the modelled replies
        outcome := None;
        return;
      }
      var output := responses[i];
      assert responses[i..][1..] == responses[i + 1..];
      i := i + 1;
      sent := sent + [ChatMessages(systemPrompt, userPrompt)];
      if HasChoices(output) {
        if output.choices.value[0].content != "" {
          outcome := Some(Completed(output.choices.value[0].content));
          return;
        } else {
          retryCount := retryCount + 1;
        }
      }
    }
    outcome := Some(Raised(FailureMessage(maxRetries)));
  }

  // ---------------------------------------------------------------------------
  // What the loop does, stated over the responses

  /** Number of responses that have choices but empty content. */
  function EmptyCount(rs: seq<Response>): nat
  {
    if |rs| == 0 then 0 else EmptyCount(rs[..|rs| - 1]) + (if IsEmptyReply(rs[|rs| - 1]) then 1 else 0)
  }

  predicate NoAnswer(rs: seq<Response>) {
    forall j :: 0 <= j < |rs| ==> !IsAnswer(rs[j])
  }

  /** `k` is the index of the first answer among the responses. */
  predicate FirstAnswer(rs: seq<Response>, k: int) {
    0 <= k < |rs| && IsAnswer(rs[k]) && NoAnswer(rs[..k])
  }

  lemma EmptyCountCons(r: Response, rs: seq<Response>)
    ensures EmptyCount([r] + rs) == (if IsEmptyReply(r) then 1 else 0) + EmptyCount(rs)
    decreases |rs|
  {
    if |rs| > 0 {
      var init := rs[..|rs| - 1];
      assert ([r] + rs)[..|rs|] == [r] + init;
      EmptyCountCons(r, init);
    }
  }

  lemma EmptyCountAfterFirst(rs: seq<Response>, k: nat)
    requires 0 < k <= |rs|
    ensures EmptyCount(rs[..k]) == (if IsEmptyReply(rs[0]) then 1 else 0) + EmptyCount(rs[1..][..k - 1])
  {
    assert rs[..k] == [rs[0]] + rs[1..][..k - 1];
    EmptyCountCons(rs[0], rs[1..][..k - 1]);
  }

  /**
   * The loop returns the content of the first answer, after as many calls as
   * that answer's position, provided fewer than `max_retries` empty replies
   * came before it.
   */
  lemma {:induction false} RunAnswers(maxRetries: int, rs: seq<Response>, rc: nat, calls: nat, k: nat)
    requires FirstAnswer(rs, k)
    requires rc + EmptyCount(rs[..k]) < maxRetries
    ensures Run(maxRetries, rs, rc, calls) ==
      ChatRun(Some(Completed(AnswerOf(rs[k]))), calls + k + 1, rc + EmptyCount(rs[..k]))
  {
    if k > 0 {
      EmptyCountAfterFirst(rs, k);
      assert !IsAnswer(rs[0]) by { assert rs[..k][0] == rs[0]; }
      assert rs[1..][..k - 1] == rs[..k][1..];
      var rc' := rc + (if IsEmptyReply(rs[0]) then 1 else 0);
      RunAnswers(maxRetries, rs[1..], rc', calls + 1, k - 1);
    }
  }

  /**
   * The loop raises "Chat completion failed after N retries" on the response
   * that brings the empty replies to `max_retries`, when no answer came first.
   */
  lemma {:induction false} RunExhausts(maxRetries: int, rs: seq<Response>, rc: nat, calls: nat, j: nat)
    requires j < |rs| && IsEmptyReply(rs[j]) && NoAnswer(rs[..j])
    requires rc + EmptyCount(rs[..j + 1]) == maxRetries
    ensures Run(maxRetries, rs, rc, calls) ==
      ChatRun(Some(Raised(FailureMessage(maxRetries))), calls + j + 1, maxRetries as nat)
  {
    assert rs[..j + 1] == rs[..j] + [rs[j]];
    if j > 0 {
      EmptyCountAfterFirst(rs, j + 1);
      assert !IsAnswer(rs[0]) by { assert rs[..j][0] == rs[0]; }
      assert rs[1..][..j] == rs[..j + 1][1..];
      assert rs[1..][..j - 1] == rs[..j][1..];
      var rc' := rc + (if IsEmptyReply(rs[0]) then 1 else 0);
      RunExhausts(maxRetries, rs[1..], rc', calls + 1, j - 1);
    }
  }

  /**
   * With no answer and fewer than `max_retries` empty replies, every modelled
   * response is consumed and the loop still waits for another.
   */
  lemma {:induction false} RunPending(maxRetries: int, rs: seq<Response>, rc: nat, calls: nat)
    requires NoAnswer(rs)
    requires rc + EmptyCount(rs) < maxRetries
    ensures Run(maxRetries, rs, rc, calls) == ChatRun(None, calls + |rs|, rc + EmptyCount(rs))
  {
    if |rs| > 0 {
      EmptyCountAfterFirst(rs, |rs|);
      assert rs[1..][..|rs| - 1] == rs[1..];
      assert rs[..|rs|] == rs;
      var rc' := rc + (if IsEmptyReply(rs[0]) then 1 else 0);
      RunPending(maxRetries, rs[1..], rc', calls + 1);
    }
  }

  /** The three outcomes of `chat_completion`, each with the calls it takes. */
  lemma ChatOutcomes(maxRetries: int, rs: seq<Response>)
    ensures forall k :: FirstAnswer(rs, k) && EmptyCount(rs[..k]) < maxRetries ==>
      Chat(maxRetries, rs) == ChatRun(Some(Completed(AnswerOf(rs[k]))), k + 1, EmptyCount(rs[..k]))
    ensures forall j :: 0 <= j < |rs| && IsEmptyReply(rs[j]) && NoAnswer(rs[..j]) && EmptyCount(rs[..j + 1]) == maxRetries ==>
      Chat(maxRetries, rs) == ChatRun(Some(Raised(FailureMessage(maxRetries))), j + 1, maxRetries as nat)
    ensures NoAnswer(rs) && EmptyCount(rs) < maxRetries ==>
      Chat(maxRetries, rs) == ChatRun(None, |rs|, EmptyCount(rs))
  {
    forall k | FirstAnswer(rs, k) && EmptyCount(rs[..k]) < maxRetries
      ensures Chat(maxRetries, rs) == ChatRun(Some(Completed(AnswerOf(rs[k]))), k + 1, EmptyCount(rs[..k]))
    {
      RunAnswers(maxRetries, rs, 0, 0, k);
    }
    forall j | 0 <= j < |rs| && IsEmptyReply(rs[j]) && NoAnswer(rs[..j]) && EmptyCount(rs[..j + 1]) == maxRetries
      ensures Chat(maxRetries, rs) == ChatRun(Some(Raised(FailureMessage(maxRetries))), j + 1, maxRetries as nat)
    {
      RunExhausts(maxRetries, rs, 0, 0, j);
    }
    if NoAnswer(rs) && EmptyCount(rs) < maxRetries {
      RunPending(maxRetries, rs, 0, 0);
    }
  }

  /** With `max_retries <= 0` the loop raises without calling the backend. */
  lemma ChatWithoutRetries(maxRetries: int, rs: seq<Response>)
    requires maxRetries <= 0
    ensures Chat(maxRetries, rs) == ChatRun(Some(Raised(FailureMessage(maxRetries))), 0, 0)
  {
  }

  /** A response without choices. */
  const NoChoices: Response := Response(None)

  function Repeat(r: Response, n: nat): (rs: seq<Response>)
    ensures |rs| == n && forall i :: 0 <= i < n ==> rs[i] == r
  {
    if n == 0 then [] else Repeat(r, n - 1) + [r]
  }

  lemma {:induction false} EmptyCountNoChoices(n: nat)
    ensures EmptyCount(Repeat(NoChoices, n)) == 0
  {
    if n > 0 {
      var rs := Repeat(NoChoices, n);
      assert rs == Repeat(NoChoices, n - 1) + [NoChoices];
      assert rs[..n - 1] == Repeat(NoChoices, n - 1);
      assert !IsEmptyReply(rs[n - 1]);
      EmptyCountNoChoices(n - 1);
    }
  }

  /**
   * Responses without choices consume no retry: however many of them come,
   * the loop keeps calling the backend, so `max_retries` does not bound it.
   */
  lemma NoChoicesNeverEnd(maxRetries: int, n: nat)
    requires maxRetries >= 1
    ensures Chat(maxRetries, Repeat(NoChoices, n)) == ChatRun(None, n, 0)
  {
    EmptyCountNoChoices(n);
    RunPending(maxRetries, Repeat(NoChoices, n), 0, 0);
  }

  predicate AllHaveChoices(rs: seq<Response>) {
    forall j :: 0 <= j < |rs| ==> HasChoices(rs[j])
  }

  /**
   * When every response has choices, each call either answers or consumes a
   * retry: the loop makes at most `max_retries` calls and ends within them.
   */
  lemma {:induction false} RunBoundedWithChoices(maxRetries: int, rs: seq<Response>, rc: nat, calls: nat)
    requires AllHaveChoices(rs) && rc <= maxRetries
    ensures Run(maxRetries, rs, rc, calls).calls <= calls + (maxRetries - rc)
    ensures |rs| >= maxRetries - rc ==> Run(maxRetries, rs, rc, calls).outcome.Some?
  {
    if rc < maxRetries && |rs| > 0 && !IsAnswer(rs[0]) {
      RunBoundedWithChoices(maxRetries, rs[1..], rc + 1, calls + 1);
    }
  }

  lemma ChatBoundedWithChoices(maxRetries: int, rs: seq<Response>)
    requires AllHaveChoices(rs)
    ensures Chat(maxRetries, rs).calls <= if maxRetries < 0 then 0 else maxRetries
    ensures |rs| >= maxRetries ==> Chat(maxRetries, rs).outcome.Some?
  {
    if maxRetries >= 0 {
      RunBoundedWithChoices(maxRetries, rs, 0, 0);
    }
  }
}
