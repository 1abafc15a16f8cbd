/**
 * Text processing of the research pipeline: the greedy paragraph packer
 * `split_text`, the chunk-by-chunk summariser `summarize_text` with the model
 * as an oracle, and the range guard of `scroll_to_percentage`.
 */
module TextProcessing {
  import opened Wrappers
  import opened Strings
  import opened Json
  import opened Schema
  import Llama
  import Prompts

  const DefaultMaxLength: int := 8000

  // ---------------------------------------------------------------------------
  // split_text

  /** What a paragraph adds to the running length: itself and one line break. */
  function Cost(p: string): nat
  {
    |p| + 1
  }

  function SumCost(g: seq<string>): nat
  {
    if |g| == 0 then 0 else SumCost(g[..|g| - 1]) + Cost(g[|g| - 1])
  }

  function Flatten(gs: seq<seq<string>>): seq<string>
  {
    if |gs| == 0 then [] else Flatten(gs[..|gs| - 1]) + gs[|gs| - 1]
  }

  /**
   * The packer's variables after a prefix of the paragraphs: the groups yielded
   * so far, the open group and its running length.
   */
  datatype Packing = Packing(emitted: seq<seq<string>>, current: seq<string>, currentLength: int)

  /** One turn of the loop: add the paragraph to the open group or yield it and start afresh. */
  function PackStep(st: Packing, p: string, maxLength: int): Packing
  {
    if st.currentLength + |p| + 1 <= maxLength then
      Packing(st.emitted, st.current + [p], st.currentLength + |p| + 1)
    else
      Packing(st.emitted + [st.current], [p], |p| + 1)
  }

  function Pack(ps: seq<string>, maxLength: int): Packing
  {
    if |ps| == 0 then Packing([], [], 0)
    else PackStep(Pack(ps[..|ps| - 1], maxLength), ps[|ps| - 1], maxLength)
  }

  /** The paragraph groups behind the chunks: those yielded in the loop, then the open one if any. */
  function Groups(ps: seq<string>, maxLength: int): seq<seq<string>>
  {
    var st := Pack(ps, maxLength);
    if |st.current| > 0 then st.emitted + [st.current] else st.emitted
  }

  function JoinLines(gs: seq<seq<string>>): (r: seq<string>)
    ensures |r| == |gs|
    ensures forall k :: 0 <= k < |gs| ==> r[k] == Join("\n", gs[k])
  {
    if |gs| == 0 then [] else JoinLines(gs[..|gs| - 1]) + [Join("\n", gs[|gs| - 1])]
  }

  /** Everything `split_text(text, max_length)` yields, in order. */
  function Chunks(text: string, maxLength: int): seq<string>
  {
    JoinLines(Groups(Split(text, '\n'), maxLength))
  }

  /** A group is within bounds when it holds at most one paragraph or its cost fits. */
  predicate Fits(g: seq<string>, maxLength: int)
  {
    |g| <= 1 || SumCost(g) <= maxLength
  }

  method SplitText(text: string, maxLength: int) returns (chunks: seq<string>)
    ensures chunks == Chunks(text, maxLength)
  {
    var paragraphs := Split(text, '\n');
    var currentLength := 0;
    var currentChunk: seq<string> := [];
    ghost var emitted: seq<seq<string>> := [];
    chunks := [];
    for i := 0 to |paragraphs|
      invariant Pack(paragraphs[..i], maxLength) == Packing(emitted, currentChunk, currentLength)
      invariant chunks == JoinLines(emitted)
    {
      var paragraph := paragraphs[i];
      assert paragraphs[..i + 1][..i] == paragraphs[..i];
      if currentLength + |paragraph| + 1 <= maxLength {
        currentChunk := currentChunk + [paragraph];
        currentLength := currentLength + |paragraph| + 1;
      } else {
        chunks := chunks + [Join("\n", currentChunk)];
        emitted := emitted + [currentChunk];
        assert emitted[..|emitted| - 1] == emitted[..|emitted| - 1];
        currentChunk := [paragraph];
        currentLength := |paragraph| + 1;
      }
    }
    assert paragraphs[..|paragraphs|] == paragraphs;
    if |currentChunk| > 0 {
      chunks := chunks + [Join("\n", currentChunk)];
      emitted := emitted + [currentChunk];
    }
  }

  // Invariants of the packer, by induction over the paragraphs seen.

  lemma {:induction false} PackPartition(ps: seq<string>, m: int)
    ensures var st := Pack(ps, m);
      Flatten(st.emitted) + st.current == ps
      && st.currentLength == SumCost(st.current)
      && (|ps| >= 1 ==> |st.current| >= 1)
  {
    if |ps| > 0 {
      var init := ps[..|ps| - 1];
      var p := ps[|ps| - 1];
      assert ps == init + [p];
      PackPartition(init, m);
      PackStepKeeps(Pack(init, m), p, m);
    }
  }

  /** One turn of the loop keeps the paragraphs in order and the running length exact. */
  lemma PackStepKeeps(st: Packing, p: string, m: int)
    requires st.currentLength == SumCost(st.current)
    ensures var next := PackStep(st, p, m);
      Flatten(next.emitted) + next.current == Flatten(st.emitted) + st.current + [p]
      && next.currentLength == SumCost(next.current)
      && |next.current| >= 1
  {
    var next := PackStep(st, p, m);
    if st.currentLength + |p| + 1 <= m {
      assert next == Packing(st.emitted, st.current + [p], st.currentLength + |p| + 1);
      SumCostSnoc(st.current, p);
      assert Flatten(st.emitted) + (st.current + [p]) == Flatten(st.emitted) + st.current + [p];
    } else {
      assert next == Packing(st.emitted + [st.current], [p], |p| + 1);
      FlattenSnoc(st.emitted, st.current);
      SumCostSnoc([], p);
    }
  }

  lemma SumCostSnoc(g: seq<string>, p: string)
    ensures SumCost(g + [p]) == SumCost(g) + Cost(p)
  {
    assert (g + [p])[..|g|] == g;
  }

  predicate AllFit(gs: seq<seq<string>>, maxLength: int)
  {
    forall k :: 0 <= k < |gs| ==> Fits(gs[k], maxLength)
  }

  lemma {:induction false} PackLength(ps: seq<string>, m: int)
    ensures Pack(ps, m).currentLength == SumCost(Pack(ps, m).current)
  {
    if |ps| > 0 {
      var init := ps[..|ps| - 1];
      var p := ps[|ps| - 1];
      PackLength(init, m);
      var st := Pack(init, m);
      var c := st.current + [p];
      assert c[..|c| - 1] == st.current;
      assert [p][..0] == [];
    }
  }

  lemma {:induction false} PackCurrentFits(ps: seq<string>, m: int)
    ensures Fits(Pack(ps, m).current, m)
  {
    if |ps| > 0 {
      var init := ps[..|ps| - 1];
      var p := ps[|ps| - 1];
      PackLength(init, m);
      var st := Pack(init, m);
      if st.currentLength + |p| + 1 <= m {
        var c := st.current + [p];
        assert c[..|c| - 1] == st.current;
        assert SumCost(c) == st.currentLength + |p| + 1;
      }
    }
  }

  lemma {:induction false} PackBound(ps: seq<string>, m: int)
    ensures AllFit(Pack(ps, m).emitted, m)
  {
    if |ps| > 0 {
      var init := ps[..|ps| - 1];
      var p := ps[|ps| - 1];
      PackBound(init, m);
      PackCurrentFits(init, m);
      var st := Pack(init, m);
      if st.currentLength + |p| + 1 > m {
        var e := st.emitted + [st.current];
        assert forall k :: 0 <= k < |e| ==> e[k] == if k < |st.emitted| then st.emitted[k] else st.current;
      }
    }
  }

  /**
   * Only the first yielded group can be empty, and it is empty exactly when the
   * first paragraph alone overflows.
   */
  lemma {:induction false} PackShape(ps: seq<string>, m: int)
    requires |ps| >= 1
    ensures var st := Pack(ps, m);
      ((|st.emitted| >= 1 && st.emitted[0] == []) <==> Cost(ps[0]) > m)
      && (forall k :: 1 <= k < |st.emitted| ==> |st.emitted[k]| >= 1)
  {
    var init := ps[..|ps| - 1];
    var p := ps[|ps| - 1];
    if |init| == 0 {
      assert p == ps[0];
    } else {
      PackShape(init, m);
      PackPartition(init, m);
      assert init[0] == ps[0];
    }
  }

  /** `next` starts with a paragraph that would not have fitted after `g`. */
  predicate Overflows(g: seq<string>, next: seq<string>, maxLength: int)
  {
    |next| >= 1 && SumCost(g) + Cost(next[0]) > maxLength
  }

  /** Each yielded group is followed by a paragraph that would not have fitted into it. */
  predicate Greedy(st: Packing, m: int)
  {
    (forall k :: 1 <= k < |st.emitted| ==> Overflows(st.emitted[k - 1], st.emitted[k], m))
    && (|st.emitted| >= 1 ==> Overflows(st.emitted[|st.emitted| - 1], st.current, m))
  }

  /** Greedy: the packer never yields a group that the next paragraph would still have fitted into. */
  lemma {:induction false} PackGreedy(ps: seq<string>, m: int)
    requires |ps| >= 1
    ensures Greedy(Pack(ps, m), m)
  {
    var init := ps[..|ps| - 1];
    var p := ps[|ps| - 1];
    if |init| > 0 {
      PackGreedy(init, m);
      PackPartition(init, m);
      PackStepGreedy(Pack(init, m), p, m);
    }
  }

  /** One turn of the loop keeps the packing greedy. */
  lemma PackStepGreedy(st: Packing, p: string, m: int)
    requires st.currentLength == SumCost(st.current) && |st.current| >= 1
    requires Greedy(st, m)
    ensures Greedy(PackStep(st, p, m), m)
  {
    if st.currentLength + |p| + 1 <= m {
      assert (st.current + [p])[0] == st.current[0];
    } else {
      var e := st.emitted + [st.current];
      assert forall k :: 0 <= k < |st.emitted| ==> e[k] == st.emitted[k];
    }
  }

  lemma {:induction false} FlattenSnoc(gs: seq<seq<string>>, g: seq<string>)
    ensures Flatten(gs + [g]) == Flatten(gs) + g
  {
    assert (gs + [g])[..|gs|] == gs;
  }

  /** Flattening the groups of all chunks, in order, gives back exactly the paragraphs. */
  lemma GroupsPartition(ps: seq<string>, m: int)
    ensures Flatten(Groups(ps, m)) == ps
  {
    PackPartition(ps, m);
    var st := Pack(ps, m);
    if |st.current| > 0 {
      FlattenSnoc(st.emitted, st.current);
    }
  }

  lemma {:induction false} SumCostLength(g: seq<string>)
    ensures SumCost(g) == TotalLength(g) + |g|
  {
    if |g| > 0 {
      SumCostLength(g[..|g| - 1]);
    }
  }

  /**
   * A chunk of two or more paragraphs is at most `max_length - 1` long; any
   * other chunk is empty or one whole paragraph.
   */
  lemma ChunkBound(text: string, m: int)
    ensures var gs := Groups(Split(text, '\n'), m); var cs := Chunks(text, m);
      forall k :: 0 <= k < |cs| ==>
        (|gs[k]| >= 2 ==> |cs[k]| <= m - 1) && (|gs[k]| == 1 ==> cs[k] == gs[k][0]) && (|gs[k]| == 0 ==> cs[k] == "")
  {
    var ps := Split(text, '\n');
    var gs := Groups(ps, m);
    PackBound(ps, m);
    PackCurrentFits(ps, m);
    assert forall k :: 0 <= k < |gs| ==> Fits(gs[k], m);
    forall k | 0 <= k < |gs| && |gs[k]| >= 2
      ensures |Join("\n", gs[k])| <= m - 1
    {
      JoinLength("\n", gs[k]);
      SumCostLength(gs[k]);
    }
  }

  /**
   * Only the first group can be empty, and it is empty exactly when the first
   * paragraph overflows on its own.
   */
  lemma GroupsShape(ps: seq<string>, m: int)
    requires |ps| >= 1
    ensures var gs := Groups(ps, m);
      |gs| >= 1
      && (gs[0] == [] <==> Cost(ps[0]) > m)
      && (forall k :: 1 <= k < |gs| ==> gs[k] != [])
  {
    PackShape(ps, m);
    PackPartition(ps, m);
    var st := Pack(ps, m);
    var gs := Groups(ps, m);
    assert gs == st.emitted + [st.current];
    if |st.emitted| == 0 {
      assert Flatten(st.emitted) == [];
      assert gs[0] == ps;
    } else {
      assert gs[0] == st.emitted[0];
      assert forall k :: 1 <= k < |gs| ==> gs[k] == if k < |st.emitted| then st.emitted[k] else st.current;
    }
  }

  /**
   * There is always a chunk, and when the first paragraph overflows on its own
   * the first chunk is empty and more follow.
   */
  lemma LeadingEmptyChunk(text: string, m: int)
    ensures var ps := Split(text, '\n');
      |Chunks(text, m)| >= 1
      && (Cost(ps[0]) > m ==> |Chunks(text, m)| >= 2 && Chunks(text, m)[0] == "")
  {
    var ps := Split(text, '\n');
    GroupsShape(ps, m);
  }

  /** Every group is as large as it could be: the next paragraph would not have fitted. */
  lemma GroupsGreedy(ps: seq<string>, m: int)
    requires |ps| >= 1
    ensures var gs := Groups(ps, m);
      forall k :: 1 <= k < |gs| ==> Overflows(gs[k - 1], gs[k], m)
  {
    PackGreedy(ps, m);
    PackPartition(ps, m);
    var st := Pack(ps, m);
    var gs := Groups(ps, m);
    assert gs == st.emitted + [st.current];
    forall k | 1 <= k < |gs| ensures Overflows(gs[k - 1], gs[k], m) {
      assert gs[k - 1] == st.emitted[k - 1];
      if k < |st.emitted| {
        assert gs[k] == st.emitted[k];
      } else {
        assert gs[k] == st.current;
      }
    }
  }

  /** Empty text yields one empty chunk, or two when `max_length` is not positive. */
  lemma EmptyTextChunks(m: int)
    ensures Chunks("", m) == if m >= 1 then [""] else ["", ""]
  {
    assert Split("", '\n') == [""];
    assert [""][..0] == [];
    assert Pack([""], m) == PackStep(Packing([], [], 0), "", m);
  }

  lemma {:induction false} PackAllFit(ps: seq<string>, m: int)
    requires SumCost(ps) <= m
    ensures Pack(ps, m) == Packing([], ps, SumCost(ps))
  {
    if |ps| > 0 {
      var init := ps[..|ps| - 1];
      var p := ps[|ps| - 1];
      assert ps == init + [p];
      assert SumCost(ps) == SumCost(init) + Cost(p);
      PackAllFit(init, m);
      assert Pack(ps, m) == PackStep(Packing([], init, SumCost(init)), p, m);
    }
  }

  /** A text that fits with one line break to spare comes back as the single chunk. */
  lemma SplitTextFits(text: string, m: int)
    requires |text| + 1 <= m
    ensures Chunks(text, m) == [text]
  {
    var ps := Split(text, '\n');
    JoinSplit(text, '\n');
    JoinLength("\n", ps);
    SumCostLength(ps);
    PackAllFit(ps, m);
    assert JoinLines([ps])[0] == Join("\n", ps);
  }

  lemma {:induction false} JoinFlatten(gs: seq<seq<string>>)
    requires |gs| >= 1
    requires forall k :: 0 <= k < |gs| ==> |gs[k]| >= 1
    ensures Join("\n", JoinLines(gs)) == Join("\n", Flatten(gs))
  {
    var init := gs[..|gs| - 1];
    var g := gs[|gs| - 1];
    if |init| == 0 {
      assert gs == [g];
      assert JoinLines(gs) == [Join("\n", g)];
      assert Flatten(gs) == g;
    } else {
      JoinFlatten(init);
      JoinSnoc("\n", JoinLines(init), Join("\n", g));
      assert JoinLines(gs) == JoinLines(init) + [Join("\n", g)];
      FlattenNonEmpty(init);
      JoinAppend("\n", Flatten(init), g);
    }
  }

  lemma {:induction false} FlattenNonEmpty(gs: seq<seq<string>>)
    requires |gs| >= 1 && |gs[|gs| - 1]| >= 1
    ensures |Flatten(gs)| >= 1
  {
  }

  /** When the first paragraph fits, joining the chunks with line breaks restores the text. */
  lemma SplitTextRejoin(text: string, m: int)
    requires Cost(Split(text, '\n')[0]) <= m
    ensures Join("\n", Chunks(text, m)) == text
  {
    var ps := Split(text, '\n');
    var gs := Groups(ps, m);
    GroupsShape(ps, m);
    JoinFlatten(gs);
    GroupsPartition(ps, m);
    JoinSplit(text, '\n');
  }

  // ---------------------------------------------------------------------------
  // scroll_to_percentage

  /**
   * The range guard: a ratio outside [0, 1] raises with this message; any other
   * ratio scrolls the page to that fraction of its height.
   */
  function ScrollToPercentage(ratio: real): (r: Result<real, string>)
    ensures r.Failure? <==> ratio < 0.0 || ratio > 1.0
    ensures r.Failure? ==> r.error == "Percentage should be between 0 and 1"
    ensures r.Success? ==> r.value == ratio
  {
    if ratio < 0.0 || ratio > 1.0 then Failure("Percentage should be between 0 and 1")
    else Success(ratio)
  }

  /** The scroll position before chunk `i` of `n`: `i * (1 / n)`. */
  function ScrollRatio(i: nat, n: nat): real
    requires n >= 1
  {
    (i as real) * (1.0 / (n as real))
  }

  /** Every position the summariser scrolls to lies in [0, 1), so the guard never fires. */
  lemma ScrollRatioInRange(i: nat, n: nat)
    requires i < n
    ensures 0.0 <= ScrollRatio(i, n) < 1.0
    ensures ScrollToPercentage(ScrollRatio(i, n)).Success?
  {
    var x := i as real;
    var r := n as real;
    var q := 1.0 / r;
    assert q > 0.0 && r * q == 1.0;
    assert 0.0 <= x * q by {
      assert 0.0 <= x;
    }
    assert x * q < 1.0 by {
      assert x + 1.0 <= r;
      assert (x + 1.0) * q <= r * q;
      assert x * q + q <= 1.0;
    }
  }

  /** The positions scrolled to before the first `count` of `n` chunks. */
  function ScrollPlan(count: nat, n: nat): (r: seq<real>)
    requires count <= n
    ensures |r| == count
    ensures forall i :: 0 <= i < count ==> 0.0 <= r[i] < 1.0
  {
    if count == 0 then []
    else
      ScrollRatioInRange(count - 1, n);
      ScrollPlan(count - 1, n) + [ScrollRatio(count - 1, n)]
  }

  // ---------------------------------------------------------------------------
  // summarize_text

  /** The messages of one model call. */
  datatype Prompt = Prompt(system: string, user: string)

  const SummarySystemFrame: Prompts.Frame := Prompts.Frame(
    "\nYou are an advanced research assistant, specialized in summarizing information extracted from the internet based on a given query. Your task is to analyze the provided text and generate a concise, relevant summary that directly addresses the query.\n\nWhen presented with a query and accompanying text, follow these steps:\n\n1. Carefully read and understand the query, identifying the key information being requested.\n\n2. Thoroughly analyze the provided text to determine its relevance to the query:\n   - If the text is directly relevant, proceed to step 3.\n   - If the text is partially relevant, extract and summarize only the relevant portions.\n   - If the text is entirely irrelevant, notify the user and provide an explanation.\n\n3. Generate a clear and concise summary that directly addresses the query, focusing on the most pertinent information from the text.\n\n4. Ensure that your summary is well-structured, easy to understand, and free of unnecessary details or redundancies.\n\n5. Follow the formatting instructions provided in the documentation below:\n\n",
    "\n\nYour goal is to provide accurate, focused, and well-formatted summaries that efficiently address the user's query, saving them time and effort in their research process.\n")

  /** The system message of every per-chunk call and of the second pass. */
  function SummarySystemMessage(documentation: string): string
  {
    SummarySystemFrame.Fill(documentation)
  }

  const FinalSystemFrame: Prompts.Frame := Prompts.Frame(
    "You are an advanced AI research assistant, tasked with parsing and combining multiple summaries on the same topic into one document. The following is the expected output:\n\n",
    "")

  /** The system message of the final call. */
  function FinalSystemMessage(documentation: string): string
  {
    FinalSystemFrame.Fill(documentation)
  }

  /** The schema documentation reads back verbatim out of both system messages. */
  lemma SystemMessagesReadBack(documentation: string)
    ensures SummarySystemFrame.Unfill(SummarySystemMessage(documentation)) == Some(documentation)
    ensures FinalSystemFrame.Unfill(FinalSystemMessage(documentation)) == Some(documentation)
  {
    Prompts.FrameRoundTrip(SummarySystemFrame, documentation);
    Prompts.FrameRoundTrip(FinalSystemFrame, documentation);
  }

  /** What the loop does with one chunk's reply. */
  datatype Verdict = Keep(summary: string) | Skip | Abort(error: CallError)

  /**
   * Only a reply `json.loads` rejects is skipped; a raised call, a reply that
   * decodes to something other than an object, or one that does not validate as
   * a `Summary` ends the run.
   */
  function ChunkVerdict(reply: Llama.Completion, parse: string -> Option<Json>): (v: Verdict)
    ensures v.Skip? <==> reply.Completed? && parse(reply.content).None?
    ensures v.Keep? <==>
      reply.Completed? && parse(reply.content).Some? && ValidateSummary(parse(reply.content).value).Some?
    ensures v.Keep? ==> v.summary == ValidateSummary(parse(reply.content).value).value.summary
    ensures v == Abort(NotAMapping) <==>
      reply.Completed? && parse(reply.content).Some? && !parse(reply.content).value.JObject?
    ensures v.Abort? && reply.Completed? ==> v.error == ValidationError || v.error == NotAMapping
    ensures v.Abort? ==> !v.error.JsonDecodeError?
  {
    match FromCompletion(reply, parse, ValidateSummary)
    case Success(s) => Keep(s.summary)
    case Failure(e) => if e.JsonDecodeError? then Skip else Abort(e)
  }

  function ChunkPrompts(question: string, chunks: seq<string>, system: string): (r: seq<Prompt>)
  {
    seq(|chunks|, i requires 0 <= i < |chunks| => Prompt(system, Prompts.SummarizeTextPrompt(question, chunks[i])))
  }

  /** The verdict on every chunk, the `i`-th reply being that of call `i`. */
  function Verdicts(prompts: seq<Prompt>, chat: (nat, Prompt) -> Llama.Completion, parse: string -> Option<Json>)
    : (r: seq<Verdict>)
  {
    seq(|prompts|, i requires 0 <= i < |prompts| => ChunkVerdict(chat(i, prompts[i]), parse))
  }

  /** The loop's state after some chunks: the summaries kept, or the error that ended it, and the calls made. */
  datatype Stage = Stage(outcome: Result<seq<string>, CallError>, calls: nat)

  function Fold(vs: seq<Verdict>): (r: Stage)
    ensures r.calls <= |vs|
    ensures r.outcome.Success? ==> r.calls == |vs|
  {
    if |vs| == 0 then Stage(Success([]), 0)
    else
      var st := Fold(vs[..|vs| - 1]);
      if st.outcome.Failure? then st
      else
        match vs[|vs| - 1]
        case Keep(s) => Stage(Success(st.outcome.value + [s]), st.calls + 1)
        case Skip => Stage(st.outcome, st.calls + 1)
        case Abort(e) => Stage(Failure(e), st.calls + 1)
  }

  /** The kept summaries, in chunk order. */
  function Kept(vs: seq<Verdict>): seq<string>
  {
    if |vs| == 0 then []
    else (if vs[0].Keep? then [vs[0].summary] else []) + Kept(vs[1..])
  }

  lemma {:induction false} KeptSnoc(vs: seq<Verdict>, v: Verdict)
    ensures Kept(vs + [v]) == Kept(vs) + (if v.Keep? then [v.summary] else [])
  {
    if |vs| > 0 {
      assert (vs + [v])[1..] == vs[1..] + [v];
      KeptSnoc(vs[1..], v);
    } else {
      assert [v][1..] == [];
    }
  }

  /**
   * The loop against its reference: with no aborting chunk the run keeps the
   * `Keep` summaries in chunk order after one call per chunk; otherwise it
   * stops with the first abort's error right after that chunk's call.
   */
  lemma {:induction false} FoldSpec(vs: seq<Verdict>, j: nat)
    requires j <= |vs|
    requires forall i :: 0 <= i < j ==> !vs[i].Abort?
    ensures j == |vs| ==> Fold(vs) == Stage(Success(Kept(vs)), |vs|)
    ensures j < |vs| && vs[j].Abort? ==> Fold(vs) == Stage(Failure(vs[j].error), j + 1)
  {
    if |vs| > 0 {
      var init := vs[..|vs| - 1];
      var v := vs[|vs| - 1];
      assert vs == init + [v];
      if j == |vs| {
        FoldSpec(init, |init|);
        KeptSnoc(init, v);
        assert !v.Abort?;
        assert Fold(init) == Stage(Success(Kept(init)), |init|);
        assert Kept(vs) == Kept(init) + (if v.Keep? then [v.summary] else []);
        if v.Keep? {
          assert Fold(vs) == Stage(Success(Kept(init) + [v.summary]), |init| + 1);
        } else {
          assert Fold(vs) == Stage(Success(Kept(init)), |init| + 1);
          assert Kept(init) + [] == Kept(init);
        }
      } else if vs[j].Abort? {
        if j == |vs| - 1 {
          FoldSpec(init, |init|);
        } else {
          FoldSpec(init, j);
          assert init[j] == vs[j];
        }
      }
    }
  }

  /** The index of the first aborting verdict, `|vs|` when there is none. */
  function FirstAbort(vs: seq<Verdict>): (j: nat)
    ensures j <= |vs|
    ensures forall i :: 0 <= i < j ==> !vs[i].Abort?
    ensures j < |vs| ==> vs[j].Abort?
  {
    if |vs| == 0 || vs[0].Abort? then 0 else 1 + FirstAbort(vs[1..])
  }

  lemma FoldCharacterised(vs: seq<Verdict>)
    ensures var j := FirstAbort(vs);
      Fold(vs) == if j == |vs| then Stage(Success(Kept(vs)), |vs|) else Stage(Failure(vs[j].error), j + 1)
  {
    FoldSpec(vs, FirstAbort(vs));
  }

  /** One more verdict while the loop is running. */
  lemma FoldStep(vs: seq<Verdict>, i: nat, kept: seq<string>)
    requires i < |vs| && Fold(vs[..i]) == Stage(Success(kept), i)
    ensures Fold(vs[..i + 1]) ==
      match vs[i]
      case Keep(s) => Stage(Success(kept + [s]), i + 1)
      case Skip => Stage(Success(kept), i + 1)
      case Abort(e) => Stage(Failure(e), i + 1)
  {
    assert vs[..i + 1][..i] == vs[..i];
  }

  /** Once the loop has stopped, later verdicts change nothing. */
  lemma {:induction false} FoldStops(vs: seq<Verdict>, j: nat)
    requires j <= |vs| && Fold(vs[..j]).outcome.Failure?
    ensures Fold(vs) == Fold(vs[..j])
  {
    if j < |vs| {
      var init := vs[..|vs| - 1];
      assert init[..j] == vs[..j];
      FoldStops(init, j);
    } else {
      assert vs[..j] == vs;
    }
  }

  /** The text the final call works from: the joined summaries, or one summary of them when too long. */
  datatype Condensed = Condensed(text: Result<string, CallError>, sent: seq<Prompt>)

  function Condense(question: string, combined: string, maxLength: int, system: string, call: nat,
                    chat: (nat, Prompt) -> Llama.Completion, parse: string -> Option<Json>): (r: Condensed)
    ensures |r.sent| <= 1
    ensures |r.sent| == 1 <==> |combined| > maxLength
  {
    if |combined| > maxLength then
      var p := Prompt(system, Prompts.SummarizeTextPrompt(question, combined));
      var reply := FromCompletion(chat(call, p), parse, ValidateSummary);
      Condensed(if reply.Success? then Success(reply.value.summary) else Failure(reply.error), [p])
    else
      Condensed(Success(combined), [])
  }

  /** The separator between kept summaries. */
  const SectionSeparator: string := "\nsection\n"

  datatype SummaryRun = SummaryRun(result: Result<ArticleSummary, CallError>, prompts: seq<Prompt>)

  /**
   * `summarize_text(question, text, max_length)`: the article summary or the
   * error that ended the run, and the messages of every model call, in order.
   */
  function Summarize(question: string, text: string, maxLength: int, summaryDoc: string, articleDoc: string,
                     chat: (nat, Prompt) -> Llama.Completion, parse: string -> Option<Json>): SummaryRun
  {
    var chunks := Chunks(text, maxLength);
    var system := SummarySystemMessage(summaryDoc);
    var sent := ChunkPrompts(question, chunks, system);
    var stage := Fold(Verdicts(sent, chat, parse));
    if stage.outcome.Failure? then SummaryRun(Failure(stage.outcome.error), sent[..stage.calls])
    else Finish(question, Join(SectionSeparator, stage.outcome.value), maxLength, system, articleDoc, sent, chat, parse)
  }

  /**
   * The rest of a run once every chunk is summarised: the optional second pass
   * over the joined summaries, then the final call; `sent` are the chunk calls.
   */
  function Finish(question: string, combined: string, maxLength: int, system: string, articleDoc: string,
                  sent: seq<Prompt>, chat: (nat, Prompt) -> Llama.Completion, parse: string -> Option<Json>): SummaryRun
  {
    var c := Condense(question, combined, maxLength, system, |sent|, chat, parse);
    if c.text.Failure? then SummaryRun(Failure(c.text.error), sent + c.sent)
    else
      var last := Prompt(FinalSystemMessage(articleDoc), Prompts.FinalSummaryPrompt(question, c.text.value));
      var reply := chat(|sent| + |c.sent|, last);
      SummaryRun(FromCompletion(reply, parse, ValidateArticleSummary), sent + c.sent + [last])
  }

  /** The per-chunk loop, up to and including the call whose reply ends it. */
  method SummarizeChunks(question: string, chunks: seq<string>, system: string, hasDriver: bool,
                         chat: (nat, Prompt) -> Llama.Completion, parse: string -> Option<Json>)
    returns (outcome: Result<seq<string>, CallError>, prompts: seq<Prompt>, scrolls: seq<real>)
    requires |chunks| >= 1
    ensures var sent := ChunkPrompts(question, chunks, system);
      Fold(Verdicts(sent, chat, parse)) == Stage(outcome, |prompts|) && prompts == sent[..|prompts|]
    ensures scrolls == if hasDriver then ScrollPlan(|prompts|, |chunks|) else []
  {
    var n := |chunks|;
    var scrollRatio := 1.0 / (n as real);
    ghost var sent := ChunkPrompts(question, chunks, system);
    ghost var vs := Verdicts(sent, chat, parse);
    var summaries: seq<string> := [];
    prompts := [];
    scrolls := [];
    for i := 0 to n
      invariant Fold(vs[..i]) == Stage(Success(summaries), i)
      invariant prompts == sent[..i]
      invariant scrolls == if hasDriver then ScrollPlan(i, n) else []
    {
      if hasDriver {
        var ratio := ScrollBeforeChunk(i, n, scrollRatio);
        scrolls := scrolls + [ratio];
      }
      var p := Prompt(system, Prompts.SummarizeTextPrompt(question, chunks[i]));
      var reply := chat(i, p);
      prompts := prompts + [p];
      assert sent[..i + 1] == sent[..i] + [p];
      FoldStep(vs, i, summaries);
      var verdict := ChunkVerdict(reply, parse);
      assert verdict == vs[i];
      match verdict {
        case Abort(e) =>
          FoldStops(vs, i + 1);
          outcome := Failure(e);
          return;
        case Skip =>
        case Keep(s) =>
          summaries := summaries + [s];
      }
    }
    assert vs[..n] == vs;
    outcome := Success(summaries);
  }

  method SummarizeText(question: string, text: string, maxLength: int, hasDriver: bool,
                       summaryDoc: string, articleDoc: string,
                       chat: (nat, Prompt) -> Llama.Completion, parse: string -> Option<Json>)
    returns (result: Result<ArticleSummary, CallError>, prompts: seq<Prompt>, scrolls: seq<real>)
    ensures SummaryRun(result, prompts) == Summarize(question, text, maxLength, summaryDoc, articleDoc, chat, parse)
    ensures var n := |Chunks(text, maxLength)|;
      n >= 1 && scrolls == if hasDriver then ScrollPlan(if |prompts| < n then |prompts| else n, n) else []
  {
    var chunks := SplitText(text, maxLength);
    LeadingEmptyChunk(text, maxLength);
    var system := SummarySystemMessage(summaryDoc);
    ghost var sent := ChunkPrompts(question, chunks, system);
    var outcome;
    outcome, prompts, scrolls := SummarizeChunks(question, chunks, system, hasDriver, chat, parse);
    if outcome.Failure? {
      result := Failure(outcome.error);
      return;
    }
    assert prompts == sent;
    result, prompts := FinishSummary(question, Join(SectionSeparator, outcome.value), maxLength, system, articleDoc,
                                     prompts, chat, parse);
  }

  /** The scroll before chunk `i` of `n`: `scroll_to_percentage(i * scroll_ratio)`, which always succeeds. */
  method ScrollBeforeChunk(i: nat, n: nat, scrollRatio: real) returns (ratio: real)
    requires i < n && scrollRatio == 1.0 / (n as real)
    ensures ratio == ScrollRatio(i, n) && 0.0 <= ratio < 1.0
  {
    ratio := (i as real) * scrollRatio;
    ScrollRatioInRange(i, n);
    var scrolled := ScrollToPercentage(ratio);
    assert scrolled.Success?;
  }

  /** The second pass, if any, and the final call, after the chunk calls `sent`. */
  method FinishSummary(question: string, combined: string, maxLength: int, system: string, articleDoc: string,
                       sent: seq<Prompt>, chat: (nat, Prompt) -> Llama.Completion, parse: string -> Option<Json>)
    returns (result: Result<ArticleSummary, CallError>, prompts: seq<Prompt>)
    ensures SummaryRun(result, prompts) == Finish(question, combined, maxLength, system, articleDoc, sent, chat, parse)
    ensures |sent| < |prompts| <= |sent| + 2
  {
    var condensed, extra := CondenseSummaries(question, combined, maxLength, system, |sent|, chat, parse);
    prompts := sent + extra;
    if condensed.Failure? {
      result := Failure(condensed.error);
      return;
    }
    var finalPrompt := Prompt(FinalSystemMessage(articleDoc), Prompts.FinalSummaryPrompt(question, condensed.value));
    var finalReply := chat(|prompts|, finalPrompt);
    prompts := prompts + [finalPrompt];
    result := FromCompletion(finalReply, parse, ValidateArticleSummary);
  }

  /** The condensing call: one more summary of the joined summaries when they are too long. */
  method CondenseSummaries(question: string, combined: string, maxLength: int, system: string, call: nat,
                           chat: (nat, Prompt) -> Llama.Completion, parse: string -> Option<Json>)
    returns (text: Result<string, CallError>, sent: seq<Prompt>)
    ensures Condensed(text, sent) == Condense(question, combined, maxLength, system, call, chat, parse)
  {
    text := Success(combined);
    sent := [];
    if |combined| > maxLength {
      var p := Prompt(system, Prompts.SummarizeTextPrompt(question, combined));
      var reply := chat(call, p);
      sent := [p];
      var summary := FromCompletion(reply, parse, ValidateSummary);
      if summary.Failure? {
        text := Failure(summary.error);
      } else {
        text := Success(summary.value.summary);
      }
    }
  }

  // Properties of a whole run

  /** A chunk that ends the run is the last call: nothing after it is sent. */
  lemma SummarizeAborts(question: string, text: string, m: int, summaryDoc: string, articleDoc: string,
                        chat: (nat, Prompt) -> Llama.Completion, parse: string -> Option<Json>)
    ensures var sent := ChunkPrompts(question, Chunks(text, m), SummarySystemMessage(summaryDoc));
      var vs := Verdicts(sent, chat, parse); var j := FirstAbort(vs);
      j < |vs| ==>
        Summarize(question, text, m, summaryDoc, articleDoc, chat, parse) == SummaryRun(Failure(vs[j].error), sent[..j + 1])
  {
    var sent := ChunkPrompts(question, Chunks(text, m), SummarySystemMessage(summaryDoc));
    FoldCharacterised(Verdicts(sent, chat, parse));
  }

  /**
   * When no chunk ends the run and the kept summaries, joined with the section
   * separator, fit in `max_length`, the only call after the chunks is the final
   * one, over exactly that joined text.
   */
  lemma SummarizeShortCombined(question: string, text: string, m: int, summaryDoc: string, articleDoc: string,
                               chat: (nat, Prompt) -> Llama.Completion, parse: string -> Option<Json>)
    ensures var chunks := Chunks(text, m);
      var sent := ChunkPrompts(question, chunks, SummarySystemMessage(summaryDoc));
      var vs := Verdicts(sent, chat, parse);
      var combined := Join(SectionSeparator, Kept(vs));
      var last := Prompt(FinalSystemMessage(articleDoc), Prompts.FinalSummaryPrompt(question, combined));
      FirstAbort(vs) == |vs| && |combined| <= m ==>
        Summarize(question, text, m, summaryDoc, articleDoc, chat, parse)
          == SummaryRun(FromCompletion(chat(|chunks|, last), parse, ValidateArticleSummary), sent + [last])
  {
    var sent := ChunkPrompts(question, Chunks(text, m), SummarySystemMessage(summaryDoc));
    FoldCharacterised(Verdicts(sent, chat, parse));
  }

  /**
   * When the joined summaries are longer than `max_length`, exactly one second
   * pass summarises them; the final call then works on that one summary, and
   * the run makes no further call.
   */
  lemma SummarizeLongCombined(question: string, text: string, m: int, summaryDoc: string, articleDoc: string,
                              chat: (nat, Prompt) -> Llama.Completion, parse: string -> Option<Json>)
    ensures var chunks := Chunks(text, m); var n := |chunks|;
      var system := SummarySystemMessage(summaryDoc);
      var sent := ChunkPrompts(question, chunks, system);
      var vs := Verdicts(sent, chat, parse);
      var combined := Join(SectionSeparator, Kept(vs));
      var second := Prompt(system, Prompts.SummarizeTextPrompt(question, combined));
      var condensed := FromCompletion(chat(n, second), parse, ValidateSummary);
      var r := Summarize(question, text, m, summaryDoc, articleDoc, chat, parse);
      FirstAbort(vs) == |vs| && |combined| > m ==>
        (condensed.Failure? ==> r == SummaryRun(Failure(condensed.error), sent + [second]))
        && (condensed.Success? ==>
              var last := Prompt(FinalSystemMessage(articleDoc),
                                 Prompts.FinalSummaryPrompt(question, condensed.value.summary));
              r == SummaryRun(FromCompletion(chat(n + 1, last), parse, ValidateArticleSummary),
                              sent + [second, last]))
  {
    var system := SummarySystemMessage(summaryDoc);
    var sent := ChunkPrompts(question, Chunks(text, m), system);
    var vs := Verdicts(sent, chat, parse);
    FoldCharacterised(vs);
    var combined := Join(SectionSeparator, Kept(vs));
    var second := Prompt(system, Prompts.SummarizeTextPrompt(question, combined));
    var condensed := FromCompletion(chat(|sent|, second), parse, ValidateSummary);
    if condensed.Success? {
      var last := Prompt(FinalSystemMessage(articleDoc), Prompts.FinalSummaryPrompt(question, condensed.value.summary));
      assert sent + [second] + [last] == sent + [second, last];
    }
  }

  /**
   * A run makes at most two calls beyond one per chunk, and a reply that
   * `json.loads` rejects on a chunk never ends it: a decoding failure can only
   * come from the second pass or the final call.
   */
  lemma SummarizeCallBudget(question: string, text: string, m: int, summaryDoc: string, articleDoc: string,
                            chat: (nat, Prompt) -> Llama.Completion, parse: string -> Option<Json>)
    ensures var n := |Chunks(text, m)|; var r := Summarize(question, text, m, summaryDoc, articleDoc, chat, parse);
      1 <= |r.prompts| <= n + 2
      && (r.result == Failure(JsonDecodeError) ==> |r.prompts| > n)
  {
    var chunks := Chunks(text, m);
    LeadingEmptyChunk(text, m);
    var sent := ChunkPrompts(question, chunks, SummarySystemMessage(summaryDoc));
    var vs := Verdicts(sent, chat, parse);
    var j := FirstAbort(vs);
    if j < |vs| {
      SummarizeAborts(question, text, m, summaryDoc, articleDoc, chat, parse);
      assert vs[j] == ChunkVerdict(chat(j, sent[j]), parse);
    } else if |Join(SectionSeparator, Kept(vs))| <= m {
      SummarizeShortCombined(question, text, m, summaryDoc, articleDoc, chat, parse);
    } else {
      SummarizeLongCombined(question, text, m, summaryDoc, articleDoc, chat, parse);
    }
  }
}
