/** Running the code a model emits, with retries (src/agents/llm_agent.rs:341-404, 1065-1078). */
module CodeExec {
  import opened Wrappers
  import opened Genai

  /** A finished child process: whether it exited successfully, and its combined output. */
  datatype Exit = Exit(success: bool, output: string)

  /** The executor: an arbitrary outcome for each attempt at each code part. */
  type Executor = (nat, nat, Code) -> Result<Exit, string>

  function CodeIn(parts: seq<Part>, lower: string -> string): seq<Code> {
    if parts == [] then []
    else (if parts[0].ExecutableCode? then [Code(lower(parts[0].code.language), parts[0].code.code)] else [])
         + CodeIn(parts[1..], lower)
  }

  /** Every code part, and no other, gives one piece of code, in its place among the others. */
  lemma {:induction false} EachCodePartOnce(before: seq<Part>, p: Part, after: seq<Part>, lower: string -> string)
    ensures CodeIn(before + [p] + after, lower) ==
            CodeIn(before, lower)
            + (if p.ExecutableCode? then [Code(lower(p.code.language), p.code.code)] else [])
            + CodeIn(after, lower)
    decreases before
  {
    var all := before + [p] + after;
    if before == [] {
      assert all[0] == p && all[1..] == after;
    } else {
      assert all[0] == before[0] && all[1..] == before[1..] + [p] + after;
      EachCodePartOnce(before[1..], p, after, lower);
      Associate(if before[0].ExecutableCode? then [Code(lower(before[0].code.language), before[0].code.code)] else [],
                CodeIn(before[1..], lower),
                if p.ExecutableCode? then [Code(lower(p.code.language), p.code.code)] else [],
                CodeIn(after, lower));
    }
  }

  function MaxAttempts(retryAttempts: nat): nat {
    if retryAttempts == 0 then 1 else retryAttempts
  }

  function ExitPart(e: Exit): Part {
    CodeExecutionResult(CodeResult(if e.success then Success else Failed, Some(e.output)))
  }

  function FailurePart(message: string): Part {
    CodeExecutionResult(CodeResult(Failed, Some(message)))
  }

  /** Result of a part from attempt `k` of `n` on, and the number of attempts made by then. */
  function Attempts(exec: Executor, i: nat, code: Code, k: nat, n: nat): (Part, nat)
    requires k < n
    decreases n - k
  {
    match exec(i, k, code)
    case Ok(exit) => (ExitPart(exit), k + 1)
    case Err(e) => if k + 1 == n then (FailurePart(e), n) else Attempts(exec, i, code, k + 1, n)
  }

  function ResultsOf(exec: Executor, codes: seq<Code>, retryAttempts: nat): seq<Part> {
    seq(|codes|, i requires 0 <= i < |codes| => Attempts(exec, i, codes[i], 0, MaxAttempts(retryAttempts)).0)
  }

  /** One result per part, in order; the second result counts the attempts made at each part. */
  method ExecuteAll(exec: Executor, codes: seq<Code>, retryAttempts: nat) returns (results: seq<Part>, tries: seq<nat>)
    ensures results == ResultsOf(exec, codes, retryAttempts)
    ensures |tries| == |codes| && forall i | 0 <= i < |codes| ::
              tries[i] == Attempts(exec, i, codes[i], 0, MaxAttempts(retryAttempts)).1
  {
    results, tries := [], [];
    var maxAttempts := MaxAttempts(retryAttempts);
    for i := 0 to |codes|
      invariant |results| == |tries| == i
      invariant forall j | 0 <= j < i ::
                  (results[j], tries[j]) == Attempts(exec, j, codes[j], 0, maxAttempts)
    {
      var lastErr: Option<string> := None;
      var delivered := false;
      var attempt := 0;
      ghost var goal := Attempts(exec, i, codes[i], 0, maxAttempts);
      while attempt < maxAttempts && !delivered
        invariant 0 <= attempt <= maxAttempts
        invariant !delivered ==> |results| == |tries| == i
        invariant !delivered && attempt < maxAttempts ==> Attempts(exec, i, codes[i], attempt, maxAttempts) == goal
        invariant !delivered && attempt == maxAttempts ==>
                    lastErr.Some? && goal == (FailurePart(lastErr.value), attempt)
        invariant delivered ==> |results| == |tries| == i + 1 && (results[i], tries[i]) == goal
        invariant forall j | 0 <= j < i ::
                    (results[j], tries[j]) == Attempts(exec, j, codes[j], 0, maxAttempts)
        decreases maxAttempts - attempt, !delivered
      {
        match exec(i, attempt, codes[i]) {
          case Ok(exit) =>
            results := results + [ExitPart(exit)];
            tries := tries + [attempt + 1];
            delivered := true;
          case Err(e) =>
            lastErr := Some(e);
            attempt := attempt + 1;
        }
      }
      if !delivered {
        results := results + [FailurePart(lastErr.value)];
        tries := tries + [maxAttempts];
      }
    }
  }

  /**
   * A part's result is that of its first successful attempt, after which none is made; if all attempts fail it is a
   * failure that carries the last error.  At most `max(1, retryAttempts)` attempts are made.
   */
  lemma {:induction false} FirstSuccessWins(exec: Executor, i: nat, code: Code, k: nat, n: nat)
    requires k < n
    ensures var (part, tries) := Attempts(exec, i, code, k, n);
            && k < tries <= n
            && (forall j | k <= j < tries - 1 :: exec(i, j, code).Err?)
            && match exec(i, tries - 1, code)
               case Ok(exit) => part == ExitPart(exit)
               case Err(e) => tries == n && part == FailurePart(e)
    decreases n - k
  {
    if exec(i, k, code).Err? && k + 1 < n {
      FirstSuccessWins(exec, i, code, k + 1, n);
    }
  }
}
