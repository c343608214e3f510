/** The older single-prompt relay of telegram/main.go: one loop over incoming updates that
    keeps a history of at most about a hundred entries, builds one completion prompt from
    it, retries a failed completion up to three times while dropping history, filters the
    answer and sends it. */
module LegacyRelay {
  import opened Text
  import opened Collaborators

  /** The history is trimmed to this many entries before a new one is added
      (telegram/main.go:80). */
  const HistoryCap := 100
  /** Completion attempts per update (telegram/main.go:122). */
  const MaxRetries := 3

  datatype Update = Update(message: Option<Message>)

  // ----- History trim and prompt (telegram/main.go:80-83, 100-118) -----

  /** The trim loop: drop the head while more than HistoryCap entries remain. */
  method Trim(history: seq<string>) returns (trimmed: seq<string>)
    ensures trimmed == Newest(history, HistoryCap)
  {
    trimmed := history;
    while |trimmed| > HistoryCap
      invariant trimmed == history[|history| - |trimmed|..]
      invariant |trimmed| >= HistoryCap || trimmed == history
    {
      trimmed := trimmed[1..];
    }
  }

  /** After the trim the history holds at most HistoryCap entries and is what remains of
      the old one after dropping from the front; after the append it holds at most one
      more and ends with the new entry. */
  lemma TrimThenAppend(history: seq<string>, logMsg: string)
    ensures var t := Newest(history, HistoryCap);
      && |t| <= HistoryCap
      && t == history[|history| - |t|..]
      && (|history| <= HistoryCap ==> t == history)
      && |t + [logMsg]| <= HistoryCap + 1
      && (t + [logMsg])[|t|] == logMsg
      && (t + [logMsg])[..|t|] == t
  {
  }

  /** The loop of telegram/main.go:100-103: the history entries joined with no separator. */
  method JoinHistory(history: seq<string>) returns (msgContext: string)
    ensures msgContext == Concat(history)
  {
    msgContext := "";
    var i := 0;
    while i < |history|
      invariant 0 <= i <= |history|
      invariant msgContext == Concat(history[..i])
    {
      assert history[..i + 1][..i] == history[..i];
      msgContext := msgContext + history[i];
      i := i + 1;
    }
    assert history[..i] == history;
  }

  /** The completion prompt: the preamble file, the joined history (which already ends with
      the new message), a separator, the postamble file and the new message again. */
  function Prompt(preContext: string, history: seq<string>, posContext: string, logMsg: string): string
  {
    preContext + Concat(history) + "\n---\n" + posContext + logMsg
  }

  /** Every history entry appears, whole and in its place, inside the prompt. */
  lemma PromptHoldsHistory(preContext: string, history: seq<string>, posContext: string, logMsg: string, i: nat)
    requires i < |history|
    ensures var p := Prompt(preContext, history, posContext, logMsg);
      var at := |preContext| + |Concat(history[..i])|;
      at + |history[i]| <= |p| && p[at..at + |history[i]|] == history[i]
  {
    ConcatHasEveryPart(history, i);
    var c := Concat(history);
    var p := Prompt(preContext, history, posContext, logMsg);
    var at := |Concat(history[..i])|;
    assert p == preContext + c + ("\n---\n" + posContext + logMsg);
    assert p[|preContext|..|preContext| + |c|] == c;
    assert p[|preContext| + at..|preContext| + at + |history[i]|] == c[at..at + |history[i]|];
  }

  // ----- Retry with shrinking history (telegram/main.go:122-143) -----

  /** The model's answer to the `k`-th attempt. Attempts beyond the supplied list fail
      before streaming anything. */
  function ReplyAt(attempts: seq<Reply>, k: nat): Reply
  {
    if k < |attempts| then attempts[k] else CreateError
  }

  /** Every chunk streamed by the first `n` attempts, joined in order. */
  function Streamed(attempts: seq<Reply>, n: nat): string
  {
    if n == 0 then "" else Streamed(attempts, n - 1) + Concat(Chunks(ReplyAt(attempts, n - 1)))
  }

  /** `n` identical completion calls with `prompt`. */
  function Asks(prompt: string, n: nat): seq<Effect>
  {
    if n == 0 then [] else Asks(prompt, n - 1) + [Ask(Completion(prompt))]
  }

  /** The calls of one update are all the same call. */
  lemma {:induction false} AsksAreSame(prompt: string, n: nat)
    ensures |Asks(prompt, n)| == n
    ensures forall i :: 0 <= i < n ==> Asks(prompt, n)[i] == Ask(Completion(prompt))
  {
    if n > 0 {
      AsksAreSame(prompt, n - 1);
    }
  }

  datatype RetryStatus = Answered | GaveUp | Panicked

  /** Where the retry loop stops: the history then, the accumulated response, how many
      calls were made and why it stopped. */
  datatype Retry = Retry(history: seq<string>, response: string, calls: nat, status: RetryStatus)

  /** The retry loop entered at the `retry:` label with history `history`, response so far
      `response`, `budget` retries left and `k` calls made. The callback appends every chunk
      to the response whether or not the call then fails; a failure drops the first two
      entries (a Go panic when fewer than two remain), spends one retry, and on the last one
      empties the history. The prompt is not rebuilt between attempts. */
  function RetryFrom(history: seq<string>, response: string, budget: nat, k: nat, attempts: seq<Reply>): Retry
    requires budget >= 1
    decreases budget
  {
    var reply := ReplyAt(attempts, k);
    var response' := response + Concat(Chunks(reply));
    if Succeeds(reply) then Retry(history, response', k + 1, Answered)
    else if |history| < 2 then Retry(history, response', k + 1, Panicked)
    else if budget == 1 then Retry([], response', k + 1, GaveUp)
    else RetryFrom(history[2..], response', budget - 1, k + 1, attempts)
  }

  /** The loop makes at least one call and at most `budget`. */
  lemma {:induction false} RetryCalls(history: seq<string>, response: string, budget: nat, k: nat, attempts: seq<Reply>)
    requires budget >= 1
    ensures var r := RetryFrom(history, response, budget, k, attempts); k < r.calls <= k + budget
    decreases budget
  {
    var reply := ReplyAt(attempts, k);
    if !Succeeds(reply) && |history| >= 2 && budget > 1 {
      RetryCalls(history[2..], response + Concat(Chunks(reply)), budget - 1, k + 1, attempts);
    }
  }

  /** The loop stops after between one and `budget` calls; every call but the last failed;
      and it answered exactly when the last call succeeded. */
  lemma {:induction false} RetryAttempts(history: seq<string>, response: string, budget: nat, k: nat, attempts: seq<Reply>)
    requires budget >= 1
    ensures var r := RetryFrom(history, response, budget, k, attempts);
      && k < r.calls <= k + budget
      && (forall j :: k <= j < r.calls - 1 ==> !Succeeds(ReplyAt(attempts, j)))
      && (r.status == Answered <==> Succeeds(ReplyAt(attempts, r.calls - 1)))
    decreases budget
  {
    var reply := ReplyAt(attempts, k);
    var response' := response + Concat(Chunks(reply));
    var r := RetryFrom(history, response, budget, k, attempts);
    if Succeeds(reply) {
      assert r == Retry(history, response', k + 1, Answered);
    } else if |history| < 2 {
      assert r == Retry(history, response', k + 1, Panicked);
    } else if budget == 1 {
      assert r == Retry([], response', k + 1, GaveUp);
    } else {
      assert r == RetryFrom(history[2..], response', budget - 1, k + 1, attempts);
      RetryAttempts(history[2..], response', budget - 1, k + 1, attempts);
    }
  }

  /** When the loop answers, each failure before the answer removed exactly the first two
      entries of the history. */
  lemma {:induction false} RetryAnswerHistory(history: seq<string>, response: string, budget: nat, k: nat, attempts: seq<Reply>)
    requires budget >= 1
    requires RetryFrom(history, response, budget, k, attempts).status == Answered
    ensures var r := RetryFrom(history, response, budget, k, attempts);
      var dropped := 2 * (r.calls - 1 - k);
      0 <= dropped <= |history| && r.history == history[dropped..]
    decreases budget
  {
    var reply := ReplyAt(attempts, k);
    var response' := response + Concat(Chunks(reply));
    var r := RetryFrom(history, response, budget, k, attempts);
    if Succeeds(reply) {
      assert r == Retry(history, response', k + 1, Answered);
      assert history[0..] == history;
    } else {
      assert |history| >= 2 && budget > 1;
      var rest := history[2..];
      assert r == RetryFrom(rest, response', budget - 1, k + 1, attempts);
      RetryCalls(rest, response', budget - 1, k + 1, attempts);
      RetryAnswerHistory(rest, response', budget - 1, k + 1, attempts);
      var f := 2 * (r.calls - 1 - (k + 1));
      assert 0 <= f <= |rest| && r.history == rest[f..];
      assert rest[f..] == history[f + 2..];
    }
  }

  /** The loop panicked exactly when a failure found fewer than two entries left after two
      per earlier failure; and it gave up only after `budget` failures, leaving an empty
      history. */
  lemma {:induction false} RetryStopHistory(history: seq<string>, response: string, budget: nat, k: nat, attempts: seq<Reply>)
    requires budget >= 1
    ensures var r := RetryFrom(history, response, budget, k, attempts);
      var failures := r.calls - 1 - k;
      && (r.status == Panicked ==> 0 <= 2 * failures <= |history| < 2 * failures + 2)
      && (r.status == GaveUp ==> r.calls == k + budget && 2 * budget <= |history| && r.history == [])
    decreases budget
  {
    var reply := ReplyAt(attempts, k);
    var response' := response + Concat(Chunks(reply));
    var r := RetryFrom(history, response, budget, k, attempts);
    if Succeeds(reply) {
      assert r.status == Answered;
    } else if |history| < 2 {
      assert r == Retry(history, response', k + 1, Panicked);
    } else if budget == 1 {
      assert r == Retry([], response', k + 1, GaveUp);
    } else {
      assert r == RetryFrom(history[2..], response', budget - 1, k + 1, attempts);
      RetryCalls(history[2..], response', budget - 1, k + 1, attempts);
      RetryStopHistory(history[2..], response', budget - 1, k + 1, attempts);
    }
  }

  /** The loop gives up exactly when all `budget` calls fail while every failure still finds
      two entries to drop, that is when the history holds at least two per call. */
  lemma {:induction false} RetryGivesUp(history: seq<string>, response: string, budget: nat, k: nat, attempts: seq<Reply>)
    requires budget >= 1
    ensures RetryFrom(history, response, budget, k, attempts).status == GaveUp <==>
      (forall j :: k <= j < k + budget ==> !Succeeds(ReplyAt(attempts, j))) && 2 * budget <= |history|
    decreases budget
  {
    var reply := ReplyAt(attempts, k);
    var response' := response + Concat(Chunks(reply));
    var r := RetryFrom(history, response, budget, k, attempts);
    if Succeeds(reply) {
      assert r.status == Answered;
    } else if |history| < 2 {
      assert r.status == Panicked;
    } else if budget == 1 {
      assert r.status == GaveUp;
    } else {
      assert r == RetryFrom(history[2..], response', budget - 1, k + 1, attempts);
      RetryGivesUp(history[2..], response', budget - 1, k + 1, attempts);
    }
  }

  /** The loop never adds to the history. */
  lemma {:induction false} RetryShrinks(history: seq<string>, response: string, budget: nat, k: nat, attempts: seq<Reply>)
    requires budget >= 1
    ensures |RetryFrom(history, response, budget, k, attempts).history| <= |history|
    decreases budget
  {
    var reply := ReplyAt(attempts, k);
    if !Succeeds(reply) && |history| >= 2 && budget > 1 {
      RetryShrinks(history[2..], response + Concat(Chunks(reply)), budget - 1, k + 1, attempts);
    }
  }

  /** The response is every chunk of every call made, failed calls included, in order. */
  lemma {:induction false} RetryResponse(history: seq<string>, budget: nat, k: nat, attempts: seq<Reply>)
    requires budget >= 1
    ensures var r := RetryFrom(history, Streamed(attempts, k), budget, k, attempts);
      r.response == Streamed(attempts, r.calls)
    decreases budget
  {
    var reply := ReplyAt(attempts, k);
    var response' := Streamed(attempts, k) + Concat(Chunks(reply));
    assert Streamed(attempts, k + 1) == response';
    if !Succeeds(reply) && |history| >= 2 && budget > 1 {
      assert RetryFrom(history, Streamed(attempts, k), budget, k, attempts)
          == RetryFrom(history[2..], response', budget - 1, k + 1, attempts);
      RetryResponse(history[2..], budget - 1, k + 1, attempts);
    }
  }

  /** The streaming callback of telegram/main.go:130-132, invoked once per chunk of one
      call: each chunk is appended to `response` as it arrives. */
  method Collect(response: string, reply: Reply) returns (response': string)
    ensures response' == response + Concat(Chunks(reply))
  {
    var chunks := Chunks(reply);
    response' := response;
    var j := 0;
    while j < |chunks|
      invariant 0 <= j <= |chunks|
      invariant response' == response + Concat(chunks[..j])
    {
      assert chunks[..j + 1][..j] == chunks[..j];
      response' := response' + chunks[j];
      j := j + 1;
    }
    assert chunks[..j] == chunks;
  }

  /** The retry loop as the goto of telegram/main.go:122-143, with the streaming callback of
      telegram/main.go:130-132 appending each chunk to `response`. */
  method RetryLoop(history: seq<string>, prompt: string, attempts: seq<Reply>)
    returns (outcome: Retry, asked: seq<Effect>)
    ensures outcome == RetryFrom(history, "", MaxRetries, 0, attempts)
    ensures asked == Asks(prompt, outcome.calls)
  {
    var magacc := history;
    var response := "";
    var maxRetries := MaxRetries;
    var calls := 0;
    asked := [];
    while true
      invariant 1 <= maxRetries <= MaxRetries
      invariant calls == MaxRetries - maxRetries
      invariant asked == Asks(prompt, calls)
      invariant RetryFrom(magacc, response, maxRetries, calls, attempts) == RetryFrom(history, "", MaxRetries, 0, attempts)
      decreases maxRetries
    {
      ghost var goal := RetryFrom(magacc, response, maxRetries, calls, attempts);
      var reply := ReplyAt(attempts, calls);
      asked := asked + [Ask(Completion(prompt))];
      response := Collect(response, reply);
      calls := calls + 1;
      assert asked == Asks(prompt, calls);
      if Succeeds(reply) {
        assert goal == Retry(magacc, response, calls, Answered);
        return Retry(magacc, response, calls, Answered), asked;
      }
      if |magacc| < 2 {
        assert goal == Retry(magacc, response, calls, Panicked);
        return Retry(magacc, response, calls, Panicked), asked;
      }
      magacc := magacc[2..];
      maxRetries := maxRetries - 1;
      if maxRetries == 0 {
        magacc := [];
        assert goal == Retry(magacc, response, calls, GaveUp);
        return Retry(magacc, response, calls, GaveUp), asked;
      }
      assert goal == RetryFrom(magacc, response, maxRetries, calls, attempts);
    }
  }

  // ----- One update (telegram/main.go:72-158) -----

  /** How the processing of one update ended. `Crashed` is the Go panic of `magacc[2:]`,
      which ends the whole program. */
  datatype Status = NoMessage | ContextFileMissing | Crashed | Exhausted | Ignored | EmptyReply | Delivered

  datatype Processed = Processed(history: seq<string>, effects: seq<Effect>, status: Status)

  /** One pass of the update loop. `preContext` and `posContext` are the contents of
      pre_ctx.txt and pos_ctx.txt as read for this update, None when the read failed. */
  function OnUpdate(history: seq<string>, update: Update, preContext: Option<string>,
                    posContext: Option<string>, attempts: seq<Reply>): Processed
  {
    match update.message
    case None => Processed(history, [], NoMessage)
    case Some(m) =>
      var logMsg := LogMsg(m);
      var magacc := Newest(history, HistoryCap) + [logMsg];
      if preContext.None? || posContext.None? then Processed(magacc, [], ContextFileMissing)
      else
        Finish(RetryFrom(magacc, "", MaxRetries, 0, attempts),
               Prompt(preContext.value, magacc, posContext.value, logMsg))
  }

  /** What follows the retry loop: a panic or running out of retries ends the update; a
      reply containing the sentinel or an empty reply is dropped; any other reply is
      appended to the history and sent. */
  function Finish(r: Retry, prompt: string): Processed
  {
    var asked := Asks(prompt, r.calls);
    if r.status == Panicked then Processed(r.history, asked, Crashed)
    else if r.status == GaveUp then Processed(r.history, asked, Exhausted)
    else if Contains(r.response, Sentinel) then Processed(r.history, asked, Ignored)
    else if r.response == "" then Processed(r.history, asked, EmptyReply)
    else Processed(r.history + [r.response], asked + [Send(r.response)], Delivered)
  }

  /** The body of `for update := range updates`. */
  method ProcessUpdate(history: seq<string>, update: Update, preContext: Option<string>,
                       posContext: Option<string>, attempts: seq<Reply>)
    returns (result: Processed)
    ensures result == OnUpdate(history, update, preContext, posContext, attempts)
  {
    if update.message.None? {
      return Processed(history, [], NoMessage);
    }
    var logMsg := LogMsg(update.message.value);
    var magacc := Trim(history);
    magacc := magacc + [logMsg];
    var msgContext := JoinHistory(magacc);
    if preContext.None? || posContext.None? {
      return Processed(magacc, [], ContextFileMissing);
    }
    var prompt := preContext.value + msgContext + "\n---\n" + posContext.value + logMsg;
    var retry, asked := RetryLoop(magacc, prompt, attempts);
    if retry.status == Panicked {
      return Processed(retry.history, asked, Crashed);
    }
    if retry.status == GaveUp {
      return Processed(retry.history, asked, Exhausted);
    }
    var response := retry.response;
    if Contains(response, Sentinel) {
      return Processed(retry.history, asked, Ignored);
    }
    if response == "" {
      return Processed(retry.history, asked, EmptyReply);
    }
    magacc := retry.history + [response];
    result := Processed(magacc, asked + [Send(response)], Delivered);
  }

  /** Calls to the model alone send nothing to the chat and record nothing. */
  lemma {:induction false} AsksSendNothing(prompt: string, n: nat)
    ensures Sent(Asks(prompt, n)) == [] && Recorded(Asks(prompt, n)) == []
  {
    if n > 0 {
      AsksSendNothing(prompt, n - 1);
      assert Asks(prompt, n) == Asks(prompt, n - 1) + [Ask(Completion(prompt))];
      ObservedAppend(Asks(prompt, n - 1), [Ask(Completion(prompt))]);
      ObservedOne(Ask(Completion(prompt)));
    }
  }

  /** With a message and both context files, an update is the retry loop on the trimmed
      history plus the new message, followed by the filter. */
  lemma OnUpdateIsFinish(history: seq<string>, m: Message, preContext: string,
                         posContext: string, attempts: seq<Reply>)
    ensures var magacc := Newest(history, HistoryCap) + [LogMsg(m)];
      OnUpdate(history, Update(Some(m)), Some(preContext), Some(posContext), attempts)
        == Finish(RetryFrom(magacc, "", MaxRetries, 0, attempts), Prompt(preContext, magacc, posContext, LogMsg(m)))
  {
  }

  /** After the retry loop the calls come first and at most one effect follows them. */
  lemma FinishAsks(r: Retry, prompt: string)
    ensures var p := Finish(r, prompt);
      && r.calls <= |p.effects| <= r.calls + 1
      && p.effects[..r.calls] == Asks(prompt, r.calls)
  {
    var p := Finish(r, prompt);
    AsksAreSame(prompt, r.calls);
    if p.status == Delivered {
      assert p.effects == Asks(prompt, r.calls) + [Send(r.response)];
    }
  }

  /** The reply is sent exactly when the loop answered with a reply that neither contains
      the sentinel anywhere nor is empty; it is then the last history entry and the last
      effect. Otherwise nothing is sent and the history is what the retries left. */
  lemma FinishFilter(r: Retry, prompt: string)
    ensures var p := Finish(r, prompt);
      && (p.status == Delivered <==> r.status == Answered && !Contains(r.response, Sentinel) && r.response != "")
      && (p.status == Delivered ==> Sent(p.effects) == [r.response] && p.history == r.history + [r.response]
                                    && p.effects[|p.effects| - 1] == Send(r.response))
      && (p.status != Delivered ==> Sent(p.effects) == [] && p.history == r.history)
      && (p.status == Exhausted <==> r.status == GaveUp)
      && (p.status == Crashed <==> r.status == Panicked)
  {
    AsksSendNothing(prompt, r.calls);
    ObservedAppend(Asks(prompt, r.calls), [Send(r.response)]);
    ObservedOne(Send(r.response));
  }

  /** Every call of an update asks the model with the same prompt, built once from the
      trimmed history plus the new message; there are one to MaxRetries calls, and at most
      one further effect. */
  lemma OnUpdateAsksSamePrompt(history: seq<string>, m: Message, preContext: string,
                               posContext: string, attempts: seq<Reply>)
    ensures var magacc := Newest(history, HistoryCap) + [LogMsg(m)];
      var prompt := Prompt(preContext, magacc, posContext, LogMsg(m));
      var p := OnUpdate(history, Update(Some(m)), Some(preContext), Some(posContext), attempts);
      exists n :: 1 <= n <= MaxRetries && n <= |p.effects| <= n + 1
        && p.effects[..n] == Asks(prompt, n)
        && forall i :: 0 <= i < n ==> p.effects[i] == Ask(Completion(prompt))
  {
    var magacc := Newest(history, HistoryCap) + [LogMsg(m)];
    var prompt := Prompt(preContext, magacc, posContext, LogMsg(m));
    var r := RetryFrom(magacc, "", MaxRetries, 0, attempts);
    var p := OnUpdate(history, Update(Some(m)), Some(preContext), Some(posContext), attempts);
    OnUpdateIsFinish(history, m, preContext, posContext, attempts);
    RetryCalls(magacc, "", MaxRetries, 0, attempts);
    FinishAsks(r, prompt);
    var n := r.calls;
    AsksAreSame(prompt, n);
    assert forall i :: 0 <= i < n ==> p.effects[i] == p.effects[..n][i];
    assert 1 <= n <= MaxRetries && n <= |p.effects| <= n + 1 && p.effects[..n] == Asks(prompt, n);
  }

  /** When the retries run out the history is emptied and nothing is sent; that happens
      exactly when three calls fail while the history still holds six or more entries. */
  lemma OnUpdateExhausted(history: seq<string>, m: Message, preContext: string,
                          posContext: string, attempts: seq<Reply>)
    ensures var p := OnUpdate(history, Update(Some(m)), Some(preContext), Some(posContext), attempts);
      p.status == Exhausted <==>
        (forall j :: 0 <= j < MaxRetries ==> !Succeeds(ReplyAt(attempts, j)))
        && |Newest(history, HistoryCap)| + 1 >= 2 * MaxRetries
    ensures var p := OnUpdate(history, Update(Some(m)), Some(preContext), Some(posContext), attempts);
      p.status == Exhausted ==> p.history == [] && Sent(p.effects) == [] && |p.effects| == MaxRetries
  {
    var magacc := Newest(history, HistoryCap) + [LogMsg(m)];
    var prompt := Prompt(preContext, magacc, posContext, LogMsg(m));
    var r := RetryFrom(magacc, "", MaxRetries, 0, attempts);
    var p := OnUpdate(history, Update(Some(m)), Some(preContext), Some(posContext), attempts);
    OnUpdateIsFinish(history, m, preContext, posContext, attempts);
    RetryGivesUp(magacc, "", MaxRetries, 0, attempts);
    RetryStopHistory(magacc, "", MaxRetries, 0, attempts);
    AsksAreSame(prompt, r.calls);
    FinishFilter(r, prompt);
  }

  /** A failed first call on a history that held nothing before the message panics:
      after the append only one entry is left to drop two from. */
  lemma FirstFailureOnFreshHistoryCrashes(m: Message, preContext: string, posContext: string, attempts: seq<Reply>)
    requires !Succeeds(ReplyAt(attempts, 0))
    ensures OnUpdate([], Update(Some(m)), Some(preContext), Some(posContext), attempts).status == Crashed
  {
  }

  /** The reply that the filter sees is the join of every chunk of every call made, failed
      calls included, and it is sent exactly when it passes the filter. */
  lemma OnUpdateFilter(history: seq<string>, m: Message, preContext: string,
                       posContext: string, attempts: seq<Reply>)
    ensures var magacc := Newest(history, HistoryCap) + [LogMsg(m)];
      var r := RetryFrom(magacc, "", MaxRetries, 0, attempts);
      var p := OnUpdate(history, Update(Some(m)), Some(preContext), Some(posContext), attempts);
      && r.response == Streamed(attempts, r.calls)
      && (p.status == Delivered <==> r.status == Answered && !Contains(r.response, Sentinel) && r.response != "")
      && (p.status == Delivered ==> Sent(p.effects) == [r.response] && p.history == r.history + [r.response])
      && (p.status != Delivered ==> Sent(p.effects) == [] && p.history == r.history)
  {
    var magacc := Newest(history, HistoryCap) + [LogMsg(m)];
    var prompt := Prompt(preContext, magacc, posContext, LogMsg(m));
    var r := RetryFrom(magacc, "", MaxRetries, 0, attempts);
    var p := OnUpdate(history, Update(Some(m)), Some(preContext), Some(posContext), attempts);
    OnUpdateIsFinish(history, m, preContext, posContext, attempts);
    RetryResponse(magacc, MaxRetries, 0, attempts);
    FinishFilter(r, prompt);
  }

  /** A call that breaks after streaming part of an answer leaks that part into the answer
      of the retry that succeeds. */
  lemma PartialChunksLeakIntoReply(history: seq<string>, m: Message, preContext: string, posContext: string)
    requires |history| >= 1
    ensures var attempts := [Opened(["Hel"], Broken), Opened(["lo"], EOF)];
      var p := OnUpdate(history, Update(Some(m)), Some(preContext), Some(posContext), attempts);
      p.status == Delivered && Sent(p.effects) == ["Hello"]
  {
    var attempts := [Opened(["Hel"], Broken), Opened(["lo"], EOF)];
    var magacc := Newest(history, HistoryCap) + [LogMsg(m)];
    assert |magacc| >= 2;
    assert Concat(["Hel"]) == "Hel" by { assert ["Hel"][..0] == []; }
    assert Concat(["lo"]) == "lo" by { assert ["lo"][..0] == []; }
    assert ReplyAt(attempts, 0) == Opened(["Hel"], Broken);
    assert ReplyAt(attempts, 1) == Opened(["lo"], EOF);
    var r := RetryFrom(magacc, "", MaxRetries, 0, attempts);
    assert RetryFrom(magacc, "", 3, 0, attempts) == RetryFrom(magacc[2..], "Hel", 2, 1, attempts);
    assert r == Retry(magacc[2..], "Hello", 2, Answered);
    AbsentFirstChar("Hello", Sentinel);
    var prompt := Prompt(preContext, magacc, posContext, LogMsg(m));
    OnUpdateIsFinish(history, m, preContext, posContext, attempts);
    FinishFilter(r, prompt);
  }

  /** One pass never leaves the history longer than HistoryCap + 2 entries, unless it had
      no message and left the history as it was. */
  lemma OnUpdateBounded(history: seq<string>, update: Update, preContext: Option<string>,
                        posContext: Option<string>, attempts: seq<Reply>)
    ensures var p := OnUpdate(history, update, preContext, posContext, attempts);
      |p.history| <= HistoryCap + 2 || p.history == history
  {
    if update.message.Some? && preContext.Some? && posContext.Some? {
      var logMsg := LogMsg(update.message.value);
      var magacc := Newest(history, HistoryCap) + [logMsg];
      var prompt := Prompt(preContext.value, magacc, posContext.value, logMsg);
      var r := RetryFrom(magacc, "", MaxRetries, 0, attempts);
      OnUpdateIsFinish(history, update.message.value, preContext.value, posContext.value, attempts);
      RetryShrinks(magacc, "", MaxRetries, 0, attempts);
      assert |Finish(r, prompt).history| <= |r.history| + 1;
    }
  }

  // ----- The update loop (telegram/main.go:72) -----

  /** A batch of updates as the loop sees it: each update with the context files as read
      for it and the model's answers to its calls. */
  datatype Incoming = Incoming(update: Update, preContext: Option<string>, posContext: Option<string>, attempts: seq<Reply>)

  /** The history and effects after a run of the loop; `crashed` when a panic ended it. */
  datatype Session = Session(history: seq<string>, effects: seq<Effect>, crashed: bool)

  /** The loop over `incoming`, stopping at the first panic. */
  function Run(history: seq<string>, incoming: seq<Incoming>): Session
    decreases |incoming|
  {
    if incoming == [] then Session(history, [], false)
    else
      var u := incoming[0];
      var p := OnUpdate(history, u.update, u.preContext, u.posContext, u.attempts);
      if p.status == Crashed then Session(p.history, p.effects, true)
      else
        var rest := Run(p.history, incoming[1..]);
        Session(rest.history, p.effects + rest.effects, rest.crashed)
  }

  /** A history that starts within HistoryCap + 2 entries stays within it for any run. */
  lemma {:induction false} RunKeepsHistoryBounded(history: seq<string>, incoming: seq<Incoming>)
    requires |history| <= HistoryCap + 2
    ensures |Run(history, incoming).history| <= HistoryCap + 2
    decreases |incoming|
  {
    if incoming != [] {
      var u := incoming[0];
      OnUpdateBounded(history, u.update, u.preContext, u.posContext, u.attempts);
      var p := OnUpdate(history, u.update, u.preContext, u.posContext, u.attempts);
      RunKeepsHistoryBounded(p.history, incoming[1..]);
    }
  }

  /** `for update := range updates`, from the history restored at start-up. */
  method Serve(history: seq<string>, incoming: seq<Incoming>) returns (session: Session)
    ensures session == Run(history, incoming)
  {
    var magacc := history;
    var effects := [];
    var i := 0;
    while i < |incoming|
      invariant 0 <= i <= |incoming|
      invariant var rest := Run(magacc, incoming[i..]);
        Run(history, incoming) == Session(rest.history, effects + rest.effects, rest.crashed)
    {
      var u := incoming[i];
      assert incoming[i..][1..] == incoming[i + 1..];
      var p := ProcessUpdate(magacc, u.update, u.preContext, u.posContext, u.attempts);
      ghost var rest := Run(magacc, incoming[i..]);
      if p.status == Crashed {
        assert rest == Session(p.history, p.effects, true);
        return Session(p.history, effects + p.effects, true);
      }
      ghost var next := Run(p.history, incoming[i + 1..]);
      assert rest == Session(next.history, p.effects + next.effects, next.crashed);
      assert effects + (p.effects + next.effects) == effects + p.effects + next.effects;
      magacc := p.history;
      effects := effects + p.effects;
      i := i + 1;
    }
    assert effects + [] == effects;
    session := Session(magacc, effects, false);
  }
}
