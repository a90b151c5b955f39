/** Approval tokens: single use, for one row, and dead once the row has been released or reported on. */
module Tokens {
  import opened Tables
  import opened System
  import opened Hands

  predicate MadeFor(log: seq<Entry>, pid: nat, token: string) {
    exists j | 0 <= j < |log| :: log[j] == TokenMade(pid, token)
  }

  /** Tokens are drawn once, rows hold only tokens drawn for them, and a used token is on no row. */
  predicate TokensOk(s: Sys) {
    && (forall i, j | 0 <= i < j < |s.log| && s.log[i].TokenMade? && s.log[j].TokenMade? ::
          s.log[i].token != s.log[j].token)
    && (forall k | 0 <= k < |s.db.payments| && s.db.payments[k].token != "" ::
          MadeFor(s.log, k, s.db.payments[k].token))
    && (forall j | 0 <= j < |s.log| && s.log[j].AnswerTaken? ::
          s.log[j].token != "" && MadeFor(s.log, s.log[j].pid, s.log[j].token))
    && (forall j, k | 0 <= j < |s.log| && s.log[j].AnswerTaken? && 0 <= k < |s.db.payments| ::
          s.db.payments[k].token != s.log[j].token)
    && (forall i, j | 0 <= i < j < |s.log| && s.log[i].AnswerTaken? && s.log[j].AnswerTaken? ::
          s.log[i].token != s.log[j].token)
  }

  lemma MadeForOne(s: Sys, j: nat, k: nat, token: string)
    requires TokensOk(s) && MadeFor(s.log, j, token) && MadeFor(s.log, k, token)
    ensures j == k
  {
  }

  lemma MadeForGrows(log: seq<Entry>, log': seq<Entry>, pid: nat, token: string)
    requires log <= log' && MadeFor(log, pid, token)
    ensures MadeFor(log', pid, token)
  {
    var j :| 0 <= j < |log| && log[j] == TokenMade(pid, token);
    assert log'[j] == TokenMade(pid, token);
  }

  /** No token changes but to blank, and nothing about tokens is logged. */
  predicate TokenQuiet(s: Sys, t: Sys) {
    && s.log <= t.log && |s.db.payments| <= |t.db.payments|
    && (forall k | 0 <= k < |s.db.payments| ::
          t.db.payments[k].token == "" || t.db.payments[k].token == s.db.payments[k].token)
    && (forall k | |s.db.payments| <= k < |t.db.payments| :: t.db.payments[k].token == "")
    && (forall j | |s.log| <= j < |t.log| :: !t.log[j].TokenMade? && !t.log[j].AnswerTaken?)
  }

  lemma QuietKeepsTokens(s: Sys, t: Sys)
    requires TokensOk(s) && TokenQuiet(s, t)
    ensures TokensOk(t)
  {
    forall k | 0 <= k < |t.db.payments| && t.db.payments[k].token != ""
      ensures MadeFor(t.log, k, t.db.payments[k].token)
    {
      MadeForGrows(s.log, t.log, k, s.db.payments[k].token);
    }
    forall j | 0 <= j < |t.log| && t.log[j].AnswerTaken?
      ensures j < |s.log| && t.log[j] == s.log[j] && MadeFor(t.log, t.log[j].pid, t.log[j].token)
    {
      MadeForGrows(s.log, t.log, s.log[j].pid, s.log[j].token);
    }
  }

  lemma TapTokenQuiet(s: Sys, i: nat, x: Input)
    requires i < |s.procs|
    ensures TokenQuiet(s, StepTap(s, i, x))
  {
  }

  lemma ClaimTokenQuiet(s: Sys, i: nat, x: Input)
    requires i < |s.procs| && s.procs[i].CbRouted?
    ensures TokenQuiet(s, StepCallback(s, i, x))
  {
  }

  lemma CallbackTokenQuiet(s: Sys, i: nat, x: Input)
    requires i < |s.procs| && !s.procs[i].CbRouted?
    ensures TokenQuiet(s, StepCallback(s, i, x))
  {
  }

  lemma WaitTokenQuiet(s: Sys, i: nat, x: Input)
    requires i < |s.procs| && !s.procs[i].WaitAsked?
    ensures TokenQuiet(s, StepWait(s, i, x))
  {
  }

  lemma NodeTokenQuiet(s: Sys, i: nat, x: Input)
    requires i < |s.procs|
    ensures TokenQuiet(s, StepNode(s, i, x))
  {
  }

  lemma DrawKeepsTokens(s: Sys, i: nat, x: Input)
    requires TokensOk(s) && i < |s.procs| && s.procs[i].WaitAsked? && FreshToken(s, Move(i, x))
    ensures TokensOk(StepWait(s, i, x))
  {
    var t, pid := StepWait(s, i, x), s.procs[i].pid;
    if x.ok && pid < |s.db.payments| {
      assert t.log[|s.log|] == TokenMade(pid, x.text);
      forall k | 0 <= k < |t.db.payments| && t.db.payments[k].token != ""
        ensures MadeFor(t.log, k, t.db.payments[k].token)
      {
        if k != pid { MadeForGrows(s.log, t.log, k, s.db.payments[k].token); }
      }
      forall j | 0 <= j < |t.log| && t.log[j].AnswerTaken?
        ensures j < |s.log| && t.log[j] == s.log[j] && t.log[j].token != x.text
        ensures MadeFor(t.log, t.log[j].pid, t.log[j].token)
      {
        MadeForGrows(s.log, t.log, s.log[j].pid, s.log[j].token);
      }
    }
  }

  /** A token on a row is on no other row, so an answer finds that row or none. */
  lemma AnswerFindsOne(s: Sys, token: string)
    requires TokensOk(s) && token != ""
    ensures var r := FindAwaiting(s.db.payments, token);
            AwaitingRows(s.db.payments, token) == if r.Some? then {r.value} else {}
    ensures |AwaitingRows(s.db.payments, token)| == 1 <==> FindAwaiting(s.db.payments, token).Some?
  {
    var r := FindAwaiting(s.db.payments, token);
    forall k | k in AwaitingRows(s.db.payments, token) ensures r.Some? && k == r.value {
      MadeForOne(s, k, r.value, token);
    }
    assert AwaitingRows(s.db.payments, token) == if r.Some? then {r.value} else {};
  }

  lemma AnswerKeepsTokens(s: Sys, token: string, answer: string, now: int)
    requires TokensOk(s)
    ensures TokensOk(TakeAnswer(s, token, answer, now))
  {
    var t, r := TakeAnswer(s, token, answer, now), FindAwaiting(s.db.payments, token);
    if token == "" {
      assert t == s;
    } else {
      AnswerFindsOne(s, token);
      if r.None? {
        QuietKeepsTokens(s, t);
      } else {
        TakenKeepsTokens(s, t, r.value, token);
      }
    }
  }

  /** An answer taken for the row that holds the token blanks it there and logs it. */
  lemma TakenKeepsTokens(s: Sys, t: Sys, pid: nat, token: string)
    requires TokensOk(s) && token != "" && pid < |s.db.payments| == |t.db.payments|
    requires s.db.payments[pid].token == token && t.db.payments[pid].token == ""
    requires forall k | 0 <= k < |s.db.payments| && k != pid :: t.db.payments[k].token == s.db.payments[k].token
    requires t.log == s.log + [AnswerTaken(pid, token)]
    ensures TokensOk(t)
  {
    forall k | 0 <= k < |t.db.payments| && t.db.payments[k].token != ""
      ensures k != pid && t.db.payments[k].token == s.db.payments[k].token != token
      ensures MadeFor(t.log, k, t.db.payments[k].token)
    {
      MadeForGrows(s.log, t.log, k, s.db.payments[k].token);
      if s.db.payments[k].token == token { MadeForOne(s, k, pid, token); }
    }
    MadeForGrows(s.log, t.log, pid, token);
    forall j | 0 <= j < |s.log| && s.log[j].AnswerTaken?
      ensures s.log[j].token != token && MadeFor(t.log, s.log[j].pid, s.log[j].token)
    {
      assert s.db.payments[pid].token != s.log[j].token;
      MadeForGrows(s.log, t.log, s.log[j].pid, s.log[j].token);
    }
  }

  lemma NextKeepsTokens(s: Sys, e: Event)
    requires TokensOk(s) && FreshToken(s, e)
    ensures TokensOk(Next(s, e))
  {
    var t := Next(s, e);
    if e.Move? && e.i < |s.procs| {
      if s.procs[e.i].WaitAsked? {
        DrawKeepsTokens(s, e.i, e.x);
      } else {
        TapTokenQuiet(s, e.i, e.x);
        if s.procs[e.i].CbRouted? { ClaimTokenQuiet(s, e.i, e.x); } else { CallbackTokenQuiet(s, e.i, e.x); }
        WaitTokenQuiet(s, e.i, e.x);
        NodeTokenQuiet(s, e.i, e.x);
        QuietKeepsTokens(s, t);
      }
    } else if e.Answer? {
      AnswerKeepsTokens(s, e.token, e.answer, e.now);
    } else {
      QuietKeepsTokens(s, t);
    }
  }

  lemma {:induction false} RunKeepsTokens(s: Sys, es: seq<Event>)
    requires TokensOk(s) && Respects(s, es, FreshToken)
    ensures TokensOk(Run(s, es))
    decreases |es|
  {
    if es != [] {
      NextKeepsTokens(s, es[0]);
      RunKeepsTokens(Next(s, es[0]), es[1..]);
    }
  }

  lemma ReachedTokens(es: seq<Event>, s: Sys)
    requires Respects(INIT, es, FreshToken) && s == Run(INIT, es)
    ensures TokensOk(s)
  {
    RunKeepsTokens(INIT, es);
  }

  /** Over any run with distinct tokens, each token is answered at most once, for the row it was drawn for. */
  lemma TokenUsedOnce(es: seq<Event>, s: Sys, i: nat, j: nat)
    requires Respects(INIT, es, FreshToken) && s == Run(INIT, es)
    requires i < |s.log| && s.log[i].AnswerTaken?
    ensures MadeFor(s.log, s.log[i].pid, s.log[i].token)
    ensures i < j < |s.log| && s.log[j].AnswerTaken? ==> s.log[i].token != s.log[j].token
  {
    ReachedTokens(es, s);
  }

  /** An answer by token changes no row but the one the token was drawn for. */
  lemma AnswerTouchesItsRow(es: seq<Event>, s: Sys, token: string, answer: string, now: int, k: nat)
    requires Respects(INIT, es, FreshToken) && s == Run(INIT, es)
    requires k < |s.db.payments| && AnswerByToken(s.db, token, answer, now).0.payments[k] != s.db.payments[k]
    ensures MadeFor(s.log, k, token) && AnswerByToken(s.db, token, answer, now).1
    ensures forall j | 0 <= j < |s.db.payments| && j != k ::
              AnswerByToken(s.db, token, answer, now).0.payments[j] == s.db.payments[j]
  {
    ReachedTokens(es, s);
    AnswerFindsOne(s, token);
    assert k in AwaitingRows(s.db.payments, token);
    forall j: nat | j < |s.db.payments|
      ensures Awaits(s.db.payments[j], token) <==> j in AwaitingRows(s.db.payments, token) {}
  }

  /** The row is still waiting when the answer to it starts the payment. */
  lemma StartedRow(s: Sys, i: nat, x: Input)
    requires HandsOk(s) && i < |s.procs| && s.procs[i].WaitPolling? && Next(s, Move(i, x)).procs[i].Paying?
    ensures var t, pid := Next(s, Move(i, x)), s.procs[i].pid;
            && t.db == s.db && pid < |s.db.payments|
            && s.db.payments[pid].paid && s.db.payments[pid].status == Blank && TokenQuiet(s, t)
  {
    assert HandOk(s.db, s.procs[i]);
  }

  lemma TakenIff(t: Sys, pid: nat, token: string, answer: string, now: int)
    requires TokensOk(t) && token != "" && MadeFor(t.log, pid, token) && pid < |t.db.payments|
    ensures TakeAnswer(t, token, answer, now).log != t.log <==> Awaits(t.db.payments[pid], token)
  {
    AnswerFindsOne(t, token);
    var r := FindAwaiting(t.db.payments, token);
    if Awaits(t.db.payments[pid], token) { assert pid in AwaitingRows(t.db.payments, token); }
    if r.Some? { MadeForOne(t, r.value, pid, token); }
  }

  /**
   Exactly when a token stops working as its payment is sent: when the row does not hold it any more, that is, when it
   was used to answer or a later one was drawn. A payment approved over the internal API leaves it working.
   */
  lemma TokenWorksAfterTheStartIff(es: seq<Event>, s: Sys, i: nat, x: Input, token: string, answer: string, now: int)
    requires Respects(INIT, es, FreshToken) && s == Run(INIT, es)
    requires i < |s.procs| && s.procs[i].WaitPolling? && Next(s, Move(i, x)).procs[i].Paying?
    requires token != "" && MadeFor(s.log, s.procs[i].pid, token)
    ensures s.procs[i].pid < |s.db.payments|
    ensures var t := Next(s, Move(i, x));
            TakeAnswer(t, token, answer, now).log != t.log <==> s.db.payments[s.procs[i].pid].token == token
  {
    ReachedKnown(es, s);
    ReachedTokens(es, s);
    StartedTokenIff(s, i, x, token, answer, now);
  }

  lemma StartedTokenIff(s: Sys, i: nat, x: Input, token: string, answer: string, now: int)
    requires HandsOk(s) && TokensOk(s)
    requires i < |s.procs| && s.procs[i].WaitPolling? && Next(s, Move(i, x)).procs[i].Paying?
    requires token != "" && MadeFor(s.log, s.procs[i].pid, token)
    ensures s.procs[i].pid < |s.db.payments|
    ensures var t := Next(s, Move(i, x));
            TakeAnswer(t, token, answer, now).log != t.log <==> s.db.payments[s.procs[i].pid].token == token
  {
    var t := Next(s, Move(i, x));
    StartedRow(s, i, x);
    QuietKeepsTokens(s, t);
    MadeForGrows(s.log, t.log, s.procs[i].pid, token);
    TakenIff(t, s.procs[i].pid, token, answer, now);
  }

  // ---------- no answer after a release or a report ----------

  predicate MovesOn(e: Entry) {
    e.Released? || e.Reported?
  }

  predicate AnswersInTime(s: Sys) {
    && (forall j | 0 <= j < |s.log| && MovesOn(s.log[j]) ::
          s.log[j].pid < |s.db.payments| && s.db.payments[s.log[j].pid].status != Blank)
    && (forall i, j | 0 <= i < j < |s.log| && MovesOn(s.log[i]) && s.log[j].AnswerTaken? ::
          s.log[i].pid != s.log[j].pid)
  }

  /** A reported or released row never reads as unreported again. */
  predicate StatusStep(s: Sys, t: Sys) {
    && s.log <= t.log && |s.db.payments| <= |t.db.payments|
    && (forall k | 0 <= k < |s.db.payments| && s.db.payments[k].status != Blank :: t.db.payments[k].status != Blank)
    && (forall j | |s.log| <= j < |t.log| && MovesOn(t.log[j]) ::
          t.log[j].pid < |t.db.payments| && t.db.payments[t.log[j].pid].status != Blank)
    && |t.log| <= |s.log| + 1
    && (forall j | |s.log| <= j < |t.log| && t.log[j].AnswerTaken? ::
          t.log[j].pid < |s.db.payments| && s.db.payments[t.log[j].pid].status == Blank)
  }

  lemma StatusKeeps(s: Sys, t: Sys)
    requires AnswersInTime(s) && StatusStep(s, t)
    ensures AnswersInTime(t)
  {
    forall i, j | 0 <= i < j < |t.log| && MovesOn(t.log[i]) && t.log[j].AnswerTaken?
      ensures t.log[i].pid != t.log[j].pid
    {
      assert t.log[i] == s.log[i];
      if j < |s.log| { assert t.log[j] == s.log[j]; }
    }
  }

  lemma TapStatus(s: Sys, i: nat, x: Input)
    requires i < |s.procs|
    ensures StatusStep(s, StepTap(s, i, x))
  {
  }

  lemma ClaimStatus(s: Sys, i: nat, x: Input)
    requires i < |s.procs| && s.procs[i].CbRouted?
    ensures StatusStep(s, StepCallback(s, i, x))
  {
  }

  lemma CallbackStatus(s: Sys, i: nat, x: Input)
    requires i < |s.procs| && !s.procs[i].CbRouted?
    ensures StatusStep(s, StepCallback(s, i, x))
  {
  }

  lemma WaitStatus(s: Sys, i: nat, x: Input)
    requires i < |s.procs|
    ensures StatusStep(s, StepWait(s, i, x))
  {
  }

  lemma NodeStatus(s: Sys, i: nat, x: Input)
    requires i < |s.procs| && NamedStatus(s, Move(i, x))
    ensures StatusStep(s, StepNode(s, i, x))
  {
  }

  lemma RequestStatus(s: Sys, e: Event)
    requires !e.Move?
    ensures StatusStep(s, Next(s, e))
  {
  }

  lemma NextStatus(s: Sys, e: Event)
    requires NamedStatus(s, e)
    ensures StatusStep(s, Next(s, e))
  {
    if !e.Move? {
      RequestStatus(s, e);
    } else if e.i < |s.procs| {
      var i, x := e.i, e.x;
      TapStatus(s, i, x);
      if s.procs[i].CbRouted? { ClaimStatus(s, i, x); } else { CallbackStatus(s, i, x); }
      WaitStatus(s, i, x);
      NodeStatus(s, i, x);
      assert Step(s, i, x) == StepTap(s, i, x) || Step(s, i, x) == StepCallback(s, i, x)
             || Step(s, i, x) == StepWait(s, i, x) || Step(s, i, x) == StepNode(s, i, x);
    }
  }

  lemma {:induction false} RunAnswers(s: Sys, es: seq<Event>)
    requires AnswersInTime(s) && Respects(s, es, NamedStatus)
    ensures AnswersInTime(Run(s, es))
    decreases |es|
  {
    if es != [] {
      NextStatus(s, es[0]);
      StatusKeeps(s, Next(s, es[0]));
      RunAnswers(Next(s, es[0]), es[1..]);
    }
  }

  /** No answer is ever taken for a row that was released or has a status from the node. */
  lemma NoLateAnswer(es: seq<Event>, s: Sys, i: nat, j: nat)
    requires Respects(INIT, es, NamedStatus) && s == Run(INIT, es)
    requires i < j < |s.log| && MovesOn(s.log[i]) && s.log[j].AnswerTaken?
    ensures s.log[i].pid != s.log[j].pid
  {
    RunAnswers(INIT, es);
  }
}
