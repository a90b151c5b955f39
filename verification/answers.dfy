/** An asked payment is made on a Y and on nothing else, on the row's own columns and over every run. */
module Answers {
  import opened Sums
  import opened Tables
  import opened System
  import opened Spent
  import opened Hands

  /** What a poll does, by the columns it reads: Y pays, any other answer drops the payment, no answer waits on. */
  lemma PollVerdict(s: Sys, i: nat, x: Input)
    requires i < |s.procs| && s.procs[i].WaitPolling? && s.procs[i].pid < |s.db.payments| && x.ok && !x.expired
    ensures var p, row, t := s.procs[i], s.db.payments[s.procs[i].pid], Step(s, i, x);
            && t.db == s.db && |t.procs| == |s.procs|
            && (row.answerTime.None? ==> t == s)
            && (row.answerTime.Some? && row.answer == "Y" ==>
                  t.procs[i] == Paying(p.pid, p.msats, Blank) && t.log == s.log + [PayStarted(p.pid)])
            && (row.answerTime.Some? && row.answer != "Y" ==>
                  t.procs[i] == WaitDropped(p.pid, p.msats) && t.log == s.log)
  {
  }

  /** An answer by id is stored as given on that row, one by token on every row waiting with it, and on no other. */
  lemma AnswerSets(s: Sys, pid: nat, token: string, answer: string, now: int, k: nat)
    requires k < |s.db.payments|
    ensures var row := s.db.payments[k];
            var t, u := Next(s, ApiAnswer(pid, answer, now)), Next(s, Answer(token, answer, now));
            && |t.db.payments| == |u.db.payments| == |s.db.payments|
            && t.db.payments[k] == (if k == pid then row.(answer := answer, answerTime := Some(now)) else row)
            && u.db.payments[k] == if token != "" && row.token == token && row.paid && row.status == Blank
                                   then row.(answer := answer, answerTime := Some(now), token := "") else row
  {
  }

  /** The event starts the payment of the row: a claim that asks nobody, or a poll. */
  predicate StartsPay(s: Sys, e: Event, pid: nat) {
    && e.Move? && e.i < |s.procs| && (s.procs[e.i].CbClaimed? || s.procs[e.i].WaitPolling?)
    && s.procs[e.i].pid == pid
  }

  /** Entries are only added, and a payment is started only by a claim's process or a poll that read a Y. */
  predicate StartAfter(s: Sys, e: Event, t: Sys) {
    && s.log <= t.log && |t.log| <= |s.log| + 1
    && (|t.log| > |s.log| && t.log[|s.log|].PayStarted? ==>
          && StartsPay(s, e, t.log[|s.log|].pid)
          && (s.procs[e.i].WaitPolling? ==> AnsweredYes(s.db, t.log[|s.log|].pid)))
  }

  predicate AnsweredYes(db: Db, pid: nat) {
    pid < |db.payments| && db.payments[pid].answerTime.Some? && db.payments[pid].answer == "Y"
  }

  lemma CallbackStart(s: Sys, i: nat, x: Input)
    requires i < |s.procs| && (PreClaim(s.procs[i]) || s.procs[i].CbClaimed?)
    ensures StartAfter(s, Move(i, x), StepCallback(s, i, x))
  {
  }

  lemma WaitStart(s: Sys, i: nat, x: Input)
    requires i < |s.procs|
    requires s.procs[i].WaitAsked? || s.procs[i].WaitTokened? || s.procs[i].WaitPolling? || s.procs[i].WaitDropped?
    ensures StartAfter(s, Move(i, x), StepWait(s, i, x))
  {
  }

  lemma OtherStart(s: Sys, i: nat, x: Input)
    requires i < |s.procs|
    ensures StartAfter(s, Move(i, x), StepTap(s, i, x)) && StartAfter(s, Move(i, x), StepNode(s, i, x))
  {
  }

  lemma RequestStart(s: Sys, e: Event)
    requires !e.Move?
    ensures StartAfter(s, e, Next(s, e))
  {
  }

  lemma NextStart(s: Sys, e: Event)
    ensures StartAfter(s, e, Next(s, e))
  {
    if !e.Move? {
      RequestStart(s, e);
    } else if e.i < |s.procs| {
      var p := s.procs[e.i];
      if PreClaim(p) || p.CbClaimed? { CallbackStart(s, e.i, e.x); }
      else if p.WaitAsked? || p.WaitTokened? || p.WaitPolling? || p.WaitDropped? { WaitStart(s, e.i, e.x); }
      else { OtherStart(s, e.i, e.x); }
    }
  }

  predicate Waited(log: seq<Entry>, pid: nat) {
    exists j :: 0 <= j < |log| && log[j] == WaitStarted(pid)
  }

  lemma StartReadsYes(s: Sys, e: Event, t: Sys, pid: nat)
    requires StartsOk(s) && StartAfter(s, e, t) && t.log == s.log + [PayStarted(pid)] && Waited(s.log, pid)
    ensures AnsweredYes(s.db, pid)
  {
    var j :| 0 <= j < |s.log| && s.log[j] == WaitStarted(pid);
    assert t.log[|s.log|] == PayStarted(pid);
  }

  /** Under every interleaving: a payment the card holder was asked about is started when its row is answered Y. */
  lemma AskedPaysOnYes(es: seq<Event>, s: Sys, e: Event, pid: nat)
    requires s == Run(INIT, es) && Next(s, e).log == s.log + [PayStarted(pid)] && Waited(s.log, pid)
    ensures pid < |s.db.payments| && s.db.payments[pid].answerTime.Some? && s.db.payments[pid].answer == "Y"
  {
    Reached(es, s);
    NextStart(s, e);
    StartReadsYes(s, e, Next(s, e), pid);
  }

  // ---------- a row that nobody answers Y ----------

  /** Nobody answers Y for the row: not by its id, and not by the token it holds. */
  function NoYes(pid: nat): (Sys, Event) -> bool {
    (s: Sys, e: Event) =>
      && !(e.ApiAnswer? && e.pid == pid && e.answer == "Y")
      && !(e.Answer? && e.answer == "Y" && pid < |s.db.payments| && s.db.payments[pid].token == e.token)
  }

  predicate Unanswered(s: Sys, pid: nat) {
    && (pid < |s.db.payments| ==> s.db.payments[pid].answer != "Y")
    && (Waited(s.log, pid) ==> forall j | 0 <= j < |s.log| && s.log[j].PayStarted? :: s.log[j].pid != pid)
  }

  /** Rows are added with N, and their answers stay but for an answer given. */
  predicate AnswersStay(a: Db, b: Db) {
    && |a.payments| <= |b.payments| <= |a.payments| + 1
    && (forall k | 0 <= k < |a.payments| :: b.payments[k].answer == a.payments[k].answer)
    && (forall k | |a.payments| <= k < |b.payments| :: b.payments[k].answer == "N" && b.payments[k].answerTime.None?)
  }

  lemma WriterAnswers(s: Sys, i: nat, x: Input)
    requires i < |s.procs| && (s.procs[i].CbInTime? || s.procs[i].CbWrongPin? || s.procs[i].CbRouted?)
    ensures AnswersStay(s.db, StepCallback(s, i, x).db)
  {
  }

  lemma CallbackAnswers(s: Sys, i: nat, x: Input)
    requires i < |s.procs|
    ensures AnswersStay(s.db, StepCallback(s, i, x).db)
  {
    if s.procs[i].CbInTime? || s.procs[i].CbWrongPin? || s.procs[i].CbRouted? { WriterAnswers(s, i, x); }
  }

  lemma OtherAnswers(s: Sys, i: nat, x: Input)
    requires i < |s.procs|
    ensures AnswersStay(s.db, StepTap(s, i, x).db) && AnswersStay(s.db, StepNode(s, i, x).db)
    ensures AnswersStay(s.db, StepWait(s, i, x).db)
  {
  }

  lemma RequestAnswers(s: Sys, e: Event, pid: nat)
    requires !e.Move? && pid < |s.db.payments| && NoYes(pid)(s, e) && s.db.payments[pid].answer != "Y"
    ensures pid < |Next(s, e).db.payments| && Next(s, e).db.payments[pid].answer != "Y"
  {
  }

  lemma RequestRows(s: Sys, e: Event)
    requires !e.Move?
    ensures |Next(s, e).db.payments| == |s.db.payments|
  {
  }

  lemma NextAnswer(s: Sys, e: Event, pid: nat)
    requires NoYes(pid)(s, e) && (pid < |s.db.payments| ==> s.db.payments[pid].answer != "Y")
    ensures pid < |Next(s, e).db.payments| ==> Next(s, e).db.payments[pid].answer != "Y"
  {
    if !e.Move? {
      RequestRows(s, e);
      if pid < |s.db.payments| { RequestAnswers(s, e, pid); }
    } else if e.i < |s.procs| {
      CallbackAnswers(s, e.i, e.x);
      OtherAnswers(s, e.i, e.x);
    }
  }

  lemma StaysUnpaid(s: Sys, e: Event, t: Sys, pid: nat)
    requires StartsOk(s) && StartsOk(t) && Unanswered(s, pid) && StartAfter(s, e, t) && Waited(t.log, pid)
    ensures forall j | 0 <= j < |t.log| && t.log[j].PayStarted? :: t.log[j].pid != pid
  {
    var w :| 0 <= w < |t.log| && t.log[w] == WaitStarted(pid);
    forall j: nat | j < |t.log| && t.log[j].PayStarted? ensures t.log[j].pid != pid {
      if j < w {
        assert Starts(t.log[w]);
      } else if j < |s.log| {
        assert s.log[w] == WaitStarted(pid) && t.log[j] == s.log[j];
      } else {
        assert s.log[w] == WaitStarted(pid);
      }
    }
  }

  predicate UnansweredOk(s: Sys, pid: nat) {
    Once(s) && Unanswered(s, pid)
  }

  lemma NextUnanswered(s: Sys, e: Event, pid: nat)
    requires UnansweredOk(s, pid) && NoYes(pid)(s, e)
    ensures UnansweredOk(Next(s, e), pid)
  {
    NextKeeps(s, e);
    NextAnswer(s, e, pid);
    NextStart(s, e);
    if Waited(Next(s, e).log, pid) { StaysUnpaid(s, e, Next(s, e), pid); }
  }

  lemma {:induction false} RunUnanswered(s: Sys, es: seq<Event>, pid: nat)
    requires UnansweredOk(s, pid) && Respects(s, es, NoYes(pid))
    ensures UnansweredOk(Run(s, es), pid)
    decreases |es|
  {
    if es != [] {
      NextUnanswered(s, es[0], pid);
      RunUnanswered(Next(s, es[0]), es[1..], pid);
    }
  }

  lemma StartUnanswered(pid: nat)
    ensures UnansweredOk(INIT, pid)
  {
  }

  /** A payment the card holder was asked about is never made while nobody answers Y, whatever else is answered. */
  lemma OnlyYesPays(es: seq<Event>, s: Sys, pid: nat)
    requires Respects(INIT, es, NoYes(pid)) && s == Run(INIT, es) && Waited(s.log, pid)
    ensures forall j | 0 <= j < |s.log| && s.log[j].PayStarted? :: s.log[j].pid != pid
  {
    StartUnanswered(pid);
    RunUnanswered(INIT, es, pid);
  }

  // ---------- the log tells of every start ----------

  /** Whoever pays, or waits for an answer, has it in the log. */
  predicate Logged(log: seq<Entry>, p: Proc) {
    && (p.Paying? || p.HubPaying? ==> PayStarted(p.pid) in log)
    && (p.WaitAsked? || p.WaitTokened? || p.WaitPolling? || p.WaitDropped? ==> WaitStarted(p.pid) in log)
  }

  predicate AllLogged(s: Sys) {
    forall i | 0 <= i < |s.procs| :: Logged(s.log, s.procs[i])
  }

  lemma LoggedStays(log: seq<Entry>, log': seq<Entry>, p: Proc)
    requires Logged(log, p) && log <= log'
    ensures Logged(log', p)
  {
    assert forall e | e in log :: e in log';
  }

  lemma CallbackLogged(s: Sys, i: nat, x: Input)
    requires i < |s.procs| && (PreClaim(s.procs[i]) || s.procs[i].CbClaimed?)
    ensures Logged(StepCallback(s, i, x).log, StepCallback(s, i, x).procs[i])
  {
    var t := StepCallback(s, i, x);
    assert s.procs[i].CbClaimed? ==> t.log == s.log + [PayStarted(s.procs[i].pid)]
                                     || t.log == s.log + [WaitStarted(s.procs[i].pid)];
  }

  lemma WaitLogged(s: Sys, i: nat, x: Input)
    requires i < |s.procs| && Logged(s.log, s.procs[i])
    requires s.procs[i].WaitAsked? || s.procs[i].WaitTokened? || s.procs[i].WaitPolling? || s.procs[i].WaitDropped?
    ensures Logged(StepWait(s, i, x).log, StepWait(s, i, x).procs[i])
  {
    var t := StepWait(s, i, x);
    assert t.procs[i].Paying? ==> t.log == s.log + [PayStarted(s.procs[i].pid)];
  }

  lemma OtherLogged(s: Sys, i: nat, x: Input)
    requires i < |s.procs| && Logged(s.log, s.procs[i])
    requires var p := s.procs[i]; IsTap(p) || p.Paying? || p.HubPaying? || p.Watching? || p.Done?
    ensures Logged(Step(s, i, x).log, Step(s, i, x).procs[i])
  {
  }

  lemma StepLogged(s: Sys, i: nat, x: Input)
    requires AllLogged(s) && i < |s.procs|
    ensures AllLogged(Step(s, i, x))
  {
    var t, p := Step(s, i, x), s.procs[i];
    StepMoved(s, i, x);
    NextStart(s, Move(i, x));
    if PreClaim(p) || p.CbClaimed? { CallbackLogged(s, i, x); }
    else if p.WaitAsked? || p.WaitTokened? || p.WaitPolling? || p.WaitDropped? { WaitLogged(s, i, x); }
    else { OtherLogged(s, i, x); }
    forall j: nat | j < |t.procs| ensures Logged(t.log, t.procs[j]) {
      if j != i { LoggedStays(s.log, t.log, s.procs[j]); }
    }
  }

  lemma RequestLogged(s: Sys, e: Event)
    requires AllLogged(s) && !e.Move?
    ensures AllLogged(Next(s, e))
  {
    var t := Next(s, e);
    NextStart(s, e);
    RequestTickets(s, e);
    forall j: nat | j < |t.procs| ensures Logged(t.log, t.procs[j]) {
      if j < |s.procs| && t.procs[j] == s.procs[j] { LoggedStays(s.log, t.log, s.procs[j]); }
    }
  }

  lemma RequestTickets(s: Sys, e: Event)
    requires !e.Move?
    ensures var t := Next(s, e);
            forall j | 0 <= j < |t.procs| && Ticket(t.procs[j]) :: j < |s.procs| && t.procs[j] == s.procs[j]
  {
  }

  lemma {:induction false} RunLogged(s: Sys, es: seq<Event>)
    requires AllLogged(s)
    ensures AllLogged(Run(s, es))
    decreases |es|
  {
    if es != [] {
      if !es[0].Move? { RequestLogged(s, es[0]); }
      else if es[0].i < |s.procs| { StepLogged(s, es[0].i, es[0].x); }
      RunLogged(Next(s, es[0]), es[1..]);
    }
  }

  /** Under every interleaving, the log tells of every payment under way and of every wait. */
  lemma EveryStartIsLogged(es: seq<Event>, s: Sys, i: nat)
    requires s == Run(INIT, es) && i < |s.procs|
    ensures s.procs[i].Paying? || s.procs[i].HubPaying? ==> PayStarted(s.procs[i].pid) in s.log
    ensures s.procs[i].WaitAsked? || s.procs[i].WaitTokened? || s.procs[i].WaitPolling? ==>
              WaitStarted(s.procs[i].pid) in s.log
  {
    RunLogged(INIT, es);
    assert Logged(s.log, s.procs[i]);
  }
}
