/** A released payment is never sent, under every interleaving of database statements. */
module Outcomes {
  import opened System
  import opened Spent

  /** Nobody who gave up a payment can start it, and nobody holds one that has been released. */
  predicate ReleasesOk(s: Sys) {
    && (forall j | 0 <= j < |s.log| && s.log[j].Released? ::
          s.log[j].pid < |s.notes| && s.notes[s.log[j].pid].claim.Some?)
    && (forall i, j | 0 <= i < |s.procs| && 0 <= j < |s.log| && s.procs[i].WaitDropped? && s.log[j].PayStarted? ::
          s.procs[i].pid != s.log[j].pid)
    && (forall i, j | 0 <= i < |s.procs| && 0 <= j < |s.log| && Ticket(s.procs[i]) && s.log[j].Released? ::
          s.procs[i].pid != s.log[j].pid)
    && (forall i, j | 0 <= i < |s.log| && 0 <= j < |s.log| && s.log[i].Released? && s.log[j].PayStarted? ::
          s.log[i].pid != s.log[j].pid)
  }

  predicate Settles(e: Entry) {
    e.PayStarted? || e.Released?
  }

  /** A claim passes on to the same row's, and is given up only by one who could still pay. */
  predicate PassesOn(p: Proc, q: Proc) {
    Ticket(q) ==> Ticket(p) && p.pid == q.pid && (q.WaitDropped? ==> p.WaitDropped? || MayPay(p))
  }

  predicate Undecided(s: Sys, t: Sys) {
    && NotesGrow(s, t) && s.log <= t.log && (forall j | |s.log| <= j < |t.log| :: !Settles(t.log[j]))
    && |s.procs| <= |t.procs|
    && (forall i | 0 <= i < |s.procs| :: PassesOn(s.procs[i], t.procs[i]))
    && (forall i | |s.procs| <= i < |t.procs| :: !Ticket(t.procs[i]))
  }

  lemma UndecidedKeeps(s: Sys, t: Sys)
    requires ReleasesOk(s) && StartsOk(s) && Undecided(s, t)
    ensures ReleasesOk(t)
  {
    forall j | 0 <= j < |t.log| && Settles(t.log[j]) ensures j < |s.log| && t.log[j] == s.log[j] {}
    forall i | 0 <= i < |t.procs| && Ticket(t.procs[i]) ensures i < |s.procs| && PassesOn(s.procs[i], t.procs[i]) {}
  }

  lemma TapUndecided(s: Sys, i: nat, x: Input)
    requires i < |s.procs|
    ensures Undecided(s, StepTap(s, i, x))
  {
  }

  lemma CallbackUndecided(s: Sys, i: nat, x: Input)
    requires i < |s.procs| && !s.procs[i].CbRouted? && !s.procs[i].CbClaimed?
    ensures Undecided(s, StepCallback(s, i, x))
  {
  }

  lemma WaitUndecided(s: Sys, i: nat, x: Input)
    requires i < |s.procs| && !s.procs[i].WaitDropped?
    requires !(s.procs[i].WaitPolling? && StepWait(s, i, x).procs[i].Paying?)
    ensures Undecided(s, StepWait(s, i, x))
  {
  }

  lemma NodeUndecided(s: Sys, i: nat, x: Input)
    requires i < |s.procs|
    ensures Undecided(s, StepNode(s, i, x))
  {
  }

  lemma RequestUndecided(s: Sys, e: Event)
    requires !e.Move?
    ensures Undecided(s, Next(s, e))
  {
  }

  lemma ClaimedKeeps(s: Sys, t: Sys, i: nat, q: Proc, e: Entry)
    requires ReleasesOk(s) && StartsOk(s) && i < |s.procs| && NotesGrow(s, t)
    requires q.CbClaimed? && q.pid < |s.notes| && s.notes[q.pid].claim.None?
    requires t.procs == s.procs[i := q] && t.log == s.log + [e] && e.Claimed?
    ensures ReleasesOk(t)
  {
    forall j | 0 <= j < |t.log| && Settles(t.log[j]) ensures j < |s.log| && t.log[j] == s.log[j] {}
  }

  lemma ClaimKeepsReleases(s: Sys, i: nat, x: Input)
    requires Once(s) && ReleasesOk(s) && i < |s.procs| && s.procs[i].CbRouted?
    ensures ReleasesOk(StepCallback(s, i, x))
  {
    var t := StepCallback(s, i, x);
    if t.procs[i].CbClaimed? {
      assert RowOk(s, s.procs[i].pid);
      ClaimedKeeps(s, t, i, t.procs[i], t.log[|s.log|]);
    } else {
      UndecidedKeeps(s, t);
    }
  }

  lemma StartKeepsReleases(s: Sys, t: Sys, i: nat, p: Proc, e: Entry)
    requires TicketsOk(s) && StartsOk(s) && ReleasesOk(s)
    requires i < |s.procs| && MayPay(s.procs[i]) && Ticket(p) && !p.WaitDropped? && p.pid == s.procs[i].pid
    requires t == Put(Log(s, e), i, p) && Starts(e) && e.pid == p.pid
    ensures ReleasesOk(t)
  {
    forall j | 0 <= j < |t.log| && j != |s.log| ensures t.log[j] == s.log[j] {}
    forall j | 0 <= j < |t.procs| && Ticket(t.procs[j]) && j != i
      ensures t.procs[j] == s.procs[j] && s.procs[j].pid != p.pid {}
  }

  lemma ReleaseKeepsReleases(s: Sys, t: Sys, i: nat, e: Entry)
    requires TicketsOk(s) && ReleasesOk(s) && i < |s.procs| && s.procs[i].WaitDropped?
    requires t.procs == s.procs[i := Done] && t.log == s.log + [e] && t.notes == s.notes
    requires e.Released? && e.pid == s.procs[i].pid
    ensures ReleasesOk(t)
  {
    forall j | 0 <= j < |t.log| && j != |s.log| ensures t.log[j] == s.log[j] {}
    forall j | 0 <= j < |t.procs| && Ticket(t.procs[j])
      ensures j != i && t.procs[j] == s.procs[j] && s.procs[j].pid != e.pid {}
  }

  lemma DropKeepsReleases(s: Sys, i: nat, x: Input)
    requires TicketsOk(s) && StartsOk(s) && ReleasesOk(s) && i < |s.procs| && s.procs[i].WaitDropped?
    ensures ReleasesOk(StepWait(s, i, x))
  {
    var t := StepWait(s, i, x);
    if |t.log| > |s.log| { ReleaseKeepsReleases(s, t, i, t.log[|s.log|]); } else { UndecidedKeeps(s, t); }
  }

  lemma WaitKeepsReleases(s: Sys, i: nat, x: Input)
    requires Once(s) && ReleasesOk(s) && i < |s.procs|
    ensures ReleasesOk(StepWait(s, i, x))
  {
    var t := StepWait(s, i, x);
    if s.procs[i].WaitDropped? {
      DropKeepsReleases(s, i, x);
    } else if s.procs[i].WaitPolling? && t.procs[i].Paying? {
      StartKeepsReleases(s, t, i, t.procs[i], PayStarted(s.procs[i].pid));
    } else {
      WaitUndecided(s, i, x);
      UndecidedKeeps(s, t);
    }
  }

  lemma CallbackKeepsReleases(s: Sys, i: nat, x: Input)
    requires Once(s) && ReleasesOk(s) && i < |s.procs|
    ensures ReleasesOk(StepCallback(s, i, x))
  {
    var t := StepCallback(s, i, x);
    if s.procs[i].CbRouted? {
      ClaimKeepsReleases(s, i, x);
    } else if s.procs[i].CbClaimed? {
      var e := if t.procs[i].WaitAsked? then WaitStarted(s.procs[i].pid) else PayStarted(s.procs[i].pid);
      StartKeepsReleases(s, t, i, t.procs[i], e);
    } else {
      CallbackUndecided(s, i, x);
      UndecidedKeeps(s, t);
    }
  }

  lemma StepKeepsReleases(s: Sys, i: nat, x: Input)
    requires Once(s) && ReleasesOk(s) && i < |s.procs|
    ensures ReleasesOk(Step(s, i, x))
  {
    CallbackKeepsReleases(s, i, x);
    WaitKeepsReleases(s, i, x);
    TapUndecided(s, i, x);
    UndecidedKeeps(s, StepTap(s, i, x));
    NodeUndecided(s, i, x);
    UndecidedKeeps(s, StepNode(s, i, x));
  }

  predicate OutcomesOk(s: Sys) {
    Once(s) && ReleasesOk(s)
  }

  lemma NextKeepsOutcomes(s: Sys, e: Event)
    requires OutcomesOk(s)
    ensures OutcomesOk(Next(s, e))
  {
    NextKeeps(s, e);
    if !e.Move? {
      RequestUndecided(s, e);
      UndecidedKeeps(s, Next(s, e));
    } else if e.i < |s.procs| {
      StepKeepsReleases(s, e.i, e.x);
    }
  }

  lemma {:induction false} RunKeepsOutcomes(s: Sys, es: seq<Event>)
    requires OutcomesOk(s)
    ensures OutcomesOk(Run(s, es))
    decreases |es|
  {
    if es != [] {
      NextKeepsOutcomes(s, es[0]);
      RunKeepsOutcomes(Next(s, es[0]), es[1..]);
    }
  }

  lemma StartOutcomes()
    ensures OutcomesOk(INIT)
  {
  }

  lemma ReachedOutcomes(es: seq<Event>, s: Sys)
    requires s == Run(INIT, es)
    ensures OutcomesOk(s)
  {
    StartOutcomes();
    RunKeepsOutcomes(INIT, es);
  }

  /** Of one row, never both: handed to be paid, and released so that it counts towards no limit. */
  lemma NeverSentAndReleased(es: seq<Event>, s: Sys, i: nat, j: nat)
    requires s == Run(INIT, es) && i < |s.log| && j < |s.log|
    requires s.log[i].Released? && s.log[j].PayStarted?
    ensures s.log[i].pid != s.log[j].pid
  {
    ReachedOutcomes(es, s);
  }
}
