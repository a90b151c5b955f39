/**
 Whose row is whose, under every interleaving: a step writes only the row its process works on, and whoever holds a
 claim or watches a receipt knows the state the row is in.
 */
module Hands {
  import opened Tables
  import opened System
  import opened Spent

  predicate Owns(p: Proc) {
    PreClaim(p) || Ticket(p)
  }

  function PidOf(p: Proc): int {
    if Owns(p) then p.pid else -1
  }

  function RidOf(p: Proc): int {
    if p.Watching? then p.rid else -1
  }

  /** Equal in every column that money or a process depends on. */
  predicate SameMoney(p: Payment, q: Payment) {
    && p.cardId == q.cardId && p.amount == q.amount && p.paid == q.paid
    && p.payTime == q.payTime && p.status == q.status
  }

  /** All payment rows but `pid` and all receipts but `rid` keep their money columns; rows may be added. */
  predicate Elsewhere(a: Db, b: Db, pid: int, rid: int) {
    && |a.payments| <= |b.payments| && |a.receipts| <= |b.receipts|
    && (forall k | 0 <= k < |a.payments| && k != pid :: SameMoney(a.payments[k], b.payments[k]))
    && (forall k | 0 <= k < |a.receipts| && k != rid :: a.receipts[k] == b.receipts[k])
  }

  predicate NewRowsEmpty(a: Db, b: Db) {
    && |a.payments| <= |b.payments| <= |a.payments| + 1 && |a.receipts| <= |b.receipts| <= |a.receipts| + 1
    && (forall k | |a.payments| <= k < |b.payments| :: b.payments[k].amount.None?)
    && (forall k | |a.receipts| <= k < |b.receipts| :: b.receipts[k].state == Unset)
  }

  /** Process i moved and wrote only the rows it works on. */
  predicate Moved(s: Sys, t: Sys, i: nat)
    requires i < |s.procs|
  {
    && |t.procs| == |s.procs| && t.procs == s.procs[i := t.procs[i]]
    && Elsewhere(s.db, t.db, PidOf(s.procs[i]), RidOf(s.procs[i])) && NewRowsEmpty(s.db, t.db)
    && (PidOf(t.procs[i]) == PidOf(s.procs[i]) || PidOf(t.procs[i]) == -1)
    && (RidOf(t.procs[i]) == RidOf(s.procs[i]) || RidOf(t.procs[i]) == -1)
    && (Ticket(s.procs[i]) ==> !PreClaim(t.procs[i]))
  }

  lemma MintMoved(s: Sys, i: nat, x: Input)
    requires i < |s.procs| && s.procs[i].TapAccepted?
    ensures Moved(s, StepTap(s, i, x), i)
  {
  }

  lemma BindMoved(s: Sys, i: nat, x: Input)
    requires i < |s.procs| && s.procs[i].TapBinding?
    ensures Moved(s, StepTap(s, i, x), i)
  {
  }

  lemma LookMoved(s: Sys, i: nat, x: Input)
    requires i < |s.procs| && (s.procs[i].TapRead? || s.procs[i].TapListing?)
    ensures Moved(s, StepTap(s, i, x), i)
  {
  }

  lemma TapMoved(s: Sys, i: nat, x: Input)
    requires i < |s.procs| && (s.procs[i].TapBound? || s.procs[i].TapFound?)
    ensures Moved(s, StepTap(s, i, x), i)
  {
  }

  lemma ClaimMoved(s: Sys, i: nat, x: Input)
    requires i < |s.procs| && s.procs[i].CbRouted?
    ensures Moved(s, StepCallback(s, i, x), i)
  {
  }

  lemma SpoilMoved(s: Sys, i: nat, x: Input)
    requires i < |s.procs| && (s.procs[i].CbInTime? || s.procs[i].CbWrongPin?)
    ensures Moved(s, StepCallback(s, i, x), i)
  {
  }

  lemma CallbackMoved(s: Sys, i: nat, x: Input)
    requires i < |s.procs|
    requires s.procs[i].CbFound? || s.procs[i].CbRecorded? || s.procs[i].CbReady? || s.procs[i].CbClaimed?
    ensures Moved(s, StepCallback(s, i, x), i)
  {
  }

  lemma WaitMoved(s: Sys, i: nat, x: Input)
    requires i < |s.procs|
    requires s.procs[i].WaitTokened? || s.procs[i].WaitPolling?
    ensures Moved(s, StepWait(s, i, x), i)
  {
  }

  lemma WaitWriteMoved(s: Sys, i: nat, x: Input)
    requires i < |s.procs| && (s.procs[i].WaitAsked? || s.procs[i].WaitDropped?)
    ensures Moved(s, StepWait(s, i, x), i)
  {
  }

  lemma NodeMoved(s: Sys, i: nat, x: Input)
    requires i < |s.procs| && (s.procs[i].Paying? || s.procs[i].Watching?)
    ensures Moved(s, StepNode(s, i, x), i)
  {
  }

  lemma StepMoved(s: Sys, i: nat, x: Input)
    requires i < |s.procs|
    ensures Moved(s, Step(s, i, x), i)
  {
    match s.procs[i]
    case TapAccepted(_, _) => MintMoved(s, i, x);
    case TapBinding(_, _, _) => BindMoved(s, i, x);
    case TapRead(_, _) => LookMoved(s, i, x);
    case TapListing(_, _) => LookMoved(s, i, x);
    case TapBound(_, _, _) => TapMoved(s, i, x);
    case TapFound(_, _, _) => TapMoved(s, i, x);
    case WaitAsked(_, _) => WaitWriteMoved(s, i, x);
    case WaitTokened(_, _) => WaitMoved(s, i, x);
    case WaitPolling(_, _) => WaitMoved(s, i, x);
    case WaitDropped(_, _) => WaitWriteMoved(s, i, x);
    case Paying(_, _, _) => NodeMoved(s, i, x);
    case Watching(_, _, _, _) => NodeMoved(s, i, x);
    case CbRouted(_, _, _, _) => ClaimMoved(s, i, x);
    case CbInTime(_) => SpoilMoved(s, i, x);
    case CbWrongPin(_) => SpoilMoved(s, i, x);
    case HubPaying(_, _) => assert s.procs == s.procs[i := s.procs[i]];
    case Done => assert s.procs == s.procs[i := s.procs[i]];
    case _ => CallbackMoved(s, i, x);
  }

  lemma RequestElsewhere(s: Sys, e: Event)
    requires !e.Move?
    ensures Elsewhere(s.db, Next(s, e).db, -1, -1) && NewRowsEmpty(s.db, Next(s, e).db)
    ensures |Next(s, e).db.payments| == |s.db.payments|
  {
  }

  // ---------- what a holder knows ----------

  predicate HandOk(db: Db, p: Proc) {
    && (Owns(p) ==> p.pid < |db.payments|)
    && (p.CbRecorded? || p.CbReady? || p.CbRouted? ==> p.msats > 0)
    && (Ticket(p) ==> db.payments[p.pid].paid && db.payments[p.pid].status == (if p.Paying? then p.last else Blank))
    && (p.Watching? ==>
          && p.rid < |db.receipts| && db.receipts[p.rid].cardId == p.card
          && db.receipts[p.rid].msats == p.msats && db.receipts[p.rid].state == p.seen)
  }

  predicate HandsOk(s: Sys) {
    && (forall i | 0 <= i < |s.procs| :: HandOk(s.db, s.procs[i]))
    && (forall i, j | 0 <= i < j < |s.procs| && s.procs[i].Watching? && s.procs[j].Watching? ::
          s.procs[i].rid != s.procs[j].rid)
  }

  /** A callback that works on a row somebody has claimed changes no more of it than its amount. */
  predicate ClaimUntouched(s: Sys, t: Sys, pid: nat) {
    pid < |s.db.payments| <= |t.db.payments| && s.db.payments[pid].paid ==>
      SameClaim(s.db.payments[pid], t.db.payments[pid]) && t.db.payments[pid].status == s.db.payments[pid].status
  }

  lemma PreClaimUntouched(s: Sys, i: nat, x: Input)
    requires i < |s.procs| && PreClaim(s.procs[i])
    ensures ClaimUntouched(s, Step(s, i, x), s.procs[i].pid)
  {
  }

  lemma OwnHand(s: Sys, i: nat, x: Input)
    requires Once(s) && i < |s.procs| && HandOk(s.db, s.procs[i])
    ensures HandOk(Step(s, i, x).db, Step(s, i, x).procs[i])
  {
    var p := s.procs[i];
    if IsTap(p) { TapHand(s, i, x); }
    else if p.WaitAsked? || p.WaitTokened? || p.WaitPolling? || p.WaitDropped? { WaitHand(s, i, x); }
    else if p.Paying? || p.Watching? { NodeHand(s, i, x); }
    else if p.CbRouted? { ClaimHand(s, i, x); }
    else if p.CbInTime? || p.CbWrongPin? { WriterHand(s, i, x); }
    else if PreClaim(p) || p.CbClaimed? { CallbackHand(s, i, x); }
  }

  lemma TapHand(s: Sys, i: nat, x: Input)
    requires i < |s.procs|
    requires IsTap(s.procs[i])
    ensures HandOk(StepTap(s, i, x).db, StepTap(s, i, x).procs[i])
  {
  }

  lemma WaitHand(s: Sys, i: nat, x: Input)
    requires i < |s.procs| && HandOk(s.db, s.procs[i])
    requires s.procs[i].WaitAsked? || s.procs[i].WaitTokened? || s.procs[i].WaitPolling? || s.procs[i].WaitDropped?
    ensures HandOk(StepWait(s, i, x).db, StepWait(s, i, x).procs[i])
  {
  }

  lemma NodeHand(s: Sys, i: nat, x: Input)
    requires i < |s.procs| && HandOk(s.db, s.procs[i]) && (s.procs[i].Paying? || s.procs[i].Watching?)
    ensures HandOk(StepNode(s, i, x).db, StepNode(s, i, x).procs[i])
  {
  }

  lemma ClaimHand(s: Sys, i: nat, x: Input)
    requires RowsOk(s) && i < |s.procs| && HandOk(s.db, s.procs[i]) && s.procs[i].CbRouted?
    ensures HandOk(StepCallback(s, i, x).db, StepCallback(s, i, x).procs[i])
  {
    assert RowOk(s, s.procs[i].pid);
  }

  lemma CallbackHand(s: Sys, i: nat, x: Input)
    requires i < |s.procs| && HandOk(s.db, s.procs[i])
    requires s.procs[i].CbFound? || s.procs[i].CbRecorded? || s.procs[i].CbReady? || s.procs[i].CbClaimed?
    ensures HandOk(StepCallback(s, i, x).db, StepCallback(s, i, x).procs[i])
  {
  }

  lemma WriterHand(s: Sys, i: nat, x: Input)
    requires i < |s.procs| && HandOk(s.db, s.procs[i]) && (s.procs[i].CbInTime? || s.procs[i].CbWrongPin?)
    ensures HandOk(StepCallback(s, i, x).db, StepCallback(s, i, x).procs[i])
  {
  }

  /** What process j knows stays so while process i moves. */
  lemma OtherHand(s: Sys, t: Sys, i: nat, j: nat)
    requires TicketsOk(s) && HandsOk(s) && i < |s.procs| && j < |s.procs| && j != i && Moved(s, t, i)
    requires PreClaim(s.procs[i]) ==> ClaimUntouched(s, t, s.procs[i].pid)
    ensures HandOk(t.db, s.procs[j])
  {
    assert HandOk(s.db, s.procs[j]);
  }

  lemma StepHands(s: Sys, i: nat, x: Input)
    requires Once(s) && HandsOk(s) && i < |s.procs|
    ensures HandsOk(Step(s, i, x))
  {
    var t := Step(s, i, x);
    StepMoved(s, i, x);
    OwnHand(s, i, x);
    if PreClaim(s.procs[i]) { PreClaimUntouched(s, i, x); }
    forall j | 0 <= j < |t.procs| ensures HandOk(t.db, t.procs[j]) {
      if j != i { OtherHand(s, t, i, j); }
    }
  }

  lemma SpawnedHands(s: Sys, t: Sys, p: Proc)
    requires HandsOk(s) && Elsewhere(s.db, t.db, -1, -1) && t.procs == s.procs + [p] && HandOk(t.db, p)
    requires p.Watching? ==> forall j | 0 <= j < |s.procs| && s.procs[j].Watching? :: s.procs[j].rid != p.rid
    ensures HandsOk(t)
  {
    forall j | 0 <= j < |t.procs| ensures HandOk(t.db, t.procs[j]) {
      if j < |s.procs| { assert HandOk(s.db, s.procs[j]); }
    }
  }

  lemma SameHands(s: Sys, t: Sys)
    requires HandsOk(s) && Elsewhere(s.db, t.db, -1, -1) && t.procs == s.procs
    ensures HandsOk(t)
  {
    forall j | 0 <= j < |t.procs| ensures HandOk(t.db, t.procs[j]) { assert HandOk(s.db, s.procs[j]); }
  }

  lemma DepositHands(s: Sys, card: nat, hash: string, msats: int, now: int)
    requires HandsOk(s)
    ensures HandsOk(TakeDeposit(s, card, hash, msats, now))
  {
    var t := TakeDeposit(s, card, hash, msats, now);
    forall j | 0 <= j < |s.procs| && s.procs[j].Watching? ensures s.procs[j].rid < |s.db.receipts| {
      assert HandOk(s.db, s.procs[j]);
    }
    if t != s { SpawnedHands(s, t, Watching(|s.db.receipts|, card, msats, Unset)); }
  }

  lemma StopHands(s: Sys, i: nat)
    requires HandsOk(s) && i < |s.procs|
    ensures HandsOk(Put(s, i, Done))
  {
    forall j | 0 <= j < |s.procs| && j != i ensures HandOk(s.db, s.procs[j]) {}
  }

  lemma RequestHands(s: Sys, e: Event)
    requires HandsOk(s) && !e.Move?
    ensures HandsOk(Next(s, e))
  {
    RequestElsewhere(s, e);
    match e
    case Deposit(card, hash, msats, now) => DepositHands(s, card, hash, msats, now);
    case TapCard(uid, counter) => if uid != "" { SpawnedHands(s, Next(s, e), TapRead(uid, counter)); }
    case Present(k1) => if Next(s, e) != s { SpawnedHands(s, Next(s, e), CbFound(FindK1(s.db.payments, k1).value)); }
    case Stop(i) => if i < |s.procs| { StopHands(s, i); }
    case Answer(token, answer, now) => SameHands(s, TakeAnswer(s, token, answer, now));
    case _ => SameHands(s, Next(s, e));
  }

  /** A row that has failed stays so, unless the node takes its own report back. */
  lemma FailedStays(s: Sys, e: Event, k: nat)
    requires HandsOk(s) && k < |s.db.payments| && s.db.payments[k].paid && s.db.payments[k].status == Failed
    requires e.Move? && e.i < |s.procs| && Ticket(s.procs[e.i]) && s.procs[e.i].pid == k ==> FinalStates(s, e)
    ensures k < |Next(s, e).db.payments|
    ensures Next(s, e).db.payments[k].paid && Next(s, e).db.payments[k].status == Failed
  {
    if !e.Move? {
      RequestElsewhere(s, e);
    } else if e.i < |s.procs| {
      assert HandOk(s.db, s.procs[e.i]);
      StepMoved(s, e.i, e.x);
      if PreClaim(s.procs[e.i]) { PreClaimUntouched(s, e.i, e.x); }
      if Ticket(s.procs[e.i]) && s.procs[e.i].pid == k { HolderStays(s, e.i, e.x); }
    }
  }

  lemma HolderStays(s: Sys, i: nat, x: Input)
    requires i < |s.procs| && Ticket(s.procs[i]) && HandOk(s.db, s.procs[i]) && FinalStates(s, Move(i, x))
    requires s.db.payments[s.procs[i].pid].status == Failed
    ensures |Step(s, i, x).db.payments| == |s.db.payments|
    ensures SameMoney(s.db.payments[s.procs[i].pid], Step(s, i, x).db.payments[s.procs[i].pid])
  {
  }

  predicate KnownOk(s: Sys) {
    Once(s) && HandsOk(s)
  }

  lemma NextKnown(s: Sys, e: Event)
    requires KnownOk(s)
    ensures KnownOk(Next(s, e))
  {
    NextKeeps(s, e);
    if !e.Move? { RequestHands(s, e); } else if e.i < |s.procs| { StepHands(s, e.i, e.x); }
  }

  /** Every sequence of events keeps what the holders know. */
  lemma {:induction false} RunKnown(s: Sys, es: seq<Event>)
    requires KnownOk(s)
    ensures KnownOk(Run(s, es))
    decreases |es|
  {
    if es != [] {
      NextKnown(s, es[0]);
      RunKnown(Next(s, es[0]), es[1..]);
    }
  }

  lemma StartKnown()
    ensures KnownOk(INIT)
  {
  }

  lemma ReachedKnown(es: seq<Event>, s: Sys)
    requires s == Run(INIT, es)
    ensures KnownOk(s)
  {
    StartKnown();
    RunKnown(INIT, es);
  }
}
