/** The attribution correction loop of the sweep ends, whatever else happens around it. */
module CorrectionLoop {
  import opened Prelude
  import opened Attribution
  import opened AttributionPersist
  import opened DraftStore
  import opened SendSweep

  /** Statements that put new content, a new declaration or a new schedule on the row. */
  predicate Reopens(op: Op) {
    || op.Edit? || op.SetMetadata? || op.SyncedEdit? || op.SetSendAfter? || op.SetAttribution?
    || op.QueueHumanSend? || op.QueueForSend? || op.QueueCorrection?
  }

  predicate Disturbs(act: Action, id: Id) {
    act.Env? && act.id == id && Reopens(act.op)
  }

  function Refusals(log: seq<Event>, id: Id): nat {
    if log == [] then 0
    else Refusals(log[..|log| - 1], id) +
         if log[|log| - 1].Refused? && log[|log| - 1].id == id then 1 else 0
  }

  lemma RefusalsSnoc(log: seq<Event>, e: Event, id: Id)
    ensures Refusals(log + [e], id) == Refusals(log, id) + if e.Refused? && e.id == id then 1 else 0
  {
  }

  /** How many attribution failures a draft with `k` recorded attempts may still meet. */
  function Left(k: nat): nat {
    if k < MAX_ATTRIBUTION_ATTEMPTS then MAX_ATTRIBUTION_ATTEMPTS - k else 1
  }

  /** A draft of human origin may fail once; a bot or unknown one until its attempts run out. */
  function RowBudget(row: Row): nat {
    if row.sendAfter.None? then 0
    else if OriginOf(row.createdBy, row.declaration, row.revision).Human? then 1
    else Left(RecordedAttempts(row.declaration, row.revision))
  }

  /** What the holder of the claim will leave of the budget. */
  function HolderBudget(row: Row, p: Phase): nat {
    if !p.Leaving? then RowBudget(row)
    else match p.exit
         case GiveUp(_) => RowBudget(row)
         case TransientBlock => RowBudget(row)
         case DropGuard => RowBudget(row)
         case RetryAttribution(value) => Left(value.attempts)
         case _ => 0
  }

  /** An orphaned claim is never attempted again. */
  ghost function Budget(w: World, id: Id): nat {
    if id !in w.rows then 0
    else if !w.rows[id].status.Sending? then RowBudget(w.rows[id])
    else if a :| w.At(a).Holding(id) then HolderBudget(w.rows[id], w.At(a))
    else 0
  }

  lemma BudgetHeld(w: World, a: Sender, id: Id)
    requires Owners(w) && w.At(a).Holding(id)
    ensures id in w.rows && Budget(w, id) == HolderBudget(w.rows[id], w.At(a))
  {
  }

  lemma BudgetFree(w: World, id: Id)
    requires Owners(w) && id in w.rows && !w.rows[id].status.Sending?
    ensures Budget(w, id) == RowBudget(w.rows[id])
    ensures forall a :: !w.At(a).Holding(id)
  {
  }

  lemma BudgetOrphan(w: World, id: Id)
    requires forall a :: !w.At(a).Holding(id)
    requires id in w.rows ==> w.rows[id].status.Sending?
    ensures Budget(w, id) == 0
  {
  }

  /** Nothing that happens to other drafts, and no note in the log, touches the budget. */
  lemma BudgetElsewhere(w: World, w': World, id: Id)
    requires Owners(w) && Owners(w')
    requires id in w.rows <==> id in w'.rows
    requires id in w.rows ==> w.rows[id] == w'.rows[id]
    requires forall a :: w.At(a).Holding(id) || w'.At(a).Holding(id) ==> w.At(a) == w'.At(a)
    ensures Budget(w, id) == Budget(w', id)
  {
    if id in w.rows && w.rows[id].status.Sending? {
      if a :| w.At(a).Holding(id) {
        BudgetHeld(w, a, id);
        BudgetHeld(w', a, id);
      } else {
        BudgetOrphan(w, id);
        BudgetOrphan(w', id);
      }
    }
  }

  /** Refusals met so far and refusals still to come. */
  ghost function Potential(w: World, id: Id): nat {
    Refusals(w.log, id) + Budget(w, id)
  }

  lemma EnvSpends(w: World, i: Id, op: Op, id: Id)
    requires Inv(w) && (i == id ==> !Reopens(op))
    ensures Potential(ApplyEnv(w, i, op), id) <= Potential(w, id)
  {
    var w' := ApplyEnv(w, i, op);
    EnvKeeps(w, i, op);
    assert forall a :: w'.At(a) == w.At(a);
    if i != id || w' == w || w.rows[id].status.Sending? {
      if i == id && w' != w { ClaimedIsFrozen(w.rows[id], op); }
      BudgetElsewhere(w, w', id);
    } else {
      BudgetFree(w, id);
      if w'.rows[id].status.Sending? { BudgetOrphan(w', id); } else { BudgetFree(w', id); }
    }
  }

  lemma ClaimSpends(w: World, a: Sender, i: Id, revision: int, path: Path, lease: Token, now: int, id: Id)
    requires Inv(w)
    ensures Potential(ApplyClaim(w, a, i, revision, path, lease, now), id) == Potential(w, id)
  {
    var w' := ApplyClaim(w, a, i, revision, path, lease, now);
    ClaimKeeps(w, a, i, revision, path, lease, now);
    assert forall b :: b != a ==> w'.At(b) == w.At(b);
    if w'.At(a).Holding(id) && w'.At(a) != w.At(a) {
      BudgetFree(w, id);
      BudgetHeld(w', a, id);
    } else {
      BudgetElsewhere(w, w', id);
    }
  }

  lemma DecisionSpends(p: Phase, ctx: SendContext, declared: seq<string>, verdict: Verdict)
    requires p.Loaded? && (p.path.Scheduled? ==> p.snap.sendAfter.Some?)
    ensures var d := Decide(p.path, p.snap, ctx, declared, verdict);
            d.Refuse? ==>
              HolderBudget(p.snap, Leaving(p.id, p.lease, p.path, p.revision, d.exit)) +
              (if d.exit.RetryAttribution? || d.exit.ExhaustAttribution? || d.exit.HumanReapproval? then 1 else 0)
              <= RowBudget(p.snap)
  {
  }

  /** A refusal at the gate pays for itself out of the budget. */
  lemma GateSpends(w: World, a: Sender, ctx: SendContext, declared: seq<string>, verdict: Verdict, id: Id)
    requires Inv(w)
    ensures Potential(Apply(w, Gate(a, ctx, declared, verdict)), id) <= Potential(w, id)
  {
    var p, w' := w.At(a), Apply(w, Gate(a, ctx, declared, verdict));
    GateKeeps(w, a, ctx, declared, verdict);
    assert forall b :: b != a ==> w'.At(b) == w.At(b);
    if p.Loaded? {
      var d := Decide(p.path, p.snap, ctx, declared, verdict);
      GateApplies(w, a, ctx, declared, verdict);
      if d.Refuse? { RefusalsSnoc(w.log, Refused(p.id, p.lease, d.exit), id); }
      if p.id == id {
        BudgetHeld(w, a, id);
        BudgetHeld(w', a, id);
        assert Owns(w, p);
        DecisionSpends(p, ctx, declared, verdict);
      } else {
        BudgetElsewhere(w, w', id);
      }
    }
  }

  lemma SettleLog(w: World, a: Sender, dbOk: bool, id: Id)
    ensures Refusals(ApplySettle(w, a, dbOk).log, id) == Refusals(w.log, id)
  {
    var p, log := w.At(a), ApplySettle(w, a, dbOk).log;
    if |log| > |w.log| {
      RefusalsSnoc(w.log, log[|w.log|], id);
      if |log| > |w.log| + 1 { RefusalsSnoc(w.log + [log[|w.log|]], log[|w.log| + 1], id); }
    }
  }

  lemma PublishEnds(w: World, a: Sender, id: Id)
    requires w.At(a).Reporting?
    ensures var w' := Apply(w, Publish(a));
            && w'.rows == w.rows && w'.minted == w.minted && w'.At(a).Idle?
            && Refusals(w'.log, id) == Refusals(w.log, id)
  {
    RefusalsSnoc(w.log, Published(w.At(a).id, w.At(a).lease, w.At(a).outcome), id);
  }

  /** Only the gate notes refusals. */
  lemma QuietLog(w: World, act: Action, id: Id)
    requires !act.Gate?
    ensures Refusals(Apply(w, act).log, id) == Refusals(w.log, id)
  {
    if act.Settle? {
      SettleLog(w, act.who, act.dbOk, id);
    } else if act.Transmit? && w.At(act.who).Cleared? {
      var p := w.At(act.who);
      RefusalsSnoc(w.log, Attempted(p.id, p.lease, p.path, p.snap, p.content, p.basis), id);
    } else if act.Publish? && w.At(act.who).Reporting? {
      PublishEnds(w, act.who, id);
    }
  }

  lemma ExitSpends(row: Row, p: Phase)
    requires p.Leaving? && row.status.Sending? && row.token == Some(p.lease)
    requires p.exit.RetryAttribution? ==> p.exit.value.IsCurrent(row.revision)
    ensures var r := Exec(row, p.exit.Statement(p.lease)); r.Some? && RowBudget(r.value) <= HolderBudget(row, p)
  {
  }

  /** The statement matched: the claim is gone, and the row keeps no more than its holder would leave it. */
  lemma LettingGoSpends(w: World, a: Sender, id: Id)
    requires Inv(w) && w.At(a).Leaving? && w.At(a).id == id
    ensures Budget(ApplySettle(w, a, true), id) <= Budget(w, id)
  {
    var p, w' := w.At(a), ApplySettle(w, a, true);
    SettleMoves(w, a);
    assert Owns(w, p);
    ExitSpends(w.rows[id], p);
    BudgetHeld(w, a, id);
    OneHolder(w, a, id);
    assert forall b :: b != a ==> w'.At(b) == w.At(b);
    if w'.rows[id].status.Sending? { BudgetOrphan(w', id); } else { BudgetFree(w', id); }
  }

  /** The statement failed: the row stays claimed, by a sender that will try the park or by no one. */
  lemma FailingSpends(w: World, a: Sender, id: Id)
    requires Inv(w) && w.At(a).Leaving? && w.At(a).id == id
    ensures Budget(ApplySettle(w, a, false), id) <= Budget(w, id)
  {
    var w' := ApplySettle(w, a, false);
    SettleKeeps(w, a, false);
    assert Owns(w, w.At(a));
    BudgetHeld(w, a, id);
    OneHolder(w, a, id);
    assert forall b :: b != a ==> w'.At(b) == w.At(b);
    if w'.At(a).Holds() { BudgetHeld(w', a, id); } else { BudgetOrphan(w', id); }
  }

  lemma SettleSpends(w: World, a: Sender, dbOk: bool, id: Id)
    requires Inv(w)
    ensures Potential(ApplySettle(w, a, dbOk), id) <= Potential(w, id)
  {
    var p, w' := w.At(a), ApplySettle(w, a, dbOk);
    SettleKeeps(w, a, dbOk);
    QuietLog(w, Settle(a, dbOk), id);
    assert forall b :: b != a ==> w'.At(b) == w.At(b);
    if p.Leaving? {
      assert Owns(w, p);
      if p.id != id { BudgetElsewhere(w, w', id); }
      else if dbOk { LettingGoSpends(w, a, id); }
      else { FailingSpends(w, a, id); }
    }
  }

  lemma QuietHolder(w: World, act: Action, id: Id)
    requires Inv(w) && Inv(Apply(w, act))
    requires act.Load? || act.Prepare? || act.Transmit? || act.Publish? || act.Crash?
    requires w.At(act.who).Holding(id)
    ensures Budget(Apply(w, act), id) <= Budget(w, id)
  {
    var w' := Apply(w, act);
    OthersStay(w, act);
    assert Owns(w, w.At(act.who));
    BudgetHeld(w, act.who, id);
    OneHolder(w, act.who, id);
    if w'.At(act.who).Holds() { BudgetHeld(w', act.who, id); } else { BudgetOrphan(w', id); }
  }

  /** The remaining steps log no refusal, and can only let a claim go. */
  lemma QuietStep(w: World, act: Action, id: Id)
    requires Inv(w)
    requires act.Create? || act.Load? || act.Prepare? || act.Transmit? || act.Publish? || act.Crash?
    ensures Potential(Apply(w, act), id) <= Potential(w, id)
  {
    var w' := Apply(w, act);
    StepKeeps(w, act);
    QuietLog(w, act, id);
    OthersStay(w, act);
    if !act.Create? && w.At(act.who).Holding(id) {
      QuietHolder(w, act, id);
    } else if act.Create? && id !in w.rows {
      if id in w'.rows { BudgetFree(w', id); }
    } else {
      BudgetElsewhere(w, w', id);
    }
  }

  lemma StepSpends(w: World, act: Action, id: Id)
    requires Inv(w) && !Disturbs(act, id)
    ensures Potential(Apply(w, act), id) <= Potential(w, id)
  {
    match act
    case Env(i, op) => EnvSpends(w, i, op, id);
    case Claim(a, i, revision, path, lease, now) => ClaimSpends(w, a, i, revision, path, lease, now, id);
    case Gate(a, ctx, declared, verdict) => GateSpends(w, a, ctx, declared, verdict, id);
    case Settle(a, dbOk) => SettleSpends(w, a, dbOk, id);
    case _ => QuietStep(w, act, id);
  }

  ghost predicate Undisturbed(acts: seq<Action>, id: Id) {
    forall act :: act in acts ==> !Disturbs(act, id)
  }

  lemma {:induction false} RunSpends(w: World, acts: seq<Action>, id: Id)
    requires Inv(w) && Undisturbed(acts, id)
    ensures Inv(Run(w, acts)) && Potential(Run(w, acts), id) <= Potential(w, id)
  {
    if acts != [] {
      var n := |acts| - 1;
      RunSpends(w, acts[..n], id);
      assert acts[n] in acts;
      StepKeeps(Run(w, acts[..n]), acts[n]);
      StepSpends(Run(w, acts[..n]), acts[n], id);
    }
  }

  /**
   At a fixed revision, declaration and schedule, a draft with k recorded attempts
   fails attribution at most max(1, 3 - k) more times, one of human origin at most
   once, and an unscheduled one never, whatever all senders, holds, approvals,
   discards, failed statements and crashes do.
   */
  lemma LoopEnds(w: World, pre: seq<Action>, acts: seq<Action>, id: Id)
    requires Initial(w) && Undisturbed(acts, id)
    requires var v := Run(w, pre); id in v.rows && !v.rows[id].status.Sending?
    ensures var v := Run(w, pre);
            Refusals(Run(v, acts).log, id) <= Refusals(v.log, id) + RowBudget(v.rows[id])
  {
    InitialInv(w);
    RunKeeps(w, pre);
    BudgetFree(Run(w, pre), id);
    RunSpends(Run(w, pre), acts, id);
  }

  lemma {:induction false} RowsStay(w: World, acts: seq<Action>, id: Id)
    requires id in w.rows
    ensures id in Run(w, acts).rows
  {
    if acts != [] { RowsStay(w, acts[..|acts| - 1], id); }
  }

  /**
   However an undisturbed run met its bound, the draft is then off the schedule or
   its row is still claimed, so no sweep takes it up again.
   */
  lemma SpentIsUnscheduled(w: World, pre: seq<Action>, acts: seq<Action>, id: Id)
    requires Initial(w) && Undisturbed(acts, id)
    requires var v := Run(w, pre);
             && id in v.rows && !v.rows[id].status.Sending?
             && Refusals(Run(v, acts).log, id) == Refusals(v.log, id) + RowBudget(v.rows[id])
    ensures var v' := Run(Run(w, pre), acts);
            id in v'.rows && (v'.rows[id].status.Sending? || v'.rows[id].sendAfter.None?)
  {
    var v := Run(w, pre);
    InitialInv(w);
    RunKeeps(w, pre);
    BudgetFree(v, id);
    RunSpends(v, acts, id);
    RowsStay(v, acts, id);
    var v' := Run(v, acts);
    if !v'.rows[id].status.Sending? { BudgetFree(v', id); }
  }

  lemma UnscheduledStep(w: World, act: Action, id: Id)
    requires !Disturbs(act, id) && id in w.rows && w.rows[id].sendAfter.None?
    ensures id in Apply(w, act).rows && Apply(w, act).rows[id].sendAfter.None?
  {
    forall op: Op | !Reopens(op) ensures Step(w.rows[id], op).sendAfter.None? { }
  }

  /** A parked row stays off the schedule until someone reopens it. */
  lemma {:induction false} ParkedStaysUnscheduled(w: World, acts: seq<Action>, id: Id)
    requires Undisturbed(acts, id) && id in w.rows && w.rows[id].sendAfter.None?
    ensures id in Run(w, acts).rows && Run(w, acts).rows[id].sendAfter.None?
  {
    if acts != [] {
      var n := |acts| - 1;
      ParkedStaysUnscheduled(w, acts[..n], id);
      assert acts[n] in acts;
      UnscheduledStep(Run(w, acts[..n]), acts[n], id);
    }
  }

  // ---------------------------------------------------------------- the bound is reached

  /** One sweep of one draft that resolves as unattributed. */
  function Round(a: Sender, id: Id, revision: int, lease: Token, now: int, ctx: SendContext): seq<Action> {
    [ Claim(a, id, revision, Scheduled, lease, now), Load(a, true, NOT_FETCHED), Gate(a, ctx, [], Allow),
      Settle(a, true), Publish(a) ]
  }

  function Rounds(a: Sender, id: Id, revision: int, lease: Token, now: int, ctx: SendContext, n: nat): seq<Action>
    decreases n
  {
    if n == 0 then []
    else Round(a, id, revision, lease, now, ctx) + Rounds(a, id, revision, lease + 1, now, ctx, n - 1)
  }

  /** The gate refuses this snapshot for want of attribution. */
  ghost predicate Unresolved(snap: Row, ctx: SendContext) {
    && !snap.HumanSendAuthorized()
    && var (declared, require) :=
         ScheduledInputs(snap.createdBy, snap.HumanApproved(), snap.declaration, snap.revision);
       StateOf(Tokens(declared), ctx.(humanApproved := snap.HumanApproved()), require) != Attributed
  }

  function DeclaredOf(snap: Row): seq<string> {
    ScheduledInputs(snap.createdBy, snap.HumanApproved(), snap.declaration, snap.revision).0
  }

  /** A due row, of a bot or of unknown origin, that the gate refuses. */
  ghost predicate Doomed(row: Row, now: int, ctx: SendContext) {
    row.Due(now) && Unresolved(row, ctx) && !OriginOf(row.createdBy, row.declaration, row.revision).Human?
  }

  lemma DoomedIsRefused(path: Path, snap: Row, ctx: SendContext, given: seq<string>, verdict: Verdict)
    requires path.Scheduled? && Unresolved(snap, ctx)
    ensures Decide(path, snap, ctx, given, verdict) == Refuse(AttributionExit(snap, DeclaredOf(snap)))
  {
  }

  /** What one failed attempt leaves of the row. */
  function AfterFailure(row: Row, lease: Token): Row
    requires row.status.Sending? && row.token == Some(lease)
  {
    Step(row, AttributionExit(row, DeclaredOf(row)).Statement(lease))
  }

  /** The statement of a refusal runs, and the sender stands ready to report it. */
  ghost predicate LeftBehind(w: World, w': World, a: Sender, p: Phase, row: Row)
    requires p.Holds()
  {
    && w'.rows == w.rows[p.id := row]
    && w'.minted == w.minted
    && w'.At(a).Reporting?
    && Refusals(w'.log, p.id) == Refusals(w.log, p.id) + 1
  }

  lemma SettleRefused(w: World, a: Sender)
    requires var p := w.At(a);
             && p.Leaving? && p.path.Scheduled? && p.id in w.rows
             && (p.exit.RetryAttribution? || p.exit.ExhaustAttribution? || p.exit.HumanReapproval?)
             && w.rows[p.id].status.Sending? && w.rows[p.id].token == Some(p.lease)
    ensures var (p, w') := (w.At(a), Apply(w, Settle(a, true)));
            && w'.rows == w.rows[p.id := Step(w.rows[p.id], p.exit.Statement(p.lease))]
            && w'.minted == w.minted
            && w'.At(a).Reporting?
            && Refusals(w'.log, p.id) == Refusals(w.log, p.id)
  {
    var (p, w') := (w.At(a), Apply(w, Settle(a, true)));
    RefusalsSnoc(w.log, w'.log[|w.log|], p.id);
  }

  lemma RefuseAndSettle(w: World, a: Sender, exit: Exit)
    requires var p := w.At(a);
             && p.Loaded? && p.path.Scheduled? && p.id in w.rows && w.rows[p.id] == p.snap
             && p.snap.status.Sending? && p.snap.token == Some(p.lease)
    requires exit.RetryAttribution? || exit.ExhaustAttribution? || exit.HumanReapproval?
    ensures var p := w.At(a);
            LeftBehind(w, Apply(ApplyGate(w, a, p, Refuse(exit)), Settle(a, true)), a, p,
                       Step(p.snap, exit.Statement(p.lease)))
  {
    var p := w.At(a);
    RefusalsSnoc(w.log, Refused(p.id, p.lease, exit), p.id);
    SettleRefused(ApplyGate(w, a, p, Refuse(exit)), a);
  }

  lemma GateAndSettle(w: World, a: Sender, ctx: SendContext)
    requires var p := w.At(a);
             && p.Loaded? && p.path.Scheduled? && p.id in w.rows && w.rows[p.id] == p.snap
             && p.snap.status.Sending? && p.snap.token == Some(p.lease) && Unresolved(p.snap, ctx)
    ensures var p := w.At(a);
            LeftBehind(w, Apply(Apply(w, Gate(a, ctx, [], Allow)), Settle(a, true)), a, p, AfterFailure(p.snap, p.lease))
  {
    GateApplies(w, a, ctx, [], Allow);
    DoomedIsRefused(w.At(a).path, w.At(a).snap, ctx, [], Allow);
    RefuseAndSettle(w, a, AttributionExit(w.At(a).snap, DeclaredOf(w.At(a).snap)));
  }

  lemma FailureIsRecorded(row: Row, lease: Token)
    requires row.status.Sending? && row.token == Some(lease)
    requires !OriginOf(row.createdBy, row.declaration, row.revision).Human?
    ensures var k := RecordedAttempts(row.declaration, row.revision);
            var next := AfterFailure(row, lease);
            && next.revision == row.revision
            && if k + 1 < MAX_ATTRIBUTION_ATTEMPTS
               then next == row.(status := Draft, token := None, declaration := Some(
                 PersistedDeclaration(PROTOCOL, BotDeclared, DeclaredOf(row), row.revision, k + 1, false)))
               else next.status.PendingReview? && next.sendAfter.None?
  {
  }

  /** A recorded failure leaves the same keys to resolve, so the next attempt fails as well. */
  lemma StillDoomed(row: Row, now: int, ctx: SendContext, attempts: nat)
    requires Doomed(row, now, ctx)
    ensures Doomed(row.(token := None, declaration := Some(
      PersistedDeclaration(PROTOCOL, BotDeclared, DeclaredOf(row), row.revision, attempts, false))), now, ctx)
  {
  }

  lemma FailureIsCounted(row: Row, lease: Token, now: int, ctx: SendContext)
    requires Doomed(row, now, ctx)
    ensures var k := RecordedAttempts(row.declaration, row.revision);
            var next := AfterFailure(row.(status := Sending, token := Some(lease)), lease);
            && next.revision == row.revision
            && if k + 1 < MAX_ATTRIBUTION_ATTEMPTS
               then Doomed(next, now, ctx) && RecordedAttempts(next.declaration, row.revision) == k + 1
               else next.status.PendingReview? && next.sendAfter.None?
  {
    FailureIsRecorded(row.(status := Sending, token := Some(lease)), lease);
    StillDoomed(row, now, ctx, RecordedAttempts(row.declaration, row.revision) + 1);
  }

  lemma ClaimAndLoad(w: World, a: Sender, id: Id, lease: Token, now: int)
    requires w.At(a).Idle? && id in w.rows && lease !in w.minted && w.rows[id].Due(now)
    ensures var row := w.rows[id];
            var u := Apply(Apply(w, Claim(a, id, row.revision, Scheduled, lease, now)), Load(a, true, NOT_FETCHED));
            var held := row.(status := Sending, token := Some(lease));
            && u.rows == w.rows[id := held] && u.minted == w.minted + {lease} && u.log == w.log
            && u.At(a) == Loaded(id, lease, Scheduled, row.revision, held, row.content)
  {
  }

  lemma RoundFails(w: World, a: Sender, id: Id, lease: Token, now: int, ctx: SendContext)
    requires w.At(a).Idle? && id in w.rows && lease !in w.minted && Doomed(w.rows[id], now, ctx)
    ensures var row := w.rows[id];
            var k := RecordedAttempts(row.declaration, row.revision);
            var w' := Run(w, Round(a, id, row.revision, lease, now, ctx));
            && w'.At(a).Idle? && w'.minted == w.minted + {lease}
            && Refusals(w'.log, id) == Refusals(w.log, id) + 1
            && id in w'.rows && w'.rows[id].revision == row.revision
            && if k + 1 < MAX_ATTRIBUTION_ATTEMPTS
               then Doomed(w'.rows[id], now, ctx) && RecordedAttempts(w'.rows[id].declaration, row.revision) == k + 1
               else w'.rows[id].status.PendingReview? && w'.rows[id].sendAfter.None?
  {
    var row := w.rows[id];
    RunFive(w, Claim(a, id, row.revision, Scheduled, lease, now), Load(a, true, NOT_FETCHED), Gate(a, ctx, [], Allow),
            Settle(a, true), Publish(a));
    FailureIsCounted(row, lease, now, ctx);
    var u := Apply(Apply(w, Claim(a, id, row.revision, Scheduled, lease, now)), Load(a, true, NOT_FETCHED));
    ClaimAndLoad(w, a, id, lease, now);
    GateAndSettle(u, a, ctx);
    PublishEnds(Apply(Apply(u, Gate(a, ctx, [], Allow)), Settle(a, true)), a, id);
  }

  lemma RoundsUnroll(
    w: World, a: Sender, id: Id, revision: int, lease: Token, now: int, ctx: SendContext, n: nat)
    requires n > 0
    ensures var w' := Run(w, Round(a, id, revision, lease, now, ctx));
            && Run(w, Rounds(a, id, revision, lease, now, ctx, n)) ==
               Run(w', Rounds(a, id, revision, lease + 1, now, ctx, n - 1))
            && (n == 1 ==> Run(w, Rounds(a, id, revision, lease, now, ctx, n)) == w')
  {
    RunAppend(w, Round(a, id, revision, lease, now, ctx), Rounds(a, id, revision, lease + 1, now, ctx, n - 1));
  }

  /** After `n` more refusals the row waits for review, off the schedule. */
  ghost predicate Parked(w: World, w': World, id: Id, n: nat) {
    && Refusals(w'.log, id) == Refusals(w.log, id) + n
    && id in w'.rows && w'.rows[id].status.PendingReview? && w'.rows[id].sendAfter.None?
  }

  /** An idle sweeper, a fresh lease, and a doomed row that may still fail `n` times. */
  ghost predicate Ready(w: World, a: Sender, id: Id, revision: int, lease: Token, now: int, ctx: SendContext, n: nat) {
    && w.At(a).Idle? && (forall l :: l in w.minted ==> l < lease)
    && id in w.rows && w.rows[id].revision == revision && Doomed(w.rows[id], now, ctx)
    && n == Left(RecordedAttempts(w.rows[id].declaration, revision))
  }

  lemma RoundLeaves(w: World, a: Sender, id: Id, revision: int, lease: Token, now: int, ctx: SendContext, n: nat)
    requires Ready(w, a, id, revision, lease, now, ctx, n)
    ensures var w' := Run(w, Round(a, id, revision, lease, now, ctx));
            && n > 0 && Refusals(w'.log, id) == Refusals(w.log, id) + 1
            && if n == 1 then Parked(w, w', id, 1) else Ready(w', a, id, revision, lease + 1, now, ctx, n - 1)
  {
    RoundFails(w, a, id, lease, now, ctx);
  }

  /** An uncorrected bot draft does fail max(1, 3 - k) times, and is then parked off the schedule. */
  lemma {:induction false} LoopReachesItsBound(
    w: World, a: Sender, id: Id, revision: int, lease: Token, now: int, ctx: SendContext, n: nat)
    requires Ready(w, a, id, revision, lease, now, ctx, n)
    ensures Parked(w, Run(w, Rounds(a, id, revision, lease, now, ctx, n)), id, n)
    decreases n
  {
    var w' := Run(w, Round(a, id, revision, lease, now, ctx));
    RoundLeaves(w, a, id, revision, lease, now, ctx, n);
    RoundsUnroll(w, a, id, revision, lease, now, ctx, n);
    if n > 1 { LoopReachesItsBound(w', a, id, revision, lease + 1, now, ctx, n - 1); }
  }

  // ---------------------------------------------------------------- human drafts

  lemma HumanFailure(row: Row, lease: Token)
    requires row.status.Sending? && row.token == Some(lease)
    requires OriginOf(row.createdBy, row.declaration, row.revision).Human?
    ensures AfterFailure(row, lease) == row.(status := PendingReview, token := None, sendAfter := None, sendBlock := true)
  {
  }

  /** The row is of human origin and as it was declared, and nobody is about to rewrite that. */
  ghost predicate StillHuman(w: World, id: Id, was: Row) {
    && id in w.rows
    && w.rows[id].createdBy == was.createdBy && w.rows[id].declaration == was.declaration
    && w.rows[id].revision == was.revision && w.rows[id].content == was.content
    && OriginOf(was.createdBy, was.declaration, was.revision).Human?
    && forall a :: w.At(a).Holding(id) && w.At(a).Leaving? ==>
         !w.At(a).exit.RetryAttribution? && !w.At(a).exit.ExhaustAttribution?
  }

  /** Statements that leave authorship, declaration, revision and content alone. */
  predicate KeepsOrigin(row: Row, op: Op) {
    var next := Step(row, op);
    && next.createdBy == row.createdBy && next.declaration == row.declaration
    && next.revision == row.revision && next.content == row.content
  }

  lemma OnlySomeRewrite(row: Row, op: Op)
    requires !Reopens(op) && !op.DeferRetry? && !op.ParkExhausted?
    ensures KeepsOrigin(row, op)
  {
  }

  lemma HumanExit(path: Path, snap: Row, ctx: SendContext, given: seq<string>, verdict: Verdict)
    requires OriginOf(snap.createdBy, snap.declaration, snap.revision).Human?
    ensures var d := Decide(path, snap, ctx, given, verdict);
            d.Refuse? ==> !d.exit.RetryAttribution? && !d.exit.ExhaustAttribution?
  {
  }

  /** The row is the same or rewritten by a statement that keeps its origin, and no rewriting exit is taken up. */
  lemma HumanKeeps(w: World, w': World, id: Id, was: Row)
    requires StillHuman(w, id, was) && id in w'.rows
    requires w'.rows[id] == w.rows[id] || exists op :: KeepsOrigin(w.rows[id], op) && w'.rows[id] == Step(w.rows[id], op)
    requires forall a :: w'.At(a).Holding(id) && w'.At(a).Leaving? && w'.At(a) != w.At(a) ==>
      !w'.At(a).exit.RetryAttribution? && !w'.At(a).exit.ExhaustAttribution?
    ensures StillHuman(w', id, was)
  {
  }

  lemma HumanGate(w: World, a: Sender, ctx: SendContext, given: seq<string>, verdict: Verdict, id: Id, was: Row)
    requires Inv(w) && StillHuman(w, id, was)
    ensures StillHuman(Apply(w, Gate(a, ctx, given, verdict)), id, was)
  {
    var p, w' := w.At(a), Apply(w, Gate(a, ctx, given, verdict));
    OthersStay(w, Gate(a, ctx, given, verdict));
    if p.Loaded? {
      assert Owns(w, p);
      GateApplies(w, a, ctx, given, verdict);
      if p.id == id { HumanExit(p.path, p.snap, ctx, given, verdict); }
    }
    HumanKeeps(w, w', id, was);
  }

  lemma HumanSettle(w: World, a: Sender, dbOk: bool, id: Id, was: Row)
    requires Inv(w) && StillHuman(w, id, was)
    ensures StillHuman(ApplySettle(w, a, dbOk), id, was)
  {
    var p, w' := w.At(a), ApplySettle(w, a, dbOk);
    assert forall b :: b != a ==> w'.At(b) == w.At(b);
    if p.Leaving? && p.id == id {
      OnlySomeRewrite(w.rows[id], p.exit.Statement(p.lease));
      assert w'.rows[id] == w.rows[id] || w'.rows[id] == Step(w.rows[id], p.exit.Statement(p.lease));
    }
    HumanKeeps(w, w', id, was);
  }

  lemma HumanStep(w: World, act: Action, id: Id, was: Row)
    requires Inv(w) && StillHuman(w, id, was) && !Disturbs(act, id)
    ensures StillHuman(Apply(w, act), id, was)
  {
    match act
    case Env(i, op) =>
      if i == id && !op.NeedsSendLease() { OnlySomeRewrite(w.rows[id], op); }
      HumanKeeps(w, Apply(w, act), id, was);
    case Gate(a, ctx, declared, verdict) => HumanGate(w, a, ctx, declared, verdict, id, was);
    case Settle(a, dbOk) => HumanSettle(w, a, dbOk, id, was);
    case Claim(a, i, revision, path, lease, now) =>
      OthersStay(w, act);
      if i == id {
        OnlySomeRewrite(w.rows[id], ClaimDue(revision, lease, now));
        OnlySomeRewrite(w.rows[id], ClaimNow(revision, lease));
      }
      HumanKeeps(w, Apply(w, act), id, was);
    case _ =>
      OthersStay(w, act);
      HumanKeeps(w, Apply(w, act), id, was);
  }

  lemma {:induction false} HumanRun(w: World, acts: seq<Action>, id: Id, was: Row)
    requires Inv(w) && StillHuman(w, id, was) && Undisturbed(acts, id)
    ensures StillHuman(Run(w, acts), id, was)
  {
    if acts != [] {
      var n := |acts| - 1;
      HumanRun(w, acts[..n], id, was);
      RunKeeps(w, acts[..n]);
      assert acts[n] in acts;
      HumanStep(Run(w, acts[..n]), acts[n], id, was);
    }
  }

  /**
   Over every undisturbed run a draft of human origin fails attribution at most
   once, and is never rewritten: its author, declaration, revision and content
   stay, so it never becomes a bot draft.
   */
  lemma HumanDraftLeavesOnce(w: World, pre: seq<Action>, acts: seq<Action>, id: Id)
    requires Initial(w) && Undisturbed(acts, id)
    requires var v := Run(w, pre); id in v.rows && !v.rows[id].status.Sending?
    requires var row := Run(w, pre).rows[id]; OriginOf(row.createdBy, row.declaration, row.revision).Human?
    ensures var v := Run(w, pre);
            && Refusals(Run(v, acts).log, id) <= Refusals(v.log, id) + 1
            && StillHuman(Run(v, acts), id, v.rows[id])
  {
    InitialInv(w);
    RunKeeps(w, pre);
    LoopEnds(w, pre, acts, id);
    BudgetFree(Run(w, pre), id);
    HumanRun(Run(w, pre), acts, id, Run(w, pre).rows[id]);
  }

  /** A draft written by a human leaves on its first failure, parked, its declaration untouched. */
  lemma HumanDraftIsParkedUnchanged(w: World, acts: seq<Action>, a: Sender, ctx: SendContext)
    requires Initial(w)
    requires var p := Run(w, acts).At(a);
             && p.Loaded? && p.path.Scheduled? && Unresolved(p.snap, ctx)
             && OriginOf(p.snap.createdBy, p.snap.declaration, p.snap.revision).Human?
    ensures var v := Run(w, acts);
            var p := v.At(a);
            LeftBehind(v, Apply(Apply(v, Gate(a, ctx, [], Allow)), Settle(a, true)), a, p,
                       p.snap.(status := PendingReview, token := None, sendAfter := None, sendBlock := true))
  {
    InitialInv(w);
    RunKeeps(w, acts);
    assert Owns(Run(w, acts), Run(w, acts).At(a));
    HumanFailure(Run(w, acts).At(a).snap, Run(w, acts).At(a).lease);
    GateAndSettle(Run(w, acts), a, ctx);
  }
}
