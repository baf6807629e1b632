/**
 The scheduled sweep as it is written: one sender's loop over the due drafts, with
 everybody else running between its database calls. Every step it takes is a step
 of the protocol in SendSweep, so each guarantee proved there holds of it.
 */
module Sweeper {
  import opened Prelude
  import opened Attribution
  import opened AttributionPersist
  import opened DraftStore
  import opened SendSweep
  import opened SendGuarantees

  // ---------------------------------------------------------------- claims over a trace

  /** The claims sender `me` asked for in a trace. */
  function Drawn(acts: seq<Action>, me: Sender): set<(Id, Token)> {
    if acts == [] then {}
    else
      var act := acts[|acts| - 1];
      Drawn(acts[..|acts| - 1], me) + if act.Claim? && act.who == me then {(act.id, act.lease)} else {}
  }

  /** A statement of sender `me` that would have ended a claim failed. */
  predicate Stumbled(acts: seq<Action>, me: Sender) {
    acts != [] &&
    (acts[|acts| - 1] == Settle(me, false) || Stumbled(acts[..|acts| - 1], me))
  }

  lemma TraceSnoc(acts: seq<Action>, act: Action, me: Sender)
    ensures Drawn(acts + [act], me) == Drawn(acts, me) + if act.Claim? && act.who == me then {(act.id, act.lease)} else {}
    ensures Stumbled(acts + [act], me) <==> act == Settle(me, false) || Stumbled(acts, me)
  {
  }

  /** None of these claims still sits on its row. */
  ghost predicate Tidy(w: World, drawn: set<(Id, Token)>) {
    forall x :: x in drawn ==> x.1 in w.minted && (x.0 in w.rows ==> w.rows[x.0].token != Some(x.1))
  }

  lemma TidyLess(w: World, drawn: set<(Id, Token)>, fewer: set<(Id, Token)>)
    requires Tidy(w, drawn) && fewer <= drawn
    ensures Tidy(w, fewer)
  {
  }

  predicate Draws(op: Op, lease: Token) {
    (op.Claims() || op.ClaimForSync?) && op.lease == lease
  }

  lemma StatementKeepsOff(row: Row, op: Op, lease: Token)
    requires row.token != Some(lease) && !Draws(op, lease)
    ensures Step(row, op).token != Some(lease)
  {
  }

  lemma LeaseStaysOff(w: World, act: Action, id: Id, lease: Token)
    requires lease in w.minted && (id in w.rows ==> w.rows[id].token != Some(lease))
    ensures var w' := Apply(w, act); lease in w'.minted && (id in w'.rows ==> w'.rows[id].token != Some(lease))
  {
    if act.Env? && id in w.rows && !Draws(act.op, lease) { StatementKeepsOff(w.rows[id], act.op, lease); }
    if act.Settle? && id in w.rows && w.At(act.who).Leaving? {
      StatementKeepsOff(w.rows[id], w.At(act.who).exit.Statement(w.At(act.who).lease), lease);
    }
  }

  /** A lease once off its row never comes back, because leases are drawn fresh. */
  lemma TidyStep(w: World, act: Action, drawn: set<(Id, Token)>)
    requires Tidy(w, drawn)
    ensures Tidy(Apply(w, act), drawn)
  {
    var w' := Apply(w, act);
    forall x | x in drawn ensures x.1 in w'.minted && (x.0 in w'.rows ==> w'.rows[x.0].token != Some(x.1)) {
      assert x.1 in w.minted;
      LeaseStaysOff(w, act, x.0, x.1);
    }
  }

  /** The row this sender holds, if it holds one, is the same in both worlds. */
  ghost predicate KeepsRow(w: World, w': World, me: Sender) {
    var p := w.At(me);
    p.Holds() ==> p.id in w.rows && p.id in w'.rows && w'.rows[p.id] == w.rows[p.id]
  }

  /** Others' actions leave a claim of mine, and my own place in the code, alone. */
  lemma OthersLeaveMe(w: World, act: Action, me: Sender)
    requires Inv(w) && !act.By(me)
    ensures var w' := Apply(w, act);
            && Inv(w') && w'.At(me) == w.At(me) && KeepsRow(w, w', me)
  {
    StepKeeps(w, act);
    OthersStay(w, act);
    if w.At(me).Holds() { OthersLeaveItAlone(w, me, act); }
  }

  // ---------------------------------------------------------------- the steps a sweep takes

  /** Every lease on a row was drawn at some time. */
  ghost predicate Known(w: World) {
    forall id :: id in w.rows && w.rows[id].token.Some? ==> w.rows[id].token.value in w.minted
  }

  predicate Came(row: Row, op: Op) {
    Step(row, op).token == row.token || Step(row, op).token.None? ||
    ((op.Claims() || op.ClaimForSync?) && Step(row, op).token == Some(op.lease))
  }

  /** A statement leaves the lease, clears it, or puts its own on the row. */
  lemma TokenComes(row: Row, op: Op)
    ensures Came(row, op)
  {
  }

  lemma KnownRow(w: World, act: Action, id: Id)
    requires id in w.rows && w.rows[id].token.Some? ==> w.rows[id].token.value in w.minted
    ensures var w' := Apply(w, act); id in w'.rows && w'.rows[id].token.Some? ==> w'.rows[id].token.value in w'.minted
  {
    if act.Env? && id in w.rows { TokenComes(w.rows[id], act.op); }
  }

  lemma KnownStep(w: World, act: Action)
    requires Known(w)
    ensures Known(Apply(w, act))
  {
    var w' := Apply(w, act);
    forall id | id in w'.rows && w'.rows[id].token.Some? ensures w'.rows[id].token.value in w'.minted {
      KnownRow(w, act, id);
    }
  }

  predicate DueAt(rows: map<Id, Row>, id: Id, revision: int, now: int) {
    id in rows && rows[id].Due(now) && rows[id].revision == revision
  }

  /** What the outside world answers while one draft has its turn. */
  datatype Answers = Answers(
    claim: bool, load: bool, credentials: bool, attachments: bool,
    facts: SendContext, verdict: Verdict, accepted: bool,
    settle: bool,                     // the statement that ends the claim runs
    park: bool)                       // the fallback park runs
  {
    predicate Ready() { load && credentials && attachments }

    /** Undecodable attachments block the draft; anything else lets a later sweep retry. */
    function Fallback(): Status { if load && credentials then Blocked else Draft }
  }

  /** How a gated snapshot leaves its claim, before the recording is tried. */
  ghost function SnapExit(snap: Row, ans: Answers): Exit {
    match Decide(Scheduled, snap, ans.facts, [], ans.verdict)
    case Refuse(exit) => exit
    case Proceed(_) => if ans.accepted then Record else Inconclusive
  }

  function SentExit(settle: bool): Exit {
    if settle then Record else Exit.Unrecorded
  }

  /** How a claimed row leaves its claim in the end. */
  ghost function FinalExit(row: Row, ans: Answers): Exit {
    if !ans.Ready() then GiveUp(ans.Fallback())
    else
      var exit := SnapExit(row, ans);
      if exit.Record? then SentExit(ans.settle) else exit
  }

  /** Whether the statement of that exit runs. */
  ghost predicate StatementRuns(row: Row, ans: Answers) {
    ans.settle || (ans.Ready() && SnapExit(row, ans).Record? && ans.park)
  }

  /** The claimed row ran its course: its statement moved it, and its outcome was published. */
  ghost predicate Ran(log: seq<Event>, id: Id, row: Row, ans: Answers) {
    && row.status.Sending? && row.token.Some?
    && var (lease, exit, ok) := (row.token.value, FinalExit(row, ans), StatementRuns(row, ans));
       && (ok ==> Moved(id, lease, Step(row, exit.Statement(lease)).status) in log)
       && (exit.Outcome(ok).Some? ==> Published(id, lease, exit.Outcome(ok).value) in log)
  }

  /** One entry of a sweep: the scanned draft and, if it was claimed, the claimed row. */
  ghost predicate Course(entry: ((Id, int), Option<Row>), answers: map<Id, Answers>, log: seq<Event>) {
    && entry.0.0 in answers
    && (entry.1.Some? ==>
          && answers[entry.0.0].claim && entry.1.value.revision == entry.0.1
          && Ran(log, entry.0.0, entry.1.value, answers[entry.0.0]))
  }

  lemma CoursesLast(done: seq<((Id, int), Option<Row>)>, answers: map<Id, Answers>, log: seq<Event>, later: seq<Event>)
    requires log <= later && forall j :: 0 <= j < |done| ==> Course(done[j], answers, log)
    ensures forall j :: 0 <= j < |done| ==> Course(done[j], answers, later)
  {
  }

  lemma LogGrows(w: World, act: Action)
    ensures w.log <= Apply(w, act).log
  {
  }

  lemma PublishEffect(w: World, me: Sender)
    requires w.At(me).Reporting?
    ensures Apply(w, Publish(me)).At(me).Idle?
  {
  }

  lemma PrepareEffect(w: World, me: Sender, to: Status)
    requires w.At(me).Loaded? && w.At(me).path.Scheduled? && (to.Draft? || to.Blocked?)
    ensures var p := w.At(me);
            Apply(w, Prepare(me, to)).At(me) == Leaving(p.id, p.lease, p.path, p.revision, GiveUp(to))
  {
  }

  lemma LoadEffect(w: World, me: Sender, ok: bool, copy: string)
    requires Inv(w) && w.At(me).Claimed? && w.At(me).path.Scheduled?
    ensures var (p, w') := (w.At(me), Apply(w, Load(me, ok, copy)));
            && w'.rows == w.rows && w'.log == w.log && p.id in w.rows
            && w'.At(me) == if ok then Loaded(p.id, p.lease, p.path, p.revision, w.rows[p.id], w.rows[p.id].content)
                            else Leaving(p.id, p.lease, p.path, p.revision, GiveUp(Draft))
  {
  }

  function AfterGate(p: Phase, d: Decision): Phase
    requires p.Loaded?
  {
    match d
    case Proceed(basis) => Cleared(p.id, p.lease, p.path, p.revision, p.snap, p.content, basis)
    case Refuse(exit) => Leaving(p.id, p.lease, p.path, p.revision, exit)
  }

  /** The gate's decision on the snapshot is where its sender stands; a refusal has handed nothing to SMTP. */
  ghost predicate Gated(p: Phase, q: Phase, ctx: SendContext, given: seq<string>, verdict: Verdict)
    requires p.Loaded?
  {
    && q == AfterGate(p, Decide(p.path, p.snap, ctx, given, verdict))
    && (q.Leaving? ==> !q.exit.AfterSmtp())
  }

  lemma GateEffect(w: World, me: Sender, ctx: SendContext, given: seq<string>, verdict: Verdict)
    requires Inv(w) && w.At(me).Loaded?
    ensures var (p, w') := (w.At(me), Apply(w, Gate(me, ctx, given, verdict)));
            && p.id in w.rows && w.rows[p.id] == p.snap && w'.rows == w.rows && w.log <= w'.log
            && Gated(p, w'.At(me), ctx, given, verdict)
  {
    assert Owns(w, w.At(me));
    GateApplies(w, me, ctx, given, verdict);
    RefusalIsBeforeSmtp(w.At(me).path, w.At(me).snap, ctx, given, verdict);
  }

  lemma TransmitEffect(w: World, me: Sender, accepted: bool)
    requires w.At(me).Cleared? && w.At(me).path.Scheduled?
    ensures var (p, q) := (w.At(me), Apply(w, Transmit(me, accepted)).At(me));
            && q == Leaving(p.id, p.lease, p.path, p.revision, if accepted then Record else Inconclusive)
            && Apply(w, Transmit(me, accepted)).rows == w.rows
  {
  }

  lemma ClaimEffect(w: World, me: Sender, id: Id, revision: int, lease: Token, now: int)
    requires w.At(me).Idle? && lease !in w.minted
    ensures var w' := Apply(w, Claim(me, id, revision, Scheduled, lease, now));
            && w'.minted == w.minted + {lease}
            && if DueAt(w.rows, id, revision, now)
               then w'.At(me) == Claimed(id, lease, Scheduled, revision) &&
                    w'.rows == w.rows[id := w.rows[id].(status := Sending, token := Some(lease))]
               else w'.rows == w.rows && w'.At(me) == Idle
  {
  }

  lemma LostClaim(before: World, w: World, drawn: set<(Id, Token)>, open: set<(Id, Token)>, x: (Id, Token))
    requires Known(before) && x.1 !in before.minted && x.1 in w.minted && w.rows == before.rows
    requires Tidy(w, drawn - (open + {x}))
    ensures Tidy(w, drawn - open)
  {
  }

  lemma LostLease(w: World, drawn: set<(Id, Token)>, open: set<(Id, Token)>, x: (Id, Token))
    requires x.1 in w.minted && (x.0 in w.rows ==> w.rows[x.0].token != Some(x.1))
    requires Tidy(w, drawn - open)
    ensures Tidy(w, drawn - (open - {x}))
  {
  }

  function Prepared(w: World, me: Sender, ans: Answers): Phase
    requires w.At(me).Claimed? && w.At(me).id in w.rows
  {
    var p := w.At(me);
    if ans.Ready() then Loaded(p.id, p.lease, p.path, p.revision, w.rows[p.id], w.rows[p.id].content)
    else Leaving(p.id, p.lease, p.path, p.revision, GiveUp(ans.Fallback()))
  }

  datatype SentPersistence = Recorded | Unrecorded(parked: bool)

  /** The table once SMTP has accepted the message of row `id`. */
  function SentRows(rows: map<Id, Row>, id: Id, persistence: SentPersistence): map<Id, Row>
    requires id in rows
  {
    match persistence
    case Recorded => rows[id := rows[id].(status := Sent, token := None, sendAfter := None)]
    case Unrecorded(parked) =>
      if parked then rows[id := rows[id].(status := DeliveryUncertain, token := None, sendAfter := None)] else rows
  }

  function AfterSettle(p: Phase, moved: bool): Phase
    requires p.Leaving?
  {
    if p.exit.Record? && !moved then p.(exit := Exit.Unrecorded)
    else match p.exit.Outcome(moved)
         case Some(outcome) => Reporting(p.id, p.lease, outcome)
         case None => Idle
  }

  lemma OwnedRow(w: World, me: Sender)
    requires Inv(w) && w.At(me).Holds()
    ensures var p := w.At(me);
            && p.id in w.rows && w.rows[p.id].status.Sending? && w.rows[p.id].token == Some(p.lease) && p.lease in w.minted
  {
  }

  /** The statement of exit `p` took effect on its row, or on nothing. */
  ghost predicate Moves(w: World, w': World, p: Phase, moved: bool)
    requires p.Leaving?
  {
    && p.id in w.rows && p.lease in w'.minted
    && var row := Step(w.rows[p.id], p.exit.Statement(p.lease));
       && w'.rows == (if moved then w.rows[p.id := row] else w.rows)
       && (moved ==> row.token.None? && Moved(p.id, p.lease, row.status) in w'.log)
  }

  lemma SettleEffect(w: World, me: Sender, dbOk: bool)
    requires Inv(w) && w.At(me).Leaving? && w.At(me).path.Scheduled?
    ensures var (p, w') := (w.At(me), Apply(w, Settle(me, dbOk)));
            w'.At(me) == AfterSettle(p, dbOk) && Moves(w, w', p, dbOk)
  {
    OwnedRow(w, me);
    ExitMatches(w.rows[w.At(me).id], w.At(me));
  }

  /** The gate as it is run: resolve the declaration, then ask the Governor. */
  method RunGovernorGate(path: Path, snap: Row, ctx: SendContext, given: seq<string>, verdict: Verdict)
    returns (d: Decision)
    ensures d == Decide(path, snap, ctx, given, verdict)
  {
    if path.Scheduled? && snap.HumanSendAuthorized() { return Proceed(HumanSend); }
    var declared, require := given, true;
    var facts := ctx;
    if path.Scheduled? {
      var inputs := ScheduledInputs(snap.createdBy, snap.HumanApproved(), snap.declaration, snap.revision);
      declared, require := inputs.0, inputs.1;
      facts := ctx.(humanApproved := snap.HumanApproved());
    }
    var r := Resolve(declared, facts, require);
    if !r.state.Attributed? {
      d := Refuse(if path.Scheduled? then AttributionExit(snap, declared) else GiveUp(Draft));
    } else if verdict.Allow? {
      d := Proceed(Governed(declared, facts, require));
    } else if path.Immediate? {
      d := Refuse(GiveUp(Draft));
    } else {
      d := Refuse(if verdict.BlockedByGovernor? then PauseForReview else TransientBlock);
    }
  }

  /** One step, computed. */
  method Advance(w: World, act: Action) returns (next: World)
    ensures next == Apply(w, act)
  {
    next := w;
    match act {
      case Env(id, op) => next := ApplyEnv(w, id, op);
      case Create(id, content, createdBy) =>
        if id !in w.rows {
          next := w.(rows := w.rows[id := Row(Draft, 0, content, createdBy, None, None, None, None, None, false)]);
        }
      case Claim(a, id, revision, path, lease, now) => next := ApplyClaim(w, a, id, revision, path, lease, now);
      case Load(a, ok, copy) =>
        var p := w.At(a);
        if p.Claimed? && p.id in w.rows {
          next := w.Goto(a, if ok then Loaded(p.id, p.lease, p.path, p.revision, w.rows[p.id],
                                             Outgoing(p.path, w.rows[p.id], copy))
                                 else Leaving(p.id, p.lease, p.path, p.revision, GiveUp(Draft)));
        }
      case Prepare(a, to) =>
        var p := w.At(a);
        if p.Loaded? && (to.Draft? || (to.Blocked? && p.path.Scheduled?)) {
          next := w.Goto(a, Leaving(p.id, p.lease, p.path, p.revision, GiveUp(to)));
        }
      case Gate(a, ctx, declared, verdict) =>
        var p := w.At(a);
        if p.Loaded? {
          var d := RunGovernorGate(p.path, p.snap, ctx, declared, verdict);
          next := ApplyGate(w, a, p, d);
        }
      case Transmit(a, accepted) =>
        var p := w.At(a);
        if p.Cleared? {
          next := w.Goto(a, Leaving(p.id, p.lease, p.path, p.revision,
                                         if accepted then Record else if p.path.Scheduled? then Inconclusive else DropGuard))
                        .Note(Attempted(p.id, p.lease, p.path, p.snap, p.content, p.basis));
        }
      case Settle(a, dbOk) => next := ApplySettle(w, a, dbOk);
      case Publish(a) =>
        var p := w.At(a);
        if p.Reporting? { next := w.Goto(a, Idle).Note(Published(p.id, p.lease, p.outcome)); }
      case Crash(a) => next := w.Goto(a, Idle);
    }
  }

  // ---------------------------------------------------------------- the sweeper

  /** One sender of the dashboard, with the table and everybody else as it finds them. */
  class Sweeper {
    const me: Sender
    var world: World
    ghost const start: World
    ghost var acts: seq<Action>                // everything anyone did since `start`
    ghost var open: set<(Id, Token)>           // claims of mine that may still sit on their rows

    ghost predicate Valid()
      reads this
    {
      && Inv(start) && Inv(world) && Known(world)
      && world == Run(start, acts)
      && Tidy(world, Drawn(acts, me) - open)
    }

    constructor (sender: Sender, table: map<Id, Row>, drawn: set<Token>)
      requires forall id :: id in table && table[id].token.Some? ==> table[id].token.value in drawn
      ensures Valid() && Initial(world) && start == world && acts == [] && open == {}
      ensures me == sender && world.rows == table && world.minted == drawn
    {
      me := sender;
      world := World(table, map[], drawn, []);
      start := World(table, map[], drawn, []);
      acts, open := [], {};
      new;
      InitialInv(world);
    }

    /** Take one step of the protocol. */
    method Perform(act: Action)
      requires Valid()
      modifies this
      ensures Valid() && acts == old(acts) + [act] && world == Apply(old(world), act)
      ensures open == old(open) + if act.Claim? && act.who == me then {(act.id, act.lease)} else {}
      ensures Drawn(acts, me) == old(Drawn(acts, me)) + if act.Claim? && act.who == me then {(act.id, act.lease)} else {}
      ensures Stumbled(acts, me) == (act == Settle(me, false) || old(Stumbled(acts, me)))
    {
      StepKeeps(world, act);
      RunSnoc(start, acts, act);
      TidyStep(world, act, Drawn(acts, me) - open);
      KnownStep(world, act);
      TraceSnoc(acts, act, me);
      if act.Claim? && act.who == me { open := open + {(act.id, act.lease)}; }
      world := Advance(world, act);
      acts := acts + [act];
    }

    /** Whatever this sender and all others have done, the protocol's guarantees hold of it. */
    lemma Accountable(id: Id)
      requires Valid() && Initial(start)
      ensures Drops(world.log, id) <= Attempts(world.log, id) <= Drops(world.log, id) + 1
      ensures Truthful(world)
    {
      AttemptsBounded(start, acts, id);
      ReportsAreTruthful(start, acts);
    }

    /** The trace and the log only grow. */
    ghost predicate Since(before: seq<Action>, log: seq<Event>)
      reads this
    {
      before <= acts && log <= world.log
    }

    /** While others run, what I hold stays mine: same place in the code, same claims, same row. */
    method OthersRun()
      requires Valid()
      modifies this
      ensures Valid() && world.At(me) == old(world.At(me)) && open == old(open) && Since(old(acts), old(world.log))
      ensures Drawn(acts, me) == old(Drawn(acts, me)) && Stumbled(acts, me) == old(Stumbled(acts, me))
      ensures KeepsRow(old(world), world, me)
    {
      var n: nat :| 0 <= n;
      for i := 0 to n
        invariant Valid() && world.At(me) == old(world.At(me)) && open == old(open) && Since(old(acts), old(world.log))
        invariant Drawn(acts, me) == old(Drawn(acts, me)) && Stumbled(acts, me) == old(Stumbled(acts, me))
        invariant KeepsRow(old(world), world, me)
      {
        var act: Action := *;
        if !act.By(me) {
          OthersLeaveMe(world, act, me);
          LogGrows(world, act);
          Perform(act);
        }
      }
    }

    /** A lease nobody has drawn before. */
    method NewLease() returns (lease: Token)
      ensures lease !in world.minted
    {
      lease := 0;
      var left := world.minted;
      while left != {}
        invariant left <= world.minted
        invariant forall l :: l in world.minted ==> l in left || l < lease
        decreases |left|
      {
        var l :| l in left;
        left := left - {l};
        if l >= lease { lease := l + 1; }
      }
    }

    /** Compare-and-swap on id, revision and status; the statement itself may fail. */
    method ClaimDraftForSending(id: Id, revision: int, now: int, dbOk: bool) returns (lease: Option<Token>)
      requires Valid() && world.At(me).Idle?
      modifies this
      ensures Valid() && Since(old(acts), old(world.log)) && Stumbled(acts, me) == old(Stumbled(acts, me))
      ensures forall x :: x in Drawn(acts, me) && x !in old(Drawn(acts, me)) ==> x.0 == id
      ensures lease.Some? <==> dbOk && DueAt(old(world.rows), id, revision, now)
      ensures lease.Some? ==>
        && acts == old(acts) + [Claim(me, id, revision, Scheduled, lease.value, now)]
        && world.At(me) == Claimed(id, lease.value, Scheduled, revision)
        && open == old(open) + {(id, lease.value)}
        && world.rows == old(world.rows)[id := old(world.rows)[id].(status := Sending, token := lease)]
      ensures lease.None? ==> world.At(me).Idle? && open == old(open) && world.rows == old(world.rows)
    {
      if !dbOk { return None; }
      var token := NewLease();
      ClaimEffect(world, me, id, revision, token, now);
      Perform(Claim(me, id, revision, Scheduled, token, now));
      if world.At(me).Claimed? { return Some(token); }
      LostClaim(old(world), world, Drawn(acts, me), old(open), (id, token));
      open := old(open);
      lease := None;
    }

    /** I am about to end a claim of mine. */
    ghost predicate Ending()
      reads this
    {
      var p := world.At(me);
      Valid() && p.Leaving? && p.path.Scheduled? && (p.id, p.lease) in open
    }

    /** My exit's statement ran, or failed, and I stand where that leaves me. */
    ghost predicate Ended(w: World, was: seq<Action>, wasOpen: set<(Id, Token)>, moved: bool)
      requires w.At(me).Leaving?
      reads this
    {
      var p := w.At(me);
      && Valid() && acts == was + [Settle(me, moved)] && w.log <= world.log
      && world.At(me) == AfterSettle(p, moved)
      && open == wasOpen - (if moved then {(p.id, p.lease)} else {})
      && Drawn(acts, me) == Drawn(was, me) && Stumbled(acts, me) == (!moved || Stumbled(was, me))
      && p.id in w.rows
      && (moved ==> Moved(p.id, p.lease, Step(w.rows[p.id], p.exit.Statement(p.lease)).status) in world.log)
    }

    /** Run my exit's statement. It may fail; if it runs it matches, because the row is mine. */
    method RunStatement(dbOk: bool)
      requires Ending()
      modifies this
      ensures Valid() && acts == old(acts) + [Settle(me, dbOk)] && old(world.log) <= world.log
      ensures open == old(open) && Drawn(acts, me) == old(Drawn(acts, me))
      ensures Stumbled(acts, me) == (!dbOk || old(Stumbled(acts, me)))
      ensures world.At(me) == AfterSettle(old(world.At(me)), dbOk)
      ensures Moves(old(world), world, old(world.At(me)), dbOk)
    {
      SettleEffect(world, me, dbOk);
      LogGrows(world, Settle(me, dbOk));
      Perform(Settle(me, dbOk));
    }

    method EndClaim(dbOk: bool)
      requires Ending()
      modifies this
      ensures Ended(old(world), old(acts), old(open), dbOk)
      ensures Moves(old(world), world, old(world.At(me)), dbOk)
    {
      ghost var p := world.At(me);
      RunStatement(dbOk);
      if dbOk {
        LostLease(world, Drawn(acts, me), open, (p.id, p.lease));
        open := open - {(p.id, p.lease)};
      }
    }

    /** Put the row back with a status of the caller's choice; says whether it happened. */
    method ReleaseClaim(to: Status, dbOk: bool) returns (released: bool)
      requires Ending() && world.At(me).exit.Statement(world.At(me).lease) == Release(world.At(me).lease, to)
      modifies this
      ensures released == dbOk && Ended(old(world), old(acts), old(open), released)
      ensures var id := old(world.At(me)).id;
              && id in old(world.rows)
              && world.rows == if released
                               then old(world.rows)[id := old(world.rows)[id].(status := to, token := None)]
                               else old(world.rows)
    {
      OwnedRow(world, me);
      EndClaim(dbOk);
      released := dbOk;
    }

    /** Park for review, off the schedule, with the reason shown; says whether it happened. */
    method ParkReviewClaimWithBlock(dbOk: bool) returns (parked: bool)
      requires Ending() && (world.At(me).exit.PauseForReview? || world.At(me).exit.HumanReapproval?)
      modifies this
      ensures parked == dbOk && Ended(old(world), old(acts), old(open), parked)
      ensures var id := old(world.At(me)).id;
              && id in old(world.rows)
              && world.rows == if parked
                               then old(world.rows)[id := old(world.rows)[id].(
                                      status := PendingReview, token := None, sendAfter := None, sendBlock := true)]
                               else old(world.rows)
    {
      OwnedRow(world, me);
      EndClaim(dbOk);
      parked := dbOk;
    }

    /** Park terminally, because the message may have been delivered; says whether it happened. */
    method ParkDeliveryUncertain(dbOk: bool) returns (parked: bool)
      requires Ending() && (world.At(me).exit.Unrecorded? || world.At(me).exit.Inconclusive?)
      modifies this
      ensures parked == dbOk && Ended(old(world), old(acts), old(open), parked)
      ensures var id := old(world.At(me)).id;
              && id in old(world.rows)
              && world.rows == if parked
                               then old(world.rows)[id := old(world.rows)[id].(
                                      status := DeliveryUncertain, token := None, sendAfter := None)]
                               else old(world.rows)
    {
      OwnedRow(world, me);
      EndClaim(dbOk);
      parked := dbOk;
    }

    /** Record the row as sent; says whether it happened. */
    method MarkDraftSent(dbOk: bool) returns (recorded: bool)
      requires Ending() && world.At(me).exit.Record?
      modifies this
      ensures recorded == dbOk && Ended(old(world), old(acts), old(open), recorded)
      ensures var id := old(world.At(me)).id;
              && id in old(world.rows)
              && world.rows == if recorded
                               then old(world.rows)[id := old(world.rows)[id].(
                                      status := Sent, token := None, sendAfter := None)]
                               else old(world.rows)
    {
      OwnedRow(world, me);
      EndClaim(dbOk);
      recorded := dbOk;
    }

    /** I let go of claim `p` by `exit`; `ok` says whether its statement ran. */
    ghost predicate Left(w: World, was: seq<Action>, wasOpen: set<(Id, Token)>, p: Phase, exit: Exit, ok: bool)
      requires p.Holds()
      reads this
    {
      && Valid() && !world.At(me).Holds() && Since(was, w.log)
      && open == wasOpen - (if ok then {(p.id, p.lease)} else {})
      && Drawn(acts, me) == Drawn(was, me) && (Stumbled(was, me) || !ok ==> Stumbled(acts, me))
      && p.id in w.rows
      && (ok ==> Moved(p.id, p.lease, Step(w.rows[p.id], exit.Statement(p.lease)).status) in world.log)
    }

    /** Record an accepted transmission; when that fails, park it instead. */
    method PersistSentState(settle: bool, park: bool) returns (persistence: SentPersistence)
      requires Ending() && world.At(me).exit.Record?
      modifies this
      ensures persistence == if settle then Recorded else SentPersistence.Unrecorded(park)
      ensures var p := old(world.At(me)); Left(old(world), old(acts), old(open), p, SentExit(settle), settle || park)
      ensures var p := old(world.At(me));
              && p.id in old(world.rows)
              && world.rows == SentRows(old(world.rows), p.id, persistence)
              && world.At(me) == Reporting(p.id, p.lease, if settle then SentDurably else SentUnrecorded)
    {
      ghost var (w, p) := (world, world.At(me));
      var recorded := MarkDraftSent(settle);
      if recorded { return Recorded; }
      assert world.rows == w.rows && world.At(me) == p.(exit := Exit.Unrecorded) && open == old(open);
      ghost var mid := acts;
      var parked := ParkDeliveryUncertain(park);
      assert old(acts) <= mid <= acts;
      persistence := SentPersistence.Unrecorded(parked);
    }

    /** And I have said so. */
    ghost predicate LeftAndTold(w: World, was: seq<Action>, wasOpen: set<(Id, Token)>, p: Phase, exit: Exit, ok: bool)
      requires p.Holds()
      reads this
    {
      && Left(w, was, wasOpen, p, exit, ok) && world.At(me).Idle?
      && (exit.Outcome(ok).Some? ==> Published(p.id, p.lease, exit.Outcome(ok).value) in world.log)
    }

    /** Publish what I have to report, if anything. */
    method Report()
      requires Valid() && !world.At(me).Holds()
      modifies this
      ensures Valid() && world.At(me).Idle? && open == old(open) && Since(old(acts), old(world.log))
      ensures Drawn(acts, me) == old(Drawn(acts, me)) && Stumbled(acts, me) == old(Stumbled(acts, me))
      ensures var p := old(world.At(me)); p.Reporting? ==> Published(p.id, p.lease, p.outcome) in world.log
    {
      OthersRun();
      if world.At(me).Reporting? {
        PublishEffect(world, me);
        Perform(Publish(me));
      }
    }

    /** Leave the claim the way a refusal, or a failed preparation, asks for. */
    method EndRefused(dbOk: bool)
      requires Ending() && !world.At(me).exit.AfterSmtp()
      modifies this
      ensures Ended(old(world), old(acts), old(open), dbOk)
    {
      var exit := world.At(me).exit;
      if exit.GiveUp? {
        var released := ReleaseClaim(exit.to, dbOk);
      } else if exit.TransientBlock? {
        var released := ReleaseClaim(Draft, dbOk);
      } else if exit.PauseForReview? || exit.HumanReapproval? {
        var parked := ParkReviewClaimWithBlock(dbOk);
      } else {
        EndClaim(dbOk);
      }
    }

    /** And report it. */
    method LeaveRefused(dbOk: bool)
      requires Ending() && !world.At(me).exit.AfterSmtp()
      modifies this
      ensures var p := old(world.At(me)); LeftAndTold(old(world), old(acts), old(open), p, p.exit, dbOk)
    {
      EndRefused(dbOk);
      Report();
    }

    /** SMTP answered: record or park, and report. */
    method LeaveTransmitted(settle: bool, park: bool)
      requires Ending() && (world.At(me).exit.Record? || world.At(me).exit.Inconclusive?)
      modifies this
      ensures var p := old(world.At(me));
              if p.exit.Record?
              then LeftAndTold(old(world), old(acts), old(open), p, SentExit(settle), settle || park)
              else LeftAndTold(old(world), old(acts), old(open), p, Inconclusive, settle)
    {
      if world.At(me).exit.Record? {
        var persistence := PersistSentState(settle, park);
      } else {
        var parked := ParkDeliveryUncertain(settle);
      }
      Report();
    }

    /** I hold a scheduled claim and have handed nothing to SMTP. */
    ghost predicate Carrying()
      reads this
    {
      var p := world.At(me);
      Valid() && p.Holds() && p.path.Scheduled? && (p.id, p.lease) in open
    }

    /** Still carrying the same claim on the same row. */
    ghost predicate Steady(w: World, was: seq<Action>, wasOpen: set<(Id, Token)>)
      reads this
    {
      && Since(was, w.log) && open == wasOpen
      && Drawn(acts, me) == Drawn(was, me) && Stumbled(acts, me) == Stumbled(was, me)
      && KeepsRow(w, world, me)
    }

    /** Reload the claimed row and gather what sending needs. */
    method PrepareDraft(ans: Answers) returns (ready: bool)
      requires Carrying() && world.At(me).Claimed?
      modifies this
      ensures Carrying() && Steady(old(world), old(acts), old(open)) && ready == ans.Ready()
      ensures world.At(me) == Prepared(old(world), me, ans)
    {
      LoadEffect(world, me, ans.load, NOT_FETCHED);
      Perform(Load(me, ans.load, NOT_FETCHED));
      if !ans.load { return false; }
      if ans.credentials && ans.attachments { return true; }
      PrepareEffect(world, me, ans.Fallback());
      Perform(Prepare(me, ans.Fallback()));
      ready := false;
    }

    /** Gate the claimed snapshot. */
    method RunGate(facts: SendContext, given: seq<string>, verdict: Verdict)
      requires Carrying() && world.At(me).Loaded?
      modifies this
      ensures Carrying() && Steady(old(world), old(acts), old(open))
      ensures Gated(old(world.At(me)), world.At(me), facts, given, verdict)
    {
      GateEffect(world, me, facts, given, verdict);
      Perform(Gate(me, facts, given, verdict));
    }

    /** Hand the cleared snapshot to SMTP. */
    method HandToSmtp(accepted: bool)
      requires Carrying() && world.At(me).Cleared?
      modifies this
      ensures Ending() && Steady(old(world), old(acts), old(open))
      ensures var p := old(world.At(me));
              world.At(me) == Leaving(p.id, p.lease, p.path, p.revision, if accepted then Record else Inconclusive)
    {
      TransmitEffect(world, me, accepted);
      LogGrows(world, Transmit(me, accepted));
      Perform(Transmit(me, accepted));
    }

    /** Gate the claimed snapshot, and transmit it if the gate allows. */
    method GateAndTransmit(ans: Answers)
      requires Carrying() && world.At(me).Loaded?
      modifies this
      ensures Ending() && Steady(old(world), old(acts), old(open))
      ensures var p := old(world.At(me));
              world.At(me) == Leaving(p.id, p.lease, p.path, p.revision, SnapExit(p.snap, ans))
    {
      RunGate(ans.facts, [], ans.verdict);
      OthersRun();
      if world.At(me).Cleared? {
        HandToSmtp(ans.accepted);
        OthersRun();
      }
    }

    /** From the claimed snapshot to the end: gate, transmit, leave, report. */
    method GateAndSend(ans: Answers)
      requires Carrying() && world.At(me).Loaded? && ans.Ready()
      modifies this
      ensures var p := old(world.At(me));
              LeftAndTold(old(world), old(acts), old(open), p, FinalExit(p.snap, ans), StatementRuns(p.snap, ans))
    {
      GateAndTransmit(ans);
      OwnedRow(world, me);
      if world.At(me).exit.AfterSmtp() {
        LeaveTransmitted(ans.settle, ans.park);
      } else {
        LeaveRefused(ans.settle);
      }
    }

    /** From a fresh claim to the end. */
    method TakeTurn(ans: Answers)
      requires Carrying() && world.At(me).Claimed?
      modifies this
      ensures var p := old(world.At(me));
              && p.id in old(world.rows)
              && var row := old(world.rows)[p.id];
                 LeftAndTold(old(world), old(acts), old(open), p, FinalExit(row, ans), StatementRuns(row, ans))
    {
      OwnedRow(world, me);
      OthersRun();
      var ready := PrepareDraft(ans);
      OthersRun();
      if ready {
        GateAndSend(ans);
      } else {
        LeaveRefused(ans.settle);
      }
    }

    /** Action `k` is my claim of a row that was due at that revision then; the claimed row is that row, claimed. */
    ghost predicate ClaimedWhenDue(k: nat, id: Id, revision: int, now: int, row: Row)
      requires k < |acts|
      reads this
    {
      var (act, rows) := (acts[k], Run(start, acts[..k]).rows);
      && act.Claim? && act.who == me && act.id == id && act.revision == revision && act.path.Scheduled?
      && DueAt(rows, id, revision, now)
      && row == rows[id].(status := Sending, token := Some(act.lease))
    }

    /** Claim one due draft and, if that succeeds, take it as far as it goes. */
    method SweepOne(id: Id, revision: int, now: int, ans: Answers) returns (claimed: Option<Row>)
      requires Valid() && world.At(me).Idle?
      modifies this
      ensures Valid() && world.At(me).Idle? && Since(old(acts), old(world.log))
      ensures forall x :: x in Drawn(acts, me) && x !in old(Drawn(acts, me)) ==> x.0 == id
      ensures claimed.Some? ==> ans.claim && claimed.value.revision == revision && Ran(world.log, id, claimed.value, ans)
      ensures claimed.Some? ==> exists k :: |old(acts)| <= k < |acts| && ClaimedWhenDue(k, id, revision, now, claimed.value)
      ensures claimed.None? ==> !ans.claim || !DueAt(world.rows, id, revision, now)
      ensures old(Stumbled(acts, me)) || (claimed.Some? && !StatementRuns(claimed.value, ans)) ==> Stumbled(acts, me)
      ensures open <= old(open) || Stumbled(acts, me)
    {
      OthersRun();
      ghost var k := |acts|;
      ghost var before := acts;
      var lease := ClaimDraftForSending(id, revision, now, ans.claim);
      if lease.None? { return None; }
      claimed := Some(world.rows[id]);
      TakeTurn(ans);
      assert acts[..k] == before;
      assert ClaimedWhenDue(k, id, revision, now, claimed.value);
    }

    /** The due query: every due row with its revision, each once. */
    method ListDraftsDueForSend(now: int) returns (due: seq<(Id, int)>)
      ensures Distinct(due) && forall id, revision :: (id, revision) in due <==> DueAt(world.rows, id, revision, now)
    {
      due := [];
      var left := world.rows.Keys;
      while left != {}
        invariant left <= world.rows.Keys
        invariant forall id, revision :: (id, revision) in due <==> id !in left && DueAt(world.rows, id, revision, now)
        invariant Distinct(due)
        decreases |left|
      {
        var id :| id in left;
        left := left - {id};
        if world.rows[id].Due(now) {
          DistinctAppend(due, [(id, world.rows[id].revision)]);
          due := due + [(id, world.rows[id].revision)];
        }
      }
    }

    /**
     One sweep. It takes the drafts that were due when it scanned, one after the
     other; every one it claims runs exactly the course its answers dictate; it ends
     holding nothing and, unless one of its own statements failed, leaves no draft
     it claimed in `sending` under its lease.
     */
    method RunScheduledSendSweep(now: int, listOk: bool, answers: map<Id, Answers>)
      returns (r: Option<seq<((Id, int), Option<Row>)>>)
      requires Valid() && world.At(me).Idle?
      requires world.rows.Keys <= answers.Keys
      modifies this
      ensures Valid() && world.At(me).Idle? && Since(old(acts), old(world.log))
      ensures r.Some? <==> listOk
      ensures r.Some? ==> forall id, revision ::
        DueAt(old(world.rows), id, revision, now) <==> exists i :: 0 <= i < |r.value| && r.value[i].0 == (id, revision)
      ensures r.Some? ==> forall i :: 0 <= i < |r.value| ==> Course(r.value[i], answers, world.log)
      ensures open <= old(open) || Stumbled(acts, me)
      ensures old(open) == {} && !Stumbled(acts, me) ==> Tidy(world, Drawn(acts, me))
    {
      if !listOk { return None; }
      var due := ListDraftsDueForSend(now);
      var done: seq<((Id, int), Option<Row>)> := [];
      for i := 0 to |due|
        invariant Valid() && world.At(me).Idle? && Since(old(acts), old(world.log))
        invariant |done| == i && forall j :: 0 <= j < i ==> done[j].0 == due[j] && Course(done[j], answers, world.log)
        invariant open <= old(open) || Stumbled(acts, me)
      {
        var (id, revision) := due[i];
        assert (id, revision) in due;
        ghost var log := world.log;
        var claimed := SweepOne(id, revision, now, answers[id]);
        CoursesLast(done, answers, log, world.log);
        done := done + [((id, revision), claimed)];
      }
      if open == {} { TidyLess(world, Drawn(acts, me) - open, Drawn(acts, me)); }
      forall id, revision
        ensures DueAt(old(world.rows), id, revision, now) <==>
                exists i :: 0 <= i < |done| && done[i].0 == (id, revision)
      {
        if (id, revision) in due {
          var i :| 0 <= i < |due| && due[i] == (id, revision);
          assert done[i].0 == (id, revision);
        }
      }
      r := Some(done);
    }
  }
}
