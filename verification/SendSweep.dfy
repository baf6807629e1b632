/**
 Transmission of drafts as a concurrent protocol. Any number of senders (the
 scheduled sweep and the immediate send) work on one shared table beside editors
 and operators; every database call is one atomic action, any statement may fail
 without effect, and a sender may crash between any two actions.
 */
module SendSweep {
  import opened Prelude
  import opened Attribution
  import opened AttributionPersist
  import opened DraftStore

  type Id = string
  type Sender = nat

  /**
   How a draft is sent. Before it claims, an immediate send notes whether it will
   find the draft's text in the provider's Drafts folder: the row it read has an
   IMAP uid and the account an IMAP host.
   */
  datatype Path = Scheduled | Immediate(atProvider: bool) {
    predicate HasCopy() { Immediate? && atProvider }
  }

  /**
   What goes out for a claimed row. A copy at the provider is the source of the
   letter, whatever it says by now; it carries no Bcc and no Reply-To, and the
   attachments are the row's own all the same.
   */
  function Outgoing(path: Path, snap: Row, copy: string): Content {
    if path.HasCopy() then Content(copy, None, None, snap.content.attachments) else snap.content
  }

  /** Why the gate let a transmission through. */
  datatype Basis =
    | HumanSend
    | Governed(declared: seq<string>, ctx: SendContext, require: bool)

  datatype Verdict = Allow | BlockedByGovernor | GovernorUnavailable

  /** The status a sweep publishes for a draft. */
  datatype Outcome = SentDurably | SentUnrecorded | Stopped | Deferred | DeliveryInDoubt | TransitionFailed

  function TransitionOutcome(persisted: bool, intended: Outcome): Outcome {
    if persisted then intended else TransitionFailed
  }

  /** How a sender leaves its claim. */
  datatype Exit =
    | GiveUp(to: Status)                          // could not prepare: release the claim
    | RetryAttribution(value: PersistedDeclaration)
    | ExhaustAttribution(value: PersistedDeclaration)
    | HumanReapproval
    | PauseForReview                              // durable Governor verdict
    | TransientBlock                              // Governor unreachable
    | Record                                      // SMTP accepted
    | Unrecorded                                  // SMTP accepted, recording it failed
    | Inconclusive                                // SMTP result unknown
    | DropGuard                                   // immediate send, SMTP error: the claim guard releases
  {
    predicate AfterSmtp() { Record? || Unrecorded? || Inconclusive? || DropGuard? }

    function Statement(lease: Token): Op {
      match this
      case GiveUp(to) => Release(lease, to)
      case RetryAttribution(value) => DeferRetry(lease, value)
      case ExhaustAttribution(value) => ParkExhausted(lease, value)
      case HumanReapproval => ParkReview(lease)
      case PauseForReview => ParkReview(lease)
      case TransientBlock => Release(lease, Draft)
      case Record => MarkSent(lease)
      case Unrecorded => ParkUncertain(lease)
      case Inconclusive => ParkUncertain(lease)
      case DropGuard => Release(lease, Draft)
    }

    /** What the sweep publishes once the statement ran; `persisted` when it matched the owned row. */
    function Outcome(persisted: bool): Option<Outcome> {
      match this
      case GiveUp(_) => None
      case RetryAttribution(_) => Some(TransitionOutcome(persisted, Deferred))
      case ExhaustAttribution(_) => Some(TransitionOutcome(persisted, Stopped))
      case HumanReapproval => Some(TransitionOutcome(persisted, Stopped))
      case PauseForReview => Some(TransitionOutcome(persisted, Stopped))
      case TransientBlock => Some(TransitionOutcome(persisted, Deferred))
      case Record => Some(SentDurably)
      case Unrecorded => Some(SentUnrecorded)
      case Inconclusive => Some(DeliveryInDoubt)
      case DropGuard => None
    }
  }

  /** Where a sender stands. Every phase but the first and the last holds a claim. */
  datatype Phase =
    | Idle
    | Claimed(id: Id, lease: Token, path: Path, revision: int)
    | Loaded(id: Id, lease: Token, path: Path, revision: int, snap: Row, content: Content)
    | Cleared(id: Id, lease: Token, path: Path, revision: int, snap: Row, content: Content, basis: Basis)
    | Leaving(id: Id, lease: Token, path: Path, revision: int, exit: Exit)
    | Reporting(id: Id, lease: Token, outcome: Outcome)
  {
    predicate Holds() { Claimed? || Loaded? || Cleared? || Leaving? }

    predicate Holding(i: Id) { Holds() && id == i }

    /** Holds the claim and has handed nothing to SMTP. */
    predicate BeforeSmtp() { Holds() && !(Leaving? && exit.AfterSmtp()) }
  }

  /** A scheduled send fetches nothing; its load ignores this. */
  const NOT_FETCHED: string := ""

  datatype Event =
    | Attempted(id: Id, lease: Token, path: Path, snap: Row, content: Content, basis: Basis)
    | Moved(id: Id, lease: Token, to: Status)     // an owned row really left `sending`
    | Dropped(id: Id, lease: Token)               // an immediate send put an attempted row back
    | Refused(id: Id, lease: Token, exit: Exit)   // attribution failure in the sweep
    | Published(id: Id, lease: Token, outcome: Outcome)

  datatype World = World(rows: map<Id, Row>, senders: map<Sender, Phase>, minted: set<Token>, log: seq<Event>) {
    function At(a: Sender): Phase { if a in senders then senders[a] else Idle }

    function Goto(a: Sender, p: Phase): World { this.(senders := senders[a := p]) }

    function Note(e: Event): World { this.(log := log + [e]) }
  }

  datatype Action =
    | Env(id: Id, op: Op)
    | Create(id: Id, content: Content, createdBy: Option<string>)
    | Claim(who: Sender, id: Id, revision: int, path: Path, lease: Token, now: int)
    | Load(who: Sender, ok: bool, copy: string)   // reload the row; `copy` is what the provider holds
    | Prepare(who: Sender, to: Status)
    | Gate(who: Sender, ctx: SendContext, declared: seq<string>, verdict: Verdict)
    | Transmit(who: Sender, accepted: bool)
    | Settle(who: Sender, dbOk: bool)
    | Publish(who: Sender)
    | Crash(who: Sender)
  {
    predicate By(a: Sender) { !Env? && !Create? && who == a }
  }

  /** Editors, operators and provider sync. A sync claim draws a fresh lease. */
  function ApplyEnv(w: World, id: Id, op: Op): World {
    if id !in w.rows || op.NeedsSendLease() || op.Claims() || (op.ClaimForSync? && op.lease in w.minted) then w
    else w.(rows := w.rows[id := Step(w.rows[id], op)],
            minted := w.minted + if op.ClaimForSync? then {op.lease} else {})
  }

  /** The id and revision may come from a scan that is long out of date. */
  function ApplyClaim(
    w: World, a: Sender, id: Id, revision: int, path: Path, lease: Token, now: int): World
  {
    if !w.At(a).Idle? || lease in w.minted then w
    else
      var op := if path.Scheduled? then ClaimDue(revision, lease, now) else ClaimNow(revision, lease);
      match if id in w.rows then Exec(w.rows[id], op) else None
      case None => w.(minted := w.minted + {lease})
      case Some(row) =>
        w.(rows := w.rows[id := row], minted := w.minted + {lease}).Goto(a, Claimed(id, lease, path, revision))
  }

  datatype Decision = Proceed(basis: Basis) | Refuse(exit: Exit)

  function AttributionExit(snap: Row, declared: seq<string>): Exit {
    match FailureActionFor(OriginOf(snap.createdBy, snap.declaration, snap.revision), declared, snap.revision,
                           RecordedAttempts(snap.declaration, snap.revision))
    case Retry(value) => RetryAttribution(value)
    case Park(value) => ExhaustAttribution(value)
    case HumanReview => HumanReapproval
  }

  /**
   The gate on the claimed snapshot. A scheduled send resolves the row's durable
   declaration, except that a current dashboard Human-only Send is not scored; an
   immediate send resolves the caller's keys and always needs a declaration.
   */
  ghost function Decide(path: Path, snap: Row, ctx: SendContext, given: seq<string>, verdict: Verdict): Decision {
    if path.Scheduled? && snap.HumanSendAuthorized() then Proceed(HumanSend)
    else
      var (declared, require) :=
        if path.Scheduled?
        then ScheduledInputs(snap.createdBy, snap.HumanApproved(), snap.declaration, snap.revision)
        else (given, true);
      var facts := if path.Scheduled? then ctx.(humanApproved := snap.HumanApproved()) else ctx;
      if !StateOf(Tokens(declared), facts, require).Attributed? then
        Refuse(if path.Scheduled? then AttributionExit(snap, declared) else GiveUp(Draft))
      else if verdict.Allow? then Proceed(Governed(declared, facts, require))
      else if path.Immediate? then Refuse(GiveUp(Draft))
      else Refuse(if verdict.BlockedByGovernor? then PauseForReview else TransientBlock)
  }

  function ApplyGate(w: World, a: Sender, p: Phase, d: Decision): World
    requires p.Loaded?
  {
    match d
    case Proceed(basis) => w.Goto(a, Cleared(p.id, p.lease, p.path, p.revision, p.snap, p.content, basis))
    case Refuse(exit) =>
      var next := w.Goto(a, Leaving(p.id, p.lease, p.path, p.revision, exit));
      if exit.RetryAttribution? || exit.ExhaustAttribution? || exit.HumanReapproval?
      then next.Note(Refused(p.id, p.lease, exit)) else next
  }

  /** Run the exit's statement. A failed recording falls back to the uncertain park. */
  function ApplySettle(w: World, a: Sender, dbOk: bool): World {
    var p := w.At(a);
    if !p.Leaving? then w
    else
      var moved := if dbOk && p.id in w.rows then Exec(w.rows[p.id], p.exit.Statement(p.lease)) else None;
      var next :=
        match moved
        case None => w
        case Some(row) =>
          var u := w.(rows := w.rows[p.id := row]).Note(Moved(p.id, p.lease, row.status));
          if p.exit.DropGuard? then u.Note(Dropped(p.id, p.lease)) else u;
      if p.exit.Record? && moved.None? then next.Goto(a, p.(exit := Unrecorded))
      else match if p.path.Scheduled? then p.exit.Outcome(moved.Some?) else None
           case Some(outcome) => next.Goto(a, Reporting(p.id, p.lease, outcome))
           case None => next.Goto(a, Idle)
  }

  ghost function Apply(w: World, act: Action): World {
    match act
    case Env(id, op) => ApplyEnv(w, id, op)
    case Create(id, content, createdBy) =>
      if id in w.rows then w
      else w.(rows := w.rows[id := Row(Draft, 0, content, createdBy, None, None, None, None, None, false)])
    case Claim(a, id, revision, path, lease, now) => ApplyClaim(w, a, id, revision, path, lease, now)
    case Load(a, ok, copy) =>
      var p := w.At(a);
      if !p.Claimed? || p.id !in w.rows then w
      else if ok then w.Goto(a, Loaded(p.id, p.lease, p.path, p.revision, w.rows[p.id], Outgoing(p.path, w.rows[p.id], copy)))
      else w.Goto(a, Leaving(p.id, p.lease, p.path, p.revision, GiveUp(Draft)))
    case Prepare(a, to) =>
      var p := w.At(a);
      if !p.Loaded? || !(to.Draft? || (to.Blocked? && p.path.Scheduled?)) then w
      else w.Goto(a, Leaving(p.id, p.lease, p.path, p.revision, GiveUp(to)))
    case Gate(a, ctx, declared, verdict) =>
      var p := w.At(a);
      if !p.Loaded? then w else ApplyGate(w, a, p, Decide(p.path, p.snap, ctx, declared, verdict))
    case Transmit(a, accepted) =>
      var p := w.At(a);
      if !p.Cleared? then w
      else w.Goto(a, Leaving(p.id, p.lease, p.path, p.revision,
                             if accepted then Record else if p.path.Scheduled? then Inconclusive else DropGuard))
            .Note(Attempted(p.id, p.lease, p.path, p.snap, p.content, p.basis))
    case Settle(a, dbOk) => ApplySettle(w, a, dbOk)
    case Publish(a) =>
      var p := w.At(a);
      if !p.Reporting? then w else w.Goto(a, Idle).Note(Published(p.id, p.lease, p.outcome))
    case Crash(a) => w.Goto(a, Idle)
  }

  ghost function Run(w: World, acts: seq<Action>): World {
    if acts == [] then w else Apply(Run(w, acts[..|acts| - 1]), acts[|acts| - 1])
  }

  lemma {:induction false} RunAppend(w: World, first: seq<Action>, rest: seq<Action>)
    ensures Run(w, first + rest) == Run(Run(w, first), rest)
  {
    if rest == [] {
      assert first + rest == first;
    } else {
      RunAppend(w, first, rest[..|rest| - 1]);
      assert (first + rest)[..|first + rest| - 1] == first + rest[..|rest| - 1];
    }
  }

  lemma RunOne(w: World, act: Action)
    ensures Run(w, [act]) == Apply(w, act)
  {
  }

  lemma RunSnoc(w: World, acts: seq<Action>, act: Action)
    ensures Run(w, acts + [act]) == Apply(Run(w, acts), act)
  {
  }

  lemma RunFive(w: World, a1: Action, a2: Action, a3: Action, a4: Action, a5: Action)
    ensures Run(w, [a1, a2, a3, a4, a5]) == Apply(Apply(Apply(Apply(Apply(w, a1), a2), a3), a4), a5)
  {
    RunOne(w, a1);
    RunSnoc(w, [a1], a2);
    RunSnoc(w, [a1] + [a2], a3);
    RunSnoc(w, [a1] + [a2] + [a3], a4);
    RunSnoc(w, [a1] + [a2] + [a3] + [a4], a5);
    assert [a1, a2, a3, a4, a5] == [a1] + [a2] + [a3] + [a4] + [a5];
  }

  /** Any table at all, with no sender at work yet and nothing logged. */
  ghost predicate Initial(w: World) {
    w.senders == map[] && w.log == []
  }

  // ---------------------------------------------------------------- counting

  function Attempts(log: seq<Event>, id: Id): nat {
    if log == [] then 0
    else Attempts(log[..|log| - 1], id) +
         if log[|log| - 1].Attempted? && log[|log| - 1].id == id then 1 else 0
  }

  function Drops(log: seq<Event>, id: Id): nat {
    if log == [] then 0
    else Drops(log[..|log| - 1], id) + if log[|log| - 1].Dropped? && log[|log| - 1].id == id then 1 else 0
  }

  lemma CountSnoc(log: seq<Event>, e: Event, id: Id)
    ensures Attempts(log + [e], id) == Attempts(log, id) + if e.Attempted? && e.id == id then 1 else 0
    ensures Drops(log + [e], id) == Drops(log, id) + if e.Dropped? && e.id == id then 1 else 0
  {
  }

  // ---------------------------------------------------------------- invariant

  /** A holder owns its row: still `sending`, under its lease, exactly as it was claimed. */
  ghost predicate Owns(w: World, p: Phase)
    requires p.Holds()
  {
    && p.id in w.rows
    && w.rows[p.id].status.Sending?
    && w.rows[p.id].token == Some(p.lease)
    && w.rows[p.id].revision == p.revision
    && p.lease in w.minted
    && (p.Loaded? || p.Cleared? ==> p.snap == w.rows[p.id])
    && (p.Leaving? && p.exit.DropGuard? ==> p.path.Immediate?)
    && (p.Leaving? && p.exit.RetryAttribution? ==> p.exit.value.IsCurrent(p.revision))
    && (p.path.Scheduled? ==> w.rows[p.id].sendAfter.Some?)
  }

  ghost predicate Owners(w: World) {
    && (forall a :: w.At(a).Holds() ==> Owns(w, w.At(a)))
    && (forall a, b :: a != b && w.At(a).Holds() && w.At(b).Holds() ==> w.At(a).lease != w.At(b).lease)
  }

  predicate Closed(s: Status) { s.Sending? || s.Sent? || s.DeliveryUncertain? || s.Discarded? }

  /** An attempt not put back has closed the row, and nobody is about to attempt it again. */
  ghost predicate Spending(w: World, id: Id) {
    var (n, d) := (Attempts(w.log, id), Drops(w.log, id));
    && d <= n <= d + 1
    && (n == d + 1 ==> id in w.rows && Closed(w.rows[id].status) && forall a :: w.At(a).Holding(id) ==> !w.At(a).BeforeSmtp())
    && (n == d ==> forall a :: w.At(a).Holding(id) ==> w.At(a).BeforeSmtp())
  }

  ghost predicate Inv(w: World) {
    Owners(w) && forall id :: Spending(w, id)
  }

  /** A claimed row is out of reach of every statement that lacks its lease. */
  lemma ClaimedIsFrozen(row: Row, op: Op)
    requires row.status.Sending?
    requires !op.NeedsSendLease() || Some(op.lease) != row.token
    ensures Exec(row, op).None?
  {
  }

  lemma ClosedStaysClosed(row: Row, op: Op)
    requires Closed(row.status) && !op.NeedsSendLease()
    ensures Closed(Step(row, op).status) && (row.status.Sending? ==> Step(row, op) == row)
  {
  }

  lemma EnvKeeps(w: World, id: Id, op: Op)
    requires Inv(w)
    ensures Inv(ApplyEnv(w, id, op))
  {
    var w' := ApplyEnv(w, id, op);
    assert forall a :: w'.At(a) == w.At(a);
    if w' != w {
      if Closed(w.rows[id].status) { ClosedStaysClosed(w.rows[id], op); }
      forall i ensures Spending(w', i) { assert Spending(w, i); }
    }
  }

  lemma ClaimKeeps(w: World, a: Sender, id: Id, revision: int, path: Path, lease: Token, now: int)
    requires Inv(w)
    ensures Inv(ApplyClaim(w, a, id, revision, path, lease, now))
  {
    var w' := ApplyClaim(w, a, id, revision, path, lease, now);
    assert forall b :: b != a ==> w'.At(b) == w.At(b);
    forall i ensures Spending(w', i) { assert Spending(w, i); }
  }

  /** A sender moves on within its claim, or abandons it, logging nothing that counts. */
  lemma MoveKeeps(w: World, a: Sender, p: Phase)
    requires Inv(w)
    requires p.Holds() ==> w.At(a).Holding(p.id) && p.lease == w.At(a).lease && Owns(w, p)
    requires p.Holds() ==> p.BeforeSmtp() == w.At(a).BeforeSmtp()
    ensures Inv(w.Goto(a, p))
  {
    var w' := w.Goto(a, p);
    assert forall b :: b != a ==> w'.At(b) == w.At(b);
    assert w'.At(a) == p;
    forall i ensures Spending(w', i) { assert Spending(w, i); }
  }

  lemma NoteKeeps(w: World, e: Event)
    requires Inv(w) && !e.Attempted? && !e.Dropped?
    ensures Inv(w.Note(e))
  {
    var w' := w.Note(e);
    assert forall a :: w'.At(a) == w.At(a);
    forall i ensures Spending(w', i) {
      assert Spending(w, i);
      CountSnoc(w.log, e, i);
    }
  }

  lemma OneHolder(w: World, a: Sender, id: Id)
    requires Owners(w) && w.At(a).Holding(id)
    ensures forall b :: w.At(b).Holding(id) ==> b == a
  {
  }

  lemma TransmitKeeps(w: World, a: Sender, accepted: bool)
    requires Inv(w)
    ensures Inv(Apply(w, Transmit(a, accepted)))
  {
    var p, w' := w.At(a), Apply(w, Transmit(a, accepted));
    if p.Cleared? {
      assert Owns(w, p);
      assert forall b :: b != a ==> w'.At(b) == w.At(b);
      assert Owners(w');
      forall i ensures Spending(w', i) {
        assert Spending(w, i);
        CountSnoc(w.log, Attempted(p.id, p.lease, p.path, p.snap, p.content, p.basis), i);
        if i == p.id { OneHolder(w, a, i); }
      }
    }
  }

  /** The lease holder's own statement always matches, and leaves `sending` for good unless it puts the row back. */
  lemma ExitMatches(row: Row, p: Phase)
    requires p.Leaving? && row.status.Sending? && row.token == Some(p.lease)
    ensures Exec(row, p.exit.Statement(p.lease)).Some?
    ensures var s := Exec(row, p.exit.Statement(p.lease)).value.status;
            p.exit.AfterSmtp() && !p.exit.DropGuard? ==> Closed(s)
  {
  }

  /** Giving up a claim: the row is rewritten and its only holder lets go. */
  lemma LetGoKeeps(w: World, a: Sender, row: Row, q: Phase, log: seq<Event>)
    requires Inv(w) && w.At(a).Leaving? && !q.Holds()
    requires var p := w.At(a);
             && (p.exit.AfterSmtp() && !p.exit.DropGuard? ==> Closed(row.status))
             && forall i :: Attempts(log, i) == Attempts(w.log, i) &&
                            Drops(log, i) == Drops(w.log, i) + if p.exit.DropGuard? && i == p.id then 1 else 0
    ensures Inv(w.(rows := w.rows[w.At(a).id := row], log := log).Goto(a, q))
  {
    var p, w' := w.At(a), w.(rows := w.rows[w.At(a).id := row], log := log).Goto(a, q);
    OneHolder(w, a, p.id);
    assert w'.At(a) == q && forall b :: b != a ==> w'.At(b) == w.At(b);
    forall b | w'.At(b).Holds() ensures Owns(w', w'.At(b)) { assert Owns(w, w.At(b)); }
    forall i ensures Spending(w', i) { assert Spending(w, i); }
  }

  lemma SettleMoves(w: World, a: Sender)
    requires Inv(w) && w.At(a).Leaving?
    ensures Inv(ApplySettle(w, a, true))
  {
    var p, w' := w.At(a), ApplySettle(w, a, true);
    assert Owns(w, p);
    ExitMatches(w.rows[p.id], p);
    var row := Exec(w.rows[p.id], p.exit.Statement(p.lease)).value;
    var log1 := w.log + [Moved(p.id, p.lease, row.status)];
    var log2 := if p.exit.DropGuard? then log1 + [Dropped(p.id, p.lease)] else log1;
    forall i ensures Attempts(log2, i) == Attempts(w.log, i) &&
                     Drops(log2, i) == Drops(w.log, i) + if p.exit.DropGuard? && i == p.id then 1 else 0
    {
      CountSnoc(w.log, Moved(p.id, p.lease, row.status), i);
      CountSnoc(log1, Dropped(p.id, p.lease), i);
    }
    LetGoKeeps(w, a, row, w'.At(a), log2);
  }

  lemma SettleKeeps(w: World, a: Sender, dbOk: bool)
    requires Inv(w)
    ensures Inv(ApplySettle(w, a, dbOk))
  {
    var p := w.At(a);
    if p.Leaving? {
      assert Owns(w, p);
      if dbOk { SettleMoves(w, a); }
      else { MoveKeeps(w, a, ApplySettle(w, a, false).At(a)); }
    }
  }

  lemma RefusalIsBeforeSmtp(path: Path, snap: Row, ctx: SendContext, given: seq<string>, verdict: Verdict)
    ensures var d := Decide(path, snap, ctx, given, verdict); d.Refuse? ==> !d.exit.AfterSmtp()
  {
  }

  lemma GateKeeps(w: World, a: Sender, ctx: SendContext, declared: seq<string>, verdict: Verdict)
    requires Inv(w)
    ensures Inv(Apply(w, Gate(a, ctx, declared, verdict)))
  {
    var p := w.At(a);
    if p.Loaded? {
      assert Owns(w, p);
      var d := Decide(p.path, p.snap, ctx, declared, verdict);
      var q := match d
        case Proceed(basis) => Cleared(p.id, p.lease, p.path, p.revision, p.snap, p.content, basis)
        case Refuse(exit) => Leaving(p.id, p.lease, p.path, p.revision, exit);
      RefusalIsBeforeSmtp(p.path, p.snap, ctx, declared, verdict);
      MoveKeeps(w, a, q);
      if d.Refuse? { NoteKeeps(w.Goto(a, q), Refused(p.id, p.lease, d.exit)); }
    }
  }

  lemma GateApplies(w: World, a: Sender, ctx: SendContext, given: seq<string>, verdict: Verdict)
    requires w.At(a).Loaded?
    ensures var p := w.At(a);
            Apply(w, Gate(a, ctx, given, verdict)) == ApplyGate(w, a, p, Decide(p.path, p.snap, ctx, given, verdict))
  {
  }

  lemma CreateKeeps(w: World, id: Id, content: Content, createdBy: Option<string>)
    requires Inv(w)
    ensures Inv(Apply(w, Create(id, content, createdBy)))
  {
    var w' := Apply(w, Create(id, content, createdBy));
    assert forall a :: w'.At(a) == w.At(a);
    forall i ensures Spending(w', i) { assert Spending(w, i); }
  }

  lemma StepKeeps(w: World, act: Action)
    requires Inv(w)
    ensures Inv(Apply(w, act))
  {
    match act
    case Env(id, op) => EnvKeeps(w, id, op);
    case Create(id, content, createdBy) => CreateKeeps(w, id, content, createdBy);
    case Claim(a, id, revision, path, lease, now) => ClaimKeeps(w, a, id, revision, path, lease, now);
    case Load(a, ok, copy) =>
      if w.At(a).Holds() { assert Owns(w, w.At(a)); }
      MoveKeeps(w, a, Apply(w, act).At(a));
    case Prepare(a, to) =>
      if w.At(a).Holds() { assert Owns(w, w.At(a)); }
      MoveKeeps(w, a, Apply(w, act).At(a));
    case Gate(a, ctx, declared, verdict) => GateKeeps(w, a, ctx, declared, verdict);
    case Transmit(a, accepted) => TransmitKeeps(w, a, accepted);
    case Settle(a, dbOk) => SettleKeeps(w, a, dbOk);
    case Publish(a) =>
      if w.At(a).Reporting? {
        MoveKeeps(w, a, Idle);
        NoteKeeps(w.Goto(a, Idle), Published(w.At(a).id, w.At(a).lease, w.At(a).outcome));
      }
    case Crash(a) => MoveKeeps(w, a, Idle);
  }

  lemma {:induction false} RunKeeps(w: World, acts: seq<Action>)
    requires Inv(w)
    ensures Inv(Run(w, acts))
  {
    if acts != [] {
      RunKeeps(w, acts[..|acts| - 1]);
      StepKeeps(Run(w, acts[..|acts| - 1]), acts[|acts| - 1]);
    }
  }

  lemma InitialInv(w: World)
    requires Initial(w)
    ensures Inv(w)
  {
  }

  // ---------------------------------------------------------------- at most one attempt

  lemma OthersStay(w: World, act: Action)
    ensures forall a :: !act.By(a) ==> Apply(w, act).At(a) == w.At(a)
  {
  }

  /** The row of an attempt is out of every claim's reach and, while `sending`, still under the transmitting lease. */
  predicate Fastened(w: World, id: Id, lease: Token) {
    && id in w.rows && Closed(w.rows[id].status)
    && (w.rows[id].status.Sending? ==> w.rows[id].token == Some(lease))
  }

  predicate PutBack(log: seq<Event>, id: Id, lease: Token) {
    Dropped(id, lease) in log
  }

  /** Every attempt holds its row fast unless it was put back, and no lease that has attempted may attempt again. */
  ghost predicate Tethered(w: World) {
    && (forall e :: e in w.log && e.Attempted? ==>
          e.lease in w.minted && (PutBack(w.log, e.id, e.lease) || Fastened(w, e.id, e.lease)))
    && (forall a, e :: w.At(a).BeforeSmtp() && e in w.log && e.Attempted? ==> e.lease != w.At(a).lease)
  }

  /** A step that rewrites no closed row and starts no attempt. */
  lemma TetherKeeps(w: World, w': World)
    requires Tethered(w) && w.minted <= w'.minted
    requires forall e :: e in w.log ==> e in w'.log
    requires forall e :: e in w'.log && e.Attempted? ==> e in w.log
    requires forall id :: id in w.rows && Closed(w.rows[id].status) ==>
      && id in w'.rows && Closed(w'.rows[id].status)
      && (w'.rows[id].status.Sending? ==> w.rows[id].status.Sending? && w'.rows[id].token == w.rows[id].token)
    requires forall a :: w'.At(a).BeforeSmtp() ==>
      w'.At(a).lease !in w.minted || (w.At(a).BeforeSmtp() && w'.At(a).lease == w.At(a).lease)
    ensures Tethered(w')
  {
  }

  /** No statement without the lease brings a closed row back to `sending`. */
  lemma ClosedNeverReopens(row: Row, op: Op)
    requires Closed(row.status) && !op.NeedsSendLease()
    ensures Step(row, op).status.Sending? ==> Step(row, op) == row
  {
  }

  lemma EnvTethers(w: World, id: Id, op: Op)
    requires Inv(w) && Tethered(w)
    ensures Tethered(ApplyEnv(w, id, op))
  {
    var w' := ApplyEnv(w, id, op);
    assert forall a :: w'.At(a) == w.At(a);
    if w' != w && Closed(w.rows[id].status) {
      ClosedStaysClosed(w.rows[id], op);
      ClosedNeverReopens(w.rows[id], op);
    }
    TetherKeeps(w, w');
  }

  lemma ClaimTethers(w: World, a: Sender, id: Id, revision: int, path: Path, lease: Token, now: int)
    requires Inv(w) && Tethered(w)
    ensures Tethered(ApplyClaim(w, a, id, revision, path, lease, now))
  {
    var w' := ApplyClaim(w, a, id, revision, path, lease, now);
    assert forall b :: b != a ==> w'.At(b) == w.At(b);
    TetherKeeps(w, w');
  }

  lemma TransmitTethers(w: World, a: Sender, accepted: bool)
    requires Inv(w) && Tethered(w)
    ensures Tethered(Apply(w, Transmit(a, accepted)))
  {
    var p, w' := w.At(a), Apply(w, Transmit(a, accepted));
    if p.Cleared? {
      assert Owns(w, p);
      var e := Attempted(p.id, p.lease, p.path, p.snap, p.content, p.basis);
      assert forall b :: b != a ==> w'.At(b) == w.At(b);
      assert forall x :: x in w'.log <==> x in w.log || x == e;
      assert Fastened(w', p.id, p.lease);
    }
  }

  lemma SettleTethers(w: World, a: Sender, dbOk: bool)
    requires Inv(w) && Tethered(w)
    ensures Tethered(ApplySettle(w, a, dbOk))
  {
    var p, w' := w.At(a), ApplySettle(w, a, dbOk);
    if p.Leaving? {
      assert Owns(w, p);
      ExitMatches(w.rows[p.id], p);
      assert forall b :: b != a ==> w'.At(b) == w.At(b);
      forall e | e in w'.log && e.Attempted?
        ensures e.lease in w'.minted && (PutBack(w'.log, e.id, e.lease) || Fastened(w', e.id, e.lease))
      {
        assert e in w.log;
        if e.id == p.id && !PutBack(w.log, e.id, e.lease) { assert e.lease == p.lease; }
      }
    }
  }

  lemma TetherStep(w: World, act: Action)
    requires Inv(w) && Tethered(w)
    ensures Tethered(Apply(w, act))
  {
    match act
    case Env(id, op) => EnvTethers(w, id, op);
    case Claim(a, id, revision, path, lease, now) => ClaimTethers(w, a, id, revision, path, lease, now);
    case Transmit(a, accepted) => TransmitTethers(w, a, accepted);
    case Settle(a, dbOk) => SettleTethers(w, a, dbOk);
    case Gate(a, ctx, declared, verdict) =>
      OthersStay(w, act);
      if w.At(a).Loaded? { RefusalIsBeforeSmtp(w.At(a).path, w.At(a).snap, ctx, declared, verdict); }
      TetherKeeps(w, Apply(w, act));
    case _ =>
      OthersStay(w, act);
      TetherKeeps(w, Apply(w, act));
  }

  lemma {:induction false} RunTethers(w: World, acts: seq<Action>)
    requires Initial(w)
    ensures Tethered(Run(w, acts))
  {
    if acts != [] {
      var n := |acts| - 1;
      RunTethers(w, acts[..n]);
      InitialInv(w);
      RunKeeps(w, acts[..n]);
      TetherStep(Run(w, acts[..n]), acts[n]);
    }
  }

  ghost predicate Unclaimable(row: Row) {
    forall op: Op :: op.Claims() ==> Exec(row, op).None?
  }

  lemma ClosedIsUnclaimable(row: Row)
    requires Closed(row.status)
    ensures Unclaimable(row)
  {
  }

  /**
   In every run, a draft is handed to SMTP at most once more than an immediate send
   has put it back after an SMTP error. After every attempt that was not put back
   the row is still `sending` under the transmitting lease, or sent, uncertain or
   discarded, and no claim can match it again.
   */
  lemma AttemptsBounded(w: World, acts: seq<Action>, id: Id)
    requires Initial(w)
    ensures var v := Run(w, acts);
            && Drops(v.log, id) <= Attempts(v.log, id) <= Drops(v.log, id) + 1
            && forall e :: e in v.log && e.Attempted? && e.id == id && !PutBack(v.log, id, e.lease) ==>
                 Fastened(v, id, e.lease) && Unclaimable(v.rows[id])
  {
    InitialInv(w);
    RunKeeps(w, acts);
    RunTethers(w, acts);
    var v := Run(w, acts);
    assert Spending(v, id);
    if id in v.rows && Closed(v.rows[id].status) { ClosedIsUnclaimable(v.rows[id]); }
  }

  /** This draft is claimed by the scheduled sweep alone; others may be sent in any way. */
  ghost predicate SweptOnly(acts: seq<Action>, id: Id) {
    forall act :: act in acts && act.Claim? && act.id == id ==> act.path.Scheduled?
  }

  lemma SettleDropsNothing(w: World, a: Sender, dbOk: bool, id: Id)
    requires w.At(a).Leaving? && w.At(a).id == id ==> !w.At(a).exit.DropGuard?
    ensures Drops(ApplySettle(w, a, dbOk).log, id) == Drops(w.log, id)
  {
    var p, log := w.At(a), ApplySettle(w, a, dbOk).log;
    if |log| > |w.log| {
      CountSnoc(w.log, log[|w.log|], id);
      if |log| > |w.log| + 1 { CountSnoc(w.log + [log[|w.log|]], log[|w.log| + 1], id); }
    }
  }

  lemma SweepStepDropsNothing(w: World, act: Action, id: Id)
    requires Inv(w) && (act.Claim? && act.id == id ==> act.path.Scheduled?)
    requires forall a :: w.At(a).Holding(id) ==> w.At(a).path.Scheduled?
    ensures Drops(Apply(w, act).log, id) == Drops(w.log, id)
    ensures forall a :: Apply(w, act).At(a).Holding(id) ==> Apply(w, act).At(a).path.Scheduled?
  {
    OthersStay(w, act);
    if !act.Env? && !act.Create? && w.At(act.who).Holds() { assert Owns(w, w.At(act.who)); }
    if act.Settle? {
      SettleDropsNothing(w, act.who, act.dbOk, id);
    } else {
      forall e: Event ensures !e.Dropped? ==> Drops(w.log + [e], id) == Drops(w.log, id) { CountSnoc(w.log, e, id); }
    }
  }

  lemma {:induction false} SweepNeverDrops(w: World, acts: seq<Action>, id: Id)
    requires Initial(w) && SweptOnly(acts, id)
    ensures Drops(Run(w, acts).log, id) == 0
    ensures forall a :: Run(w, acts).At(a).Holding(id) ==> Run(w, acts).At(a).path.Scheduled?
  {
    if acts != [] {
      var n := |acts| - 1;
      SweepNeverDrops(w, acts[..n], id);
      InitialInv(w);
      RunKeeps(w, acts[..n]);
      assert acts[n] in acts;
      SweepStepDropsNothing(Run(w, acts[..n]), acts[n], id);
    }
  }

  /** However the sweepers, editors and operators interleave, and whatever fails, no draft is transmitted twice. */
  lemma SweepTransmitsAtMostOnce(w: World, acts: seq<Action>, id: Id)
    requires Initial(w) && SweptOnly(acts, id)
    ensures Attempts(Run(w, acts).log, id) <= 1
  {
    AttemptsBounded(w, acts, id);
    SweepNeverDrops(w, acts, id);
  }
}
