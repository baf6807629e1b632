/**
 The drafts table: one row per draft, and every statement that may touch it.
 A statement either matches the row and rewrites it as a whole, or matches
 nothing; there is no partial effect.
 */
module DraftStore {
  import opened Prelude
  import opened AttributionPersist

  datatype Status = Draft | PendingReview | Sending | Syncing | Blocked | DeliveryUncertain | Sent | Discarded {
    predicate IsEditable() { Draft? || PendingReview? || Blocked? }

    predicate IsQueueable() { Draft? || PendingReview? }
  }

  type Token = nat

  /** A human surface's mark on one revision; `wellTimed` when its timestamp parses as RFC 3339. */
  datatype Stamp = Stamp(surface: string, wellTimed: bool, revision: int)

  /** What a message says; `letter` is its visible recipients, subject and bodies. */
  datatype Content = Content(letter: string, bcc: Option<string>, replyTo: Option<string>, attachments: string)

  const DASHBOARD_SEND_SURFACE := "human:dashboard"

  datatype Row = Row(
    status: Status,
    revision: int,
    content: Content,
    createdBy: Option<string>,
    sendAfter: Option<int>,
    token: Option<Token>,
    declaration: Option<PersistedDeclaration>,
    approval: Option<Stamp>,
    humanSend: Option<Stamp>,
    sendBlock: bool)
  {
    predicate Bound(stamp: Option<Stamp>) {
      stamp.Some? && "human:" <= stamp.value.surface && stamp.value.wellTimed && stamp.value.revision == revision
    }

    predicate HumanApproved() { Bound(approval) }

    predicate Due(now: int) { status.Draft? && sendAfter.Some? && sendAfter.value <= now }

    /** The pending send is one a human queued from the dashboard, and it is still current. */
    predicate HumanSendAuthorized() {
      Bound(humanSend) && humanSend.value.surface == DASHBOARD_SEND_SURFACE && HumanApproved()
    }

    function Declare(d: PersistedDeclaration): Row {
      this.(declaration := Some(d.(revision := revision)))
    }

    function Approve(surface: string, wellTimed: bool): Row {
      if HumanApproved() then this else this.(approval := Some(Stamp(surface, wellTimed, revision)))
    }

    function Revise(newContent: Content): Row {
      this.(content := newContent, revision := revision + 1, approval := None, humanSend := None)
    }
  }

  datatype Op =
    // edits and human decisions
    | Edit(expected: Option<int>, content: Content)
    | SetMetadata(content: Content, declared: Option<PersistedDeclaration>)
    | SetStatus(to: Status)
    | SetSendAfter(at: int)
    | SetAttribution(value: PersistedDeclaration)
    | Hold
    | ApproveRevision(viewed: int, surface: string, wellTimed: bool)
    | QueueHumanSend(viewed: int, at: int, surface: string, wellTimed: bool)
    | QueueForSend(viewed: int, at: int, value: PersistedDeclaration)
    | QueueCorrection(viewed: int, at: int, value: PersistedDeclaration)
    | Discard
    // provider sync, under its own lease
    | ClaimForSync(viewed: int, lease: Token)
    | SyncedEdit(lease: Token, content: Content, declared: Option<PersistedDeclaration>)
    | ReleaseSync(lease: Token, to: Status)
    // sending, under the owner lease
    | ClaimDue(viewed: int, lease: Token, now: int)
    | ClaimNow(viewed: int, lease: Token)
    | MarkSent(lease: Token)
    | ParkUncertain(lease: Token)
    | Release(lease: Token, to: Status)
    | DeferRetry(lease: Token, value: PersistedDeclaration)
    | ParkExhausted(lease: Token, value: PersistedDeclaration)
    | ParkReview(lease: Token)
  {
    /** Only a holder of the `sending` lease issues these. */
    predicate NeedsSendLease() {
      MarkSent? || ParkUncertain? || Release? || DeferRetry? || ParkExhausted? || ParkReview?
    }

    predicate Claims() { ClaimDue? || ClaimNow? }
  }

  /** The row after a statement that matched it, or None when the statement matched nothing. */
  function Exec(row: Row, op: Op): Option<Row> {
    var owns := (lease: Token) => row.status.Sending? && row.token == Some(lease);
    var syncs := (lease: Token) => row.status.Syncing? && row.token == Some(lease);
    match op
    case Edit(expected, content) =>
      if row.status.IsEditable() && (expected.None? || expected.value == row.revision)
      then Some(row.Revise(content)) else None
    case SetMetadata(content, declared) =>
      if row.status.IsEditable()
      then Some(row.Revise(content).(declaration := declared, sendBlock := false)) else None
    case SetStatus(to) =>
      if row.status.IsEditable() then Some(row.(status := to)) else None
    case SetSendAfter(at) =>
      if row.status.IsEditable() then Some(row.(sendAfter := Some(at))) else None
    case SetAttribution(value) =>
      if row.status.IsEditable() then Some(row.Declare(value)) else None
    case Hold =>
      if row.status.Draft? && row.sendAfter.Some?
      then Some(row.(sendAfter := None, approval := None, humanSend := None)) else None
    case ApproveRevision(viewed, surface, wellTimed) =>
      if row.status.IsEditable() && row.revision == viewed
      then Some(row.(status := Draft).Approve(surface, wellTimed)) else None
    case QueueHumanSend(viewed, at, surface, wellTimed) =>
      if row.status.IsQueueable() && row.revision == viewed
      then Some(row.(status := Draft, sendAfter := Some(at)).Approve(surface, wellTimed)
                   .(humanSend := Some(Stamp(surface, wellTimed, viewed)))) else None
    case QueueForSend(viewed, at, value) =>
      if row.status.IsQueueable() && row.revision == viewed
      then Some(row.(status := Draft, sendAfter := Some(at), humanSend := None).Declare(value)) else None
    case QueueCorrection(viewed, at, value) =>
      if (row.status.PendingReview? || row.status.Blocked?) && row.revision == viewed
         && row.humanSend.None? && value.origin.BotDeclared? && value.declared != []
      then Some(row.(status := Draft, sendAfter := Some(at), sendBlock := false).Declare(value)) else None
    case Discard =>
      if row.status.IsEditable() || row.status.DeliveryUncertain? then Some(row.(status := Discarded)) else None
    case ClaimForSync(viewed, lease) =>
      if row.status.IsEditable() && row.revision == viewed
      then Some(row.(status := Syncing, token := Some(lease))) else None
    case SyncedEdit(lease, content, declared) =>
      if syncs(lease) then Some(row.Revise(content).(declaration := declared, sendBlock := false)) else None
    case ReleaseSync(lease, to) =>
      if syncs(lease) then Some(row.(status := to, token := None)) else None
    case ClaimDue(viewed, lease, now) =>
      if row.revision == viewed && row.Due(now)
      then Some(row.(status := Sending, token := Some(lease))) else None
    case ClaimNow(viewed, lease) =>
      if row.revision == viewed && row.status.Draft?
      then Some(row.(status := Sending, token := Some(lease))) else None
    case MarkSent(lease) =>
      if owns(lease) then Some(row.(status := Sent, token := None, sendAfter := None)) else None
    case ParkUncertain(lease) =>
      if owns(lease) then Some(row.(status := DeliveryUncertain, token := None, sendAfter := None)) else None
    case Release(lease, to) =>
      if owns(lease) then Some(row.(status := to, token := None)) else None
    case DeferRetry(lease, value) =>
      if owns(lease) then Some(row.(status := Draft, token := None).Declare(value)) else None
    case ParkExhausted(lease, value) =>
      if owns(lease)
      then Some(row.(status := PendingReview, token := None, sendAfter := None).Declare(value)) else None
    case ParkReview(lease) =>
      if owns(lease)
      then Some(row.(status := PendingReview, token := None, sendAfter := None, sendBlock := true)) else None
  }

  function Step(row: Row, op: Op): Row {
    match Exec(row, op) case Some(r) => r case None => row
  }

  function Steps(row: Row, ops: seq<Op>): Row {
    if ops == [] then row else Step(Steps(row, ops[..|ops| - 1]), ops[|ops| - 1])
  }

  // ------------------------------------------------------ send authorization over histories

  /** A Human-only Send of the present revision, from the dashboard, that took effect. */
  predicate Grants(row: Row, op: Op) {
    && op.QueueHumanSend?
    && Exec(row, op).Some?
    && op.surface == DASHBOARD_SEND_SURFACE
    && op.wellTimed
  }

  /** An edit, hold or requeue that took effect: whatever was authorized no longer is. */
  predicate Withdraws(row: Row, op: Op) {
    && Exec(row, op).Some?
    && (op.Edit? || op.SetMetadata? || op.SyncedEdit? || op.Hold? || op.QueueForSend? || op.QueueHumanSend?)
  }

  predicate GrantsAt(row: Row, ops: seq<Op>, i: nat)
    requires i < |ops|
  {
    Grants(Steps(row, ops[..i]), ops[i])
  }

  predicate WithdrawsAt(row: Row, ops: seq<Op>, i: nat)
    requires i < |ops|
  {
    Withdraws(Steps(row, ops[..i]), ops[i])
  }

  /** The last queue transition was a dashboard Human-only Send, at index `i`, and nothing withdrew it since. */
  ghost predicate GrantedAt(row: Row, ops: seq<Op>, i: int) {
    && 0 <= i < |ops|
    && GrantsAt(row, ops, i)
    && forall j :: i < j < |ops| ==> !WithdrawsAt(row, ops, j)
  }

  ghost predicate Granted(row: Row, ops: seq<Op>) {
    exists i :: GrantedAt(row, ops, i)
  }

  /** A current send stamp never stands without a current approval. */
  predicate SendImpliesApproval(row: Row) {
    row.Bound(row.humanSend) ==> row.HumanApproved()
  }

  /** One statement keeps, grants or withdraws the authorization. */
  lemma AuthorizationStep(row: Row, op: Op)
    requires SendImpliesApproval(row)
    ensures SendImpliesApproval(Step(row, op))
    ensures Step(row, op).HumanSendAuthorized() <==>
            Grants(row, op) || (row.HumanSendAuthorized() && !Withdraws(row, op))
  {
  }

  lemma SamePrefix(row: Row, ops: seq<Op>, i: nat)
    requires i < |ops| - 1
    ensures var p := ops[..|ops| - 1];
            GrantsAt(row, p, i) == GrantsAt(row, ops, i) && WithdrawsAt(row, p, i) == WithdrawsAt(row, ops, i)
  {
    assert ops[..|ops| - 1][..i] == ops[..i];
  }

  lemma GrantedExtends(row: Row, ops: seq<Op>, i: int)
    requires 0 <= i < |ops| - 1
    ensures var n := |ops| - 1;
            GrantedAt(row, ops, i) <==> GrantedAt(row, ops[..n], i) && !WithdrawsAt(row, ops, n)
  {
    var n := |ops| - 1;
    SamePrefix(row, ops, i);
    if GrantedAt(row, ops, i) {
      assert !WithdrawsAt(row, ops, n);
      forall j | i < j < n ensures !WithdrawsAt(row, ops[..n], j) { SamePrefix(row, ops, j); }
    }
    if GrantedAt(row, ops[..n], i) && !WithdrawsAt(row, ops, n) {
      forall j | i < j < |ops| ensures !WithdrawsAt(row, ops, j) { if j < n { SamePrefix(row, ops, j); } }
    }
  }

  lemma GrantedSnoc(row: Row, ops: seq<Op>)
    requires ops != []
    ensures var n := |ops| - 1;
            Granted(row, ops) <==> GrantsAt(row, ops, n) || (Granted(row, ops[..n]) && !WithdrawsAt(row, ops, n))
  {
    var n := |ops| - 1;
    forall i | 0 <= i < n
      ensures GrantedAt(row, ops, i) <==> GrantedAt(row, ops[..n], i) && !WithdrawsAt(row, ops, n)
    {
      GrantedExtends(row, ops, i);
    }
    assert GrantedAt(row, ops, n) <==> GrantsAt(row, ops, n);
    if Granted(row, ops) {
      var i :| GrantedAt(row, ops, i);
      assert i < n ==> GrantedAt(row, ops[..n], i);
    }
    if Granted(row, ops[..n]) && !WithdrawsAt(row, ops, n) {
      var i :| GrantedAt(row, ops[..n], i);
      assert GrantedAt(row, ops, i);
    }
  }

  /**
   Over every history, the Governor exception holds exactly when the latest queue
   transition was a dashboard Human-only Send of the present revision and no edit,
   hold or requeue has taken effect since.
   */
  lemma {:induction false} ExceptionIffLatestHumanSend(row: Row, ops: seq<Op>)
    requires row.humanSend.None?
    ensures SendImpliesApproval(Steps(row, ops))
    ensures Steps(row, ops).HumanSendAuthorized() <==> Granted(row, ops)
  {
    if ops != [] {
      ExceptionIffLatestHumanSend(row, ops[..|ops| - 1]);
      AuthorizationStep(Steps(row, ops[..|ops| - 1]), ops[|ops| - 1]);
      GrantedSnoc(row, ops);
    }
  }

  /** Every change of revision withdraws. */
  lemma RevisionStays(row: Row, op: Op)
    requires !Withdraws(row, op)
    ensures Step(row, op).revision == row.revision
  {
  }

  /** The send that stands is one of the revision the row has now. */
  lemma {:induction false} GrantIsOfThePresentRevision(row: Row, ops: seq<Op>, i: nat)
    requires GrantedAt(row, ops, i)
    ensures ops[i].viewed == Steps(row, ops).revision
    decreases |ops|
  {
    var n := |ops| - 1;
    if i < n {
      GrantedExtends(row, ops, i);
      GrantIsOfThePresentRevision(row, ops[..n], i);
      RevisionStays(Steps(row, ops[..n]), ops[n]);
    }
  }
}
