/** What every run of the sending protocol guarantees, beyond the count of attempts. */
module SendGuarantees {
  import opened Prelude
  import opened Attribution
  import opened AttributionPersist
  import opened DraftStore
  import opened SendSweep

  // ---------------------------------------------------------------- what is transmitted, and why

  /** The gate's reason holds of the snapshot that is transmitted. */
  ghost predicate Justified(path: Path, snap: Row, basis: Basis) {
    match basis
    case HumanSend => path.Scheduled? && snap.HumanSendAuthorized()
    case Governed(declared, ctx, require) =>
      && StateOf(Tokens(declared), ctx, require).Attributed?
      && (path.Immediate? ==> require)
      && (path.Scheduled? ==>
            && ctx.humanApproved == snap.HumanApproved()
            && (declared, require) == ScheduledInputs(snap.createdBy, snap.HumanApproved(), snap.declaration, snap.revision))
  }

  ghost predicate JustifiedSoFar(w: World) {
    && (forall e :: e in w.log && e.Attempted? ==> Justified(e.path, e.snap, e.basis))
    && (forall a :: w.At(a).Cleared? ==> Justified(w.At(a).path, w.At(a).snap, w.At(a).basis))
  }

  /** The basis is the request that was put to the Governor. */
  predicate Asks(path: Path, snap: Row, ctx: SendContext, given: seq<string>, basis: Basis)
    requires basis.Governed?
  {
    if path.Immediate? then basis == Governed(given, ctx, true)
    else basis.ctx == ctx.(humanApproved := snap.HumanApproved())
  }

  lemma DecisionJustified(path: Path, snap: Row, ctx: SendContext, given: seq<string>, verdict: Verdict)
    ensures var d := Decide(path, snap, ctx, given, verdict);
            d.Proceed? ==>
              Justified(path, snap, d.basis) && (d.basis.Governed? ==> verdict.Allow? && Asks(path, snap, ctx, given, d.basis))
  {
  }

  lemma JustifiedStep(w: World, act: Action)
    requires JustifiedSoFar(w)
    ensures JustifiedSoFar(Apply(w, act))
  {
    OthersStay(w, act);
    if act.Gate? && w.At(act.who).Loaded? {
      var p := w.At(act.who);
      DecisionJustified(p.path, p.snap, act.ctx, act.declared, act.verdict);
    }
  }

  lemma {:induction false} RunJustified(w: World, acts: seq<Action>)
    requires Initial(w)
    ensures JustifiedSoFar(Run(w, acts))
  {
    if acts != [] {
      RunJustified(w, acts[..|acts| - 1]);
      JustifiedStep(Run(w, acts[..|acts| - 1]), acts[|acts| - 1]);
    }
  }

  // ---------------------------------------------------------------- the Governor's allow

  /** Action `i` is sender `a` putting this snapshot and this content, held under this lease, to a Governor that allows it. */
  ghost predicate AllowedAt(w: World, acts: seq<Action>, i: nat, a: Sender, p: Phase)
    requires p.Cleared? && p.basis.Governed? && i < |acts|
  {
    && acts[i].Gate? && acts[i].who == a && acts[i].verdict.Allow?
    && Run(w, acts[..i]).At(a) == Loaded(p.id, p.lease, p.path, p.revision, p.snap, p.content)
    && Asks(p.path, p.snap, acts[i].ctx, acts[i].declared, p.basis)
  }

  ghost predicate Allowed(w: World, acts: seq<Action>, a: Sender, p: Phase)
    requires p.Cleared? && p.basis.Governed?
  {
    exists i :: 0 <= i < |acts| && AllowedAt(w, acts, i, a, p)
  }

  /** Action `j` is the transmission of event `e`, by a sender the Governor had allowed before. */
  ghost predicate SentAllowedAt(w: World, acts: seq<Action>, j: nat, e: Event)
    requires e.Attempted? && e.basis.Governed? && j < |acts|
  {
    && acts[j].Transmit?
    && var p := Run(w, acts[..j]).At(acts[j].who);
       && p.Cleared? && e == Attempted(p.id, p.lease, p.path, p.snap, p.content, p.basis)
       && Allowed(w, acts[..j], acts[j].who, p)
  }

  ghost predicate SentAllowed(w: World, acts: seq<Action>, e: Event)
    requires e.Attempted? && e.basis.Governed?
  {
    exists j :: 0 <= j < |acts| && SentAllowedAt(w, acts, j, e)
  }

  lemma AllowedLater(w: World, acts: seq<Action>, act: Action, a: Sender, p: Phase)
    requires p.Cleared? && p.basis.Governed? && Allowed(w, acts, a, p)
    ensures Allowed(w, acts + [act], a, p)
  {
    var i :| 0 <= i < |acts| && AllowedAt(w, acts, i, a, p);
    assert (acts + [act])[..i] == acts[..i];
    assert AllowedAt(w, acts + [act], i, a, p);
  }

  lemma SentAllowedLater(w: World, acts: seq<Action>, act: Action, e: Event)
    requires e.Attempted? && e.basis.Governed? && SentAllowed(w, acts, e)
    ensures SentAllowed(w, acts + [act], e)
  {
    var j :| 0 <= j < |acts| && SentAllowedAt(w, acts, j, e);
    assert (acts + [act])[..j] == acts[..j];
    assert SentAllowedAt(w, acts + [act], j, e);
  }

  lemma GateCleared(v: World, act: Action, a: Sender)
    requires var p := Apply(v, act).At(a); p.Cleared? && p.basis.Governed? && v.At(a) != p
    ensures var p := Apply(v, act).At(a);
            && act.Gate? && act.who == a && act.verdict.Allow?
            && v.At(a) == Loaded(p.id, p.lease, p.path, p.revision, p.snap, p.content)
            && Asks(p.path, p.snap, act.ctx, act.declared, p.basis)
  {
    OthersStay(v, act);
    if act.Gate? && v.At(a).Loaded? {
      DecisionJustified(v.At(a).path, v.At(a).snap, act.ctx, act.declared, act.verdict);
    }
  }

  /** A sender is cleared on a Governed basis only by a gate action the Governor allowed. */
  lemma {:induction false} ClearedWasAllowed(w: World, acts: seq<Action>, a: Sender)
    requires var p := Run(w, acts).At(a); p.Cleared? && p.basis.Governed?
    requires Initial(w)
    ensures Allowed(w, acts, a, Run(w, acts).At(a))
  {
    if acts != [] {
      var n := |acts| - 1;
      var (v, act) := (Run(w, acts[..n]), acts[n]);
      var p := Run(w, acts).At(a);
      assert acts == acts[..n] + [act];
      OthersStay(v, act);
      if v.At(a) == p {
        ClearedWasAllowed(w, acts[..n], a);
        AllowedLater(w, acts[..n], act, a, p);
      } else {
        GateCleared(v, act, a);
        assert AllowedAt(w, acts, n, a, p);
      }
    }
  }

  lemma OnlyTransmitAttempts(v: World, act: Action, e: Event)
    requires e.Attempted? && e in Apply(v, act).log && e !in v.log
    ensures act.Transmit?
    ensures var p := v.At(act.who); p.Cleared? && e == Attempted(p.id, p.lease, p.path, p.snap, p.content, p.basis)
  {
  }

  /** Every transmission on a Governed basis, by either path, follows a gate action of its sender that the Governor allowed. */
  lemma {:induction false} TransmittedWasAllowed(w: World, acts: seq<Action>, e: Event)
    requires Initial(w) && e in Run(w, acts).log && e.Attempted? && e.basis.Governed?
    ensures SentAllowed(w, acts, e)
  {
    var n := |acts| - 1;
    var (v, act) := (Run(w, acts[..n]), acts[n]);
    assert acts == acts[..n] + [act];
    if e in v.log {
      TransmittedWasAllowed(w, acts[..n], e);
      SentAllowedLater(w, acts[..n], act, e);
    } else {
      OnlyTransmitAttempts(v, act, e);
      ClearedWasAllowed(w, acts[..n], act.who);
      assert SentAllowedAt(w, acts, n, e);
    }
  }

  // ---------------------------------------------------------------- what a transmission rests on

  /** The content is the row's, or the provider's letter with the row's attachments. */
  predicate Composed(path: Path, snap: Row, content: Content) {
    content == Outgoing(path, snap, content.letter)
  }

  ghost predicate ComposedSoFar(w: World) {
    && (forall e :: e in w.log && e.Attempted? ==> Composed(e.path, e.snap, e.content))
    && (forall a :: w.At(a).Loaded? || w.At(a).Cleared? ==> Composed(w.At(a).path, w.At(a).snap, w.At(a).content))
  }

  lemma ComposedStep(w: World, act: Action)
    requires ComposedSoFar(w)
    ensures ComposedSoFar(Apply(w, act))
  {
    var w' := Apply(w, act);
    OthersStay(w, act);
    forall e | e in w'.log && e.Attempted? ensures Composed(e.path, e.snap, e.content) {
      if e !in w.log { OnlyTransmitAttempts(w, act, e); }
    }
  }

  lemma {:induction false} RunComposed(w: World, acts: seq<Action>)
    requires Initial(w)
    ensures ComposedSoFar(Run(w, acts))
  {
    if acts != [] {
      RunComposed(w, acts[..|acts| - 1]);
      ComposedStep(Run(w, acts[..|acts| - 1]), acts[|acts| - 1]);
    }
  }

  /**
   Whenever a sender is about to transmit, the row in the table is still the row it
   claimed: same lease, same revision, every field as in its snapshot. What it will
   transmit is that row's content, unless it found a copy of the draft at the
   provider; then the letter is the copy's, and Bcc and Reply-To are gone.
   */
  lemma TransmitsTheClaimedRevision(w: World, acts: seq<Action>, a: Sender)
    requires Initial(w) && Run(w, acts).At(a).Cleared?
    ensures var v := Run(w, acts);
            var p := v.At(a);
            && p.id in v.rows && v.rows[p.id] == p.snap
            && p.snap.status.Sending? && p.snap.token == Some(p.lease) && p.snap.revision == p.revision
            && Justified(p.path, p.snap, p.basis) && Composed(p.path, p.snap, p.content)
  {
    InitialInv(w);
    RunKeeps(w, acts);
    RunJustified(w, acts);
    RunComposed(w, acts);
    assert Owns(Run(w, acts), Run(w, acts).At(a));
  }

  /**
   Every transmission, by either path, either was a human's own dashboard send of
   that revision, or resolved as attributed and was allowed by the Governor on that
   very snapshot and lease. A scheduled one then had, unless a human wrote and
   approved the draft, a declaration made for that revision with an accepted key.
   */
  lemma EveryAttemptIsAnswered(w: World, acts: seq<Action>, e: Event)
    requires Initial(w) && e in Run(w, acts).log && e.Attempted?
    ensures e.basis.HumanSend? ==> e.path.Scheduled? && e.snap.HumanSendAuthorized()
    ensures e.basis.Governed? ==>
      StateOf(Tokens(e.basis.declared), e.basis.ctx, e.basis.require).Attributed? && SentAllowed(w, acts, e)
    ensures e.basis.Governed? && e.path.Immediate? ==> e.basis.require
    ensures e.basis.Governed? && e.path.Scheduled? ==>
      || (OriginOf(e.snap.createdBy, e.snap.declaration, e.snap.revision).Human? && e.snap.HumanApproved())
      || (e.snap.declaration.Some? && e.snap.declaration.value.IsCurrent(e.snap.revision)
          && exists d :: d in e.snap.declaration.value.declared && Accepted(e.basis.ctx, Trim(d)))
  {
    RunJustified(w, acts);
    if e.basis.Governed? { TransmittedWasAllowed(w, acts, e); }
    if e.basis.Governed? && e.path.Scheduled? {
      AttributedNeedsDeclaration(
        e.snap.createdBy, e.snap.HumanApproved(), e.snap.declaration, e.snap.revision, e.basis.ctx);
    }
  }

  // ---------------------------------------------------------------- leases

  lemma OthersLeaveItAlone(w: World, a: Sender, act: Action)
    requires Inv(w) && w.At(a).Holds() && !act.By(a)
    ensures var (id, w') := (w.At(a).id, Apply(w, act));
            w'.At(a) == w.At(a) && id in w.rows && id in w'.rows && w'.rows[id] == w.rows[id]
  {
    var id := w.At(a).id;
    assert Owns(w, w.At(a));
    if act.Env? && act.id == id && !act.op.NeedsSendLease() { ClaimedIsFrozen(w.rows[id], act.op); }
    if act.Settle? && w.At(act.who).Leaving? {
      assert Owns(w, w.At(act.who));
      OneHolder(w, a, id);
    }
  }

  /** No one else's action can touch a claimed row, nor move its holder. */
  lemma LeaseIsExclusive(w: World, acts: seq<Action>, a: Sender, act: Action)
    requires Initial(w) && Run(w, acts).At(a).Holds() && !act.By(a)
    ensures var v := Run(w, acts);
            var (id, v') := (v.At(a).id, Apply(v, act));
            v'.At(a) == v.At(a) && id in v.rows && id in v'.rows && v'.rows[id] == v.rows[id]
  {
    InitialInv(w);
    RunKeeps(w, acts);
    OthersLeaveItAlone(Run(w, acts), a, act);
  }

  /** A row leaves `sending` only by its lease holder's own statement. */
  lemma OnlyTheHolderReleases(w: World, acts: seq<Action>, act: Action, id: Id)
    requires Initial(w)
    requires var v := Run(w, acts); id in v.rows && v.rows[id].status.Sending?
    requires var v' := Apply(Run(w, acts), act); id !in v'.rows || v'.rows[id] != Run(w, acts).rows[id]
    ensures act.Settle? && act.dbOk
    ensures var v := Run(w, acts);
            var p := v.At(act.who);
            p.Leaving? && p.id == id && v.rows[id].token == Some(p.lease)
  {
    InitialInv(w);
    RunKeeps(w, acts);
    var v := Run(w, acts);
    if act.Env? && act.id == id && !act.op.NeedsSendLease() { ClaimedIsFrozen(v.rows[id], act.op); }
    if act.Settle? && v.At(act.who).Leaving? { assert Owns(v, v.At(act.who)); }
  }

  // ---------------------------------------------------------------- truthful reports

  /** The transition an outcome claims is one the row really made under this lease. */
  ghost predicate Backed(log: seq<Event>, id: Id, lease: Token, outcome: Outcome) {
    match outcome
    case SentDurably => Moved(id, lease, Sent) in log
    case Stopped => Moved(id, lease, PendingReview) in log
    case Deferred => Moved(id, lease, Draft) in log
    case _ => true
  }

  ghost predicate Truthful(w: World) {
    && (forall e :: e in w.log && e.Published? ==> Backed(w.log, e.id, e.lease, e.outcome))
    && (forall a :: w.At(a).Reporting? ==> Backed(w.log, w.At(a).id, w.At(a).lease, w.At(a).outcome))
  }

  lemma ExitStatus(row: Row, p: Phase)
    requires p.Leaving? && row.status.Sending? && row.token == Some(p.lease)
    ensures var r := Exec(row, p.exit.Statement(p.lease));
            r.Some? &&
            match p.exit.Outcome(true)
            case Some(SentDurably) => r.value.status.Sent?
            case Some(Stopped) => r.value.status.PendingReview? && r.value.sendAfter.None?
            case Some(Deferred) => r.value.status.Draft? && r.value.sendAfter == row.sendAfter
            case _ => true
  {
  }

  lemma SettleTruthful(w: World, a: Sender, dbOk: bool)
    requires Inv(w) && Truthful(w)
    ensures Truthful(ApplySettle(w, a, dbOk))
  {
    var p, w' := w.At(a), ApplySettle(w, a, dbOk);
    if p.Leaving? {
      assert Owns(w, p);
      ExitStatus(w.rows[p.id], p);
      assert forall b :: b != a ==> w'.At(b) == w.At(b);
      assert forall e :: e in w.log ==> e in w'.log;
      assert forall e :: e in w'.log && e.Published? ==> e in w.log;
    }
  }

  lemma TruthfulStep(w: World, act: Action)
    requires Inv(w) && Truthful(w)
    ensures Truthful(Apply(w, act))
  {
    if act.Settle? {
      SettleTruthful(w, act.who, act.dbOk);
    } else {
      var w' := Apply(w, act);
      OthersStay(w, act);
      assert forall e :: e in w.log ==> e in w'.log;
      assert forall e :: e in w'.log && e.Published? ==> Backed(w.log, e.id, e.lease, e.outcome);
    }
  }

  /** Every published `sent`, `blocked` or `deferred` is backed by the row's own transition. */
  lemma {:induction false} ReportsAreTruthful(w: World, acts: seq<Action>)
    requires Initial(w)
    ensures Truthful(Run(w, acts))
  {
    if acts != [] {
      ReportsAreTruthful(w, acts[..|acts| - 1]);
      InitialInv(w);
      RunKeeps(w, acts[..|acts| - 1]);
      TruthfulStep(Run(w, acts[..|acts| - 1]), acts[|acts| - 1]);
    }
  }

  /** `delivery_uncertain` promises nothing: it is published when the park failed, the row still `sending`. */
  lemma DoubtIsPublishedUnparked(w: World, a: Sender)
    requires Inv(w) && w.At(a).Leaving? && w.At(a).exit.Inconclusive? && w.At(a).path.Scheduled?
    ensures var p := w.At(a);
            var w' := Apply(Apply(w, Settle(a, false)), Publish(a));
            && w'.log == w.log + [Published(p.id, p.lease, DeliveryInDoubt)]
            && w'.rows == w.rows && w'.rows[p.id].status.Sending?
  {
  }
}
