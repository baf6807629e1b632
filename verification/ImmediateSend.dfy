/**
 Why the bound on attempts counts the drops: an immediate send puts its row back
 as a draft when SMTP reports an error, and nothing stops it from being sent again.
 */
module ImmediateSend {
  import opened Prelude
  import opened Attribution
  import opened AttributionPersist
  import opened DraftStore
  import opened SendSweep

  const DECLARED: seq<string> := [Name(Informational)]

  function Attempt(
    a: Sender, id: Id, revision: int, path: Path, lease: Token, copy: string, ctx: SendContext): seq<Action>
  {
    [ Claim(a, id, revision, path, lease, 0), Load(a, true, copy), Gate(a, ctx, DECLARED, Allow),
      Transmit(a, false), Settle(a, true) ]
  }

  function Retries(
    a: Sender, id: Id, revision: int, path: Path, lease: Token, copy: string, ctx: SendContext, n: nat): seq<Action>
    decreases n
  {
    if n == 0 then []
    else Attempt(a, id, revision, path, lease, copy, ctx) + Retries(a, id, revision, path, lease + 1, copy, ctx, n - 1)
  }

  lemma DeclaredResolves(ctx: SendContext, declared: seq<string>)
    requires declared == DECLARED
    ensures StateOf(Tokens(declared), ctx, true) == State.Attributed
  {
    KeyOfName(Informational);
    NameIsTrimmed(Informational);
    DeclarableResolves(declared, ctx, true);
  }

  lemma ClaimAndLoad(w: World, a: Sender, id: Id, path: Path, lease: Token, copy: string)
    requires path.Immediate? && w.At(a).Idle? && id in w.rows && lease !in w.minted && w.rows[id].status.Draft?
    ensures var row := w.rows[id];
            var u := Apply(Apply(w, Claim(a, id, row.revision, path, lease, 0)), Load(a, true, copy));
            var held := row.(status := Sending, token := Some(lease));
            && u.rows == w.rows[id := held] && u.minted == w.minted + {lease} && u.log == w.log
            && u.At(a) == Loaded(id, lease, path, row.revision, held, Outgoing(path, held, copy))
  {
  }

  lemma Passes(path: Path, snap: Row, ctx: SendContext, declared: seq<string>, verdict: Verdict)
    requires path.Immediate? && declared == DECLARED && verdict.Allow?
    ensures Decide(path, snap, ctx, declared, verdict) == Proceed(Governed(declared, ctx, true))
  {
    DeclaredResolves(ctx, declared);
  }

  /** An SMTP error after the gate leaves the claim to its guard. */
  lemma SmtpFails(w: World, a: Sender, basis: Basis)
    requires w.At(a).Loaded? && w.At(a).path.Immediate?
    ensures var p := w.At(a);
            Apply(ApplyGate(w, a, p, Proceed(basis)), Transmit(a, false)) ==
            w.Goto(a, Cleared(p.id, p.lease, p.path, p.revision, p.snap, p.content, basis))
             .Goto(a, Leaving(p.id, p.lease, p.path, p.revision, DropGuard))
             .Note(Attempted(p.id, p.lease, p.path, p.snap, p.content, basis))
  {
  }

  /** The guard releases the claim back to `draft`. */
  lemma GuardReleases(w: World, a: Sender)
    requires var p := w.At(a);
             && p.Leaving? && p.exit.DropGuard? && p.id in w.rows
             && w.rows[p.id].status.Sending? && w.rows[p.id].token == Some(p.lease)
    ensures var p := w.At(a);
            var w' := Apply(w, Settle(a, true));
            && w'.At(a).Idle? && w'.minted == w.minted
            && w'.rows == w.rows[p.id := w.rows[p.id].(status := Draft, token := None)]
            && w'.log == w.log + [Moved(p.id, p.lease, Draft)] + [Dropped(p.id, p.lease)]
  {
  }

  lemma FailAndDrop(w: World, a: Sender, basis: Basis, id: Id)
    requires var p := w.At(a);
             && p.Loaded? && p.path.Immediate? && p.id == id && id in w.rows
             && w.rows[id].status.Sending? && w.rows[id].token == Some(p.lease)
    ensures var p := w.At(a);
            var w' := Apply(Apply(ApplyGate(w, a, p, Proceed(basis)), Transmit(a, false)), Settle(a, true));
            && w'.At(a).Idle? && w'.minted == w.minted
            && w'.rows == w.rows[id := w.rows[id].(status := Draft, token := None)]
            && Attempts(w'.log, id) == Attempts(w.log, id) + 1
            && Drops(w'.log, id) == Drops(w.log, id) + 1
  {
    var p := w.At(a);
    var e1 := Attempted(id, p.lease, p.path, p.snap, p.content, basis);
    var e2, e3 := Moved(id, p.lease, Draft), Dropped(id, p.lease);
    SmtpFails(w, a, basis);
    GuardReleases(Apply(ApplyGate(w, a, p, Proceed(basis)), Transmit(a, false)), a);
    CountSnoc(w.log, e1, id);
    CountSnoc(w.log + [e1], e2, id);
    CountSnoc(w.log + [e1] + [e2], e3, id);
  }

  lemma OneAttempt(
    w: World, a: Sender, id: Id, revision: int, path: Path, lease: Token, copy: string, ctx: SendContext)
    requires path.Immediate? && w.At(a).Idle? && id in w.rows && lease !in w.minted
    requires w.rows[id].status.Draft? && w.rows[id].revision == revision
    ensures var w' := Run(w, Attempt(a, id, revision, path, lease, copy, ctx));
            && w'.At(a).Idle? && w'.minted == w.minted + {lease}
            && id in w'.rows && w'.rows[id].status.Draft? && w'.rows[id].revision == revision
            && Attempts(w'.log, id) == Attempts(w.log, id) + 1
            && Drops(w'.log, id) == Drops(w.log, id) + 1
  {
    RunFive(w, Claim(a, id, revision, path, lease, 0), Load(a, true, copy), Gate(a, ctx, DECLARED, Allow),
            Transmit(a, false), Settle(a, true));
    ClaimAndLoad(w, a, id, path, lease, copy);
    var u := Apply(Apply(w, Claim(a, id, revision, path, lease, 0)), Load(a, true, copy));
    GateApplies(u, a, ctx, DECLARED, Allow);
    Passes(path, u.At(a).snap, ctx, DECLARED, Allow);
    FailAndDrop(u, a, Governed(DECLARED, ctx, true), id);
  }

  lemma RetriesUnroll(
    w: World, a: Sender, id: Id, revision: int, path: Path, lease: Token, copy: string, ctx: SendContext, n: nat)
    requires n > 0
    ensures Run(w, Retries(a, id, revision, path, lease, copy, ctx, n)) ==
            Run(Run(w, Attempt(a, id, revision, path, lease, copy, ctx)),
                Retries(a, id, revision, path, lease + 1, copy, ctx, n - 1))
  {
    RunAppend(w, Attempt(a, id, revision, path, lease, copy, ctx), Retries(a, id, revision, path, lease + 1, copy, ctx, n - 1));
  }

  /** For every n there is a run that hands one draft to SMTP n times: at most once is false of the immediate send. */
  lemma {:induction false} ImmediateSendRepeats(
    w: World, a: Sender, id: Id, revision: int, path: Path, lease: Token, copy: string, ctx: SendContext, n: nat)
    requires path.Immediate? && w.At(a).Idle? && id in w.rows && w.rows[id].status.Draft? && w.rows[id].revision == revision
    requires forall l :: l in w.minted ==> l < lease
    ensures var w' := Run(w, Retries(a, id, revision, path, lease, copy, ctx, n));
            && Attempts(w'.log, id) == Attempts(w.log, id) + n
            && Drops(w'.log, id) == Drops(w.log, id) + n
    decreases n
  {
    if n > 0 {
      OneAttempt(w, a, id, revision, path, lease, copy, ctx);
      RetriesUnroll(w, a, id, revision, path, lease, copy, ctx, n);
      var w' := Run(w, Attempt(a, id, revision, path, lease, copy, ctx));
      ImmediateSendRepeats(w', a, id, revision, path, lease + 1, copy, ctx, n - 1);
    }
  }
}
