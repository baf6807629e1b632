/**
 What goes out for a claim, whatever anybody does after it. The sweep sends the
 content it claimed. An immediate send takes the letter from the provider's
 Drafts folder when there is a copy of the draft there, after the claim, and
 nothing ties that copy to the claimed revision.
 */
module SentContent {
  import opened Prelude
  import opened Attribution
  import opened DraftStore
  import opened SendSweep
  import opened SendGuarantees
  import opened ImmediateSend

  /** Whoever holds this lease holds this row on this path, and nothing else was handed to SMTP under it. */
  ghost predicate Tied(w: World, lease: Token, id: Id, path: Path, row: Row) {
    && lease in w.minted
    && (forall a :: w.At(a).Holds() && w.At(a).lease == lease ==>
          w.At(a).id == id && w.At(a).path == path && id in w.rows && w.rows[id] == row)
    && (forall e :: e in w.log && e.Attempted? && e.lease == lease ==> e.id == id && e.path == path && e.snap == row)
  }

  /** A holder that keeps its lease keeps its path and leaves its row alone. */
  lemma OwnStep(w: World, act: Action, a: Sender, lease: Token)
    requires Inv(w) && act.By(a) && lease in w.minted
    requires Apply(w, act).At(a).Holds() && Apply(w, act).At(a).lease == lease
    ensures var (p, q) := (w.At(a), Apply(w, act).At(a));
            && p.Holds() && p.lease == lease && q.id == p.id && q.path == p.path
            && p.id in w.rows && p.id in Apply(w, act).rows && Apply(w, act).rows[p.id] == w.rows[p.id]
  {
    if w.At(a).Holds() { assert Owns(w, w.At(a)); }
    if act.Settle? && w.At(a).Leaving? { ExitMatches(w.rows[w.At(a).id], w.At(a)); }
  }

  lemma MintedStays(w: World, act: Action, lease: Token)
    requires lease in w.minted
    ensures lease in Apply(w, act).minted
  {
  }

  lemma TiedStep(w: World, act: Action, lease: Token, id: Id, path: Path, row: Row)
    requires Inv(w) && Tied(w, lease, id, path, row)
    ensures Tied(Apply(w, act), lease, id, path, row)
  {
    var w' := Apply(w, act);
    MintedStays(w, act, lease);
    forall a | w'.At(a).Holds() && w'.At(a).lease == lease
      ensures w'.At(a).id == id && w'.At(a).path == path && id in w'.rows && w'.rows[id] == row
    {
      OthersStay(w, act);
      if act.By(a) { OwnStep(w, act, a, lease); } else { OthersLeaveItAlone(w, a, act); }
    }
    forall e | e in w'.log && e.Attempted? && e.lease == lease
      ensures e.id == id && e.path == path && e.snap == row
    {
      if e !in w.log {
        OnlyTransmitAttempts(w, act, e);
        assert Owns(w, w.At(act.who));
      }
    }
  }

  lemma {:induction false} RunTied(w: World, acts: seq<Action>, lease: Token, id: Id, path: Path, row: Row)
    requires Inv(w) && Tied(w, lease, id, path, row)
    ensures Tied(Run(w, acts), lease, id, path, row)
  {
    if acts != [] {
      var n := |acts| - 1;
      RunTied(w, acts[..n], lease, id, path, row);
      RunKeeps(w, acts[..n]);
      TiedStep(Run(w, acts[..n]), acts[n], lease, id, path, row);
    }
  }

  lemma ClaimTies(w: World, acts: seq<Action>, a: Sender)
    requires Initial(w) && Run(w, acts).At(a).Claimed?
    ensures var v := Run(w, acts);
            var p := v.At(a);
            Inv(v) && p.id in v.rows && Tied(v, p.lease, p.id, p.path, v.rows[p.id])
  {
    InitialInv(w);
    RunKeeps(w, acts);
    RunTethers(w, acts);
    assert Owns(Run(w, acts), Run(w, acts).At(a));
  }

  /** Whatever happens next, an attempt under this lease sends this content. */
  ghost predicate Sends(v: World, lease: Token, content: Content) {
    forall more, e :: e in Run(v, more).log && e.Attempted? && e.lease == lease ==> e.content == content
  }

  lemma Refutes(v: World, lease: Token, content: Content, more: seq<Action>, e: Event)
    requires e in Run(v, more).log && e.Attempted? && e.lease == lease && e.content != content
    ensures !Sends(v, lease, content)
  {
  }

  /** After a claim, every attempt under its lease is made for the claimed row, whatever anybody does. */
  lemma AttemptIsOfTheClaim(w: World, acts: seq<Action>, a: Sender, more: seq<Action>, e: Event)
    requires Initial(w) && Run(w, acts).At(a).Claimed?
    requires e in Run(Run(w, acts), more).log && e.Attempted? && e.lease == Run(w, acts).At(a).lease
    ensures var v := Run(w, acts);
            var p := v.At(a);
            && p.id in v.rows && e.id == p.id && e.path == p.path && e.snap == v.rows[p.id]
            && Composed(p.path, e.snap, e.content)
  {
    var v := Run(w, acts);
    ClaimTies(w, acts, a);
    RunTied(v, more, v.At(a).lease, v.At(a).id, v.At(a).path, v.rows[v.At(a).id]);
    RunAppend(w, acts, more);
    RunComposed(w, acts + more);
  }

  lemma RunThree(w: World, a1: Action, a2: Action, a3: Action)
    ensures Run(w, [a1, a2, a3]) == Apply(Apply(Apply(w, a1), a2), a3)
  {
    RunOne(w, a1);
    RunSnoc(w, [a1], a2);
    RunSnoc(w, [a1] + [a2], a3);
    assert [a1, a2, a3] == [a1] + [a2] + [a3];
  }

  /** With a copy at the provider, its letter of the moment goes out, whatever it says. */
  lemma CopyGoesOut(v: World, a: Sender, copy: string, ctx: SendContext)
    requires var p := v.At(a); p.Claimed? && p.path.Immediate? && p.id in v.rows
    ensures var p := v.At(a);
            var v' := Run(v, [Load(a, true, copy), Gate(a, ctx, DECLARED, Allow), Transmit(a, true)]);
            exists e :: e in v'.log && e.Attempted? && e.lease == p.lease &&
                        e.content == Outgoing(p.path, v.rows[p.id], copy)
  {
    var p := v.At(a);
    var u := Apply(v, Load(a, true, copy));
    var content, basis := Outgoing(p.path, v.rows[p.id], copy), Governed(DECLARED, ctx, true);
    RunThree(v, Load(a, true, copy), Gate(a, ctx, DECLARED, Allow), Transmit(a, true));
    GateApplies(u, a, ctx, DECLARED, Allow);
    Passes(p.path, v.rows[p.id], ctx, DECLARED, Allow);
    var e := Attempted(p.id, p.lease, p.path, v.rows[p.id], content, basis);
    assert Apply(u, Gate(a, ctx, DECLARED, Allow)).At(a) ==
           Cleared(p.id, p.lease, p.path, p.revision, v.rows[p.id], content, basis);
    assert e in Apply(Apply(u, Gate(a, ctx, DECLARED, Allow)), Transmit(a, true)).log;
  }

  /**
   A claim is sent with the content that was claimed, whatever everybody does and
   whatever the provider holds, if and only if the path is the schedule's or the
   sender saw no copy of the draft at the provider.
   */
  lemma SendsWhatItClaimedIff(w: World, acts: seq<Action>, a: Sender)
    requires Initial(w) && Run(w, acts).At(a).Claimed?
    ensures var v := Run(w, acts);
            var p := v.At(a);
            p.id in v.rows && (Sends(v, p.lease, v.rows[p.id].content) <==> !p.path.HasCopy())
  {
    var v := Run(w, acts);
    var p := v.At(a);
    ClaimTies(w, acts, a);
    var content := v.rows[p.id].content;
    if p.path.HasCopy() {
      var ctx: SendContext := *;
      var copy := content.letter + ['x'];
      var more := [Load(a, true, copy), Gate(a, ctx, DECLARED, Allow), Transmit(a, true)];
      CopyGoesOut(v, a, copy, ctx);
      var e :| e in Run(v, more).log && e.Attempted? && e.lease == p.lease &&
               e.content == Outgoing(p.path, v.rows[p.id], copy);
      Refutes(v, p.lease, content, more, e);
    } else {
      forall more, e | e in Run(v, more).log && e.Attempted? && e.lease == p.lease ensures e.content == content {
        AttemptIsOfTheClaim(w, acts, a, more, e);
      }
    }
  }
}
