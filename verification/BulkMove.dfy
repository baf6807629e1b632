/** When a bulk move can lose a message, exactly. */
module BulkMove {
  import opened UidSets
  import opened Bulk

  predicate Somewhere(m: Mailbox, t: Uid) {
    t in m.source || t in m.copies
  }

  /** Only a message that has been copied, or that a scoped expunge spares, may carry the deleted flag. */
  predicate Guarded(m: Mailbox, t: Uid) {
    Somewhere(m, t) && (m.uidplus || (m.IsDeleted(t) ==> t in m.copies))
  }

  /** And a message reported as moved has been copied. */
  predicate Honest(tally: Tally, t: Uid) {
    Guarded(tally.mailbox, t) && (t in tally.succeeded ==> t in tally.mailbox.copies)
  }

  /** One move over one sequence-set. */
  lemma MoveStep(m: Mailbox, uids: set<Uid>, sv: Server, t: Uid)
    ensures var (m', ok) := Apply(m, Move, uids, sv);
            && (Guarded(m, t) ==> Guarded(m', t))
            && (t in uids && Somewhere(m, t) ==> Somewhere(m', t) && (ok ==> t in m'.copies))
            && m.copies <= m'.copies
  {
  }

  lemma AttemptIsHonest(tally: Tally, call: Call, uids: seq<Uid>, server: Call -> Server, t: Uid)
    requires Honest(tally, t)
    ensures Honest(Attempt(tally, Move, call, uids, server).0, t)
  {
  }

  lemma {:induction false} RetryIsHonest(tally: Tally, uids: seq<Uid>, server: Call -> Server, t: Uid)
    requires Honest(tally, t)
    ensures Honest(Retry(tally, Move, uids, server), t)
  {
    if uids != [] {
      var p, last := uids[..|uids| - 1], uids[|uids| - 1];
      RetryIsHonest(tally, p, server, t);
      AttemptIsHonest(Retry(tally, Move, p, server), Single(last), [last], server, t);
    }
  }

  /** A guarded message is never lost, and never reported as moved without a copy. */
  lemma {:induction false} CallIsHonest(m: Mailbox, chunks: seq<seq<Uid>>, server: Call -> Server, t: Uid)
    requires Guarded(m, t)
    ensures Honest(RunChunks(Tally(m, [], []), Move, chunks, server), t)
  {
    if chunks != [] {
      var p, last := chunks[..|chunks| - 1], chunks[|chunks| - 1];
      CallIsHonest(m, p, server, t);
      var tally := RunChunks(Tally(m, [], []), Move, p, server);
      AttemptIsHonest(tally, Batch(last), last, server, t);
      var (tally', ok) := Attempt(tally, Move, Batch(last), last, server);
      if !ok { RetryIsHonest(tally', last, server, t); }
    }
  }

  lemma {:induction false} FlattenLength(chunks: seq<seq<Uid>>)
    requires forall i :: 0 <= i < |chunks| ==> 0 < |chunks[i]|
    ensures |chunks| <= |Flatten(chunks)|
  {
    if chunks != [] { FlattenLength(chunks[..|chunks| - 1]); }
  }

  lemma OneChunk(chunks: seq<seq<Uid>>, t: Uid)
    requires IsChunking(chunks, [t])
    ensures chunks == [[t]]
  {
    assert chunks != [];
    var p, last := chunks[..|chunks| - 1], chunks[|chunks| - 1];
    FlattenLength(p);
    assert |Flatten(p)| + |last| == 1;
    assert p == [] && Flatten(p) + last == last;
    assert chunks == p + [last];
  }

  /** A request for one message alone never loses it: nothing is expunged before it is copied. */
  lemma AloneIsSafe(m: Mailbox, chunks: seq<seq<Uid>>, server: Call -> Server, t: Uid)
    requires IsChunking(chunks, [t]) && Somewhere(m, t)
    ensures Somewhere(RunChunks(Tally(m, [], []), Move, chunks, server).mailbox, t)
  {
    OneChunk(chunks, t);
    var tally := Tally(m, [], []);
    assert chunks[..|chunks| - 1] == [] && [t][..|[t]| - 1] == [];
    assert RunChunks(tally, Move, chunks[..|chunks| - 1], server) == tally;
    MoveStep(m, AsSet([t]), server(Batch([t])), t);
    var (tally', ok) := Attempt(tally, Move, Batch([t]), [t], server);
    assert Retry(tally', Move, [t][..|[t]| - 1], server) == tally';
    if !ok { MoveStep(tally'.mailbox, AsSet([t]), server(Single(t)), t); }
  }

  // ---------------------------------------------------------------- a run that loses a message

  /** Refuses every batch and every copy of `t`; moves everything else, expunging all it can. */
  function Hostile(t: Uid): Call -> Server {
    (call: Call) => match call
      case Batch(_) => Server(true, false, {}, true, {}, true, {})
      case Single(u) => if u == t then Server(true, false, {}, true, {}, true, {})
                        else Server(true, true, {}, true, {u}, true, {u, t})
  }

  /** Not copied; gone from the source once another message has been moved. */
  predicate Doomed(m: Mailbox, t: Uid, gone: bool) {
    && !m.uidplus
    && t !in m.copies
    && if gone then t !in m.source else m.IsDeleted(t)
  }

  predicate Others(uids: seq<Uid>, t: Uid) {
    uids != [] && (uids[|uids| - 1] != t || Others(uids[..|uids| - 1], t))
  }

  lemma RefusedStep(m: Mailbox, uids: set<Uid>, sv: Server)
    requires sv == Server(true, false, {}, true, {}, true, {})
    ensures Apply(m, Move, uids, sv) == (m, false)
  {
    assert uids * sv.copiedAnyway * m.source.Keys == {};
    assert m.copies + {} == m.copies;
  }

  lemma OtherStep(m: Mailbox, u: Uid, sv: Server, t: Uid, gone: bool)
    requires Doomed(m, t, gone) && u != t && sv == Server(true, true, {}, true, {u}, true, {u, t})
    ensures Doomed(Apply(m, Move, {u}, sv).0, t, true)
  {
  }

  lemma {:induction false} RetryDooms(tally: Tally, uids: seq<Uid>, t: Uid, gone: bool)
    requires Doomed(tally.mailbox, t, gone)
    ensures Doomed(Retry(tally, Move, uids, Hostile(t)).mailbox, t, gone || Others(uids, t))
  {
    if uids != [] {
      var p, last := uids[..|uids| - 1], uids[|uids| - 1];
      RetryDooms(tally, p, t, gone);
      var m := Retry(tally, Move, p, Hostile(t)).mailbox;
      assert AsSet([last]) == {last};
      if last == t { RefusedStep(m, {last}, Hostile(t)(Single(last))); }
      else { OtherStep(m, last, Hostile(t)(Single(last)), t, gone || Others(p, t)); }
    }
  }

  lemma {:induction false} OthersAppend(a: seq<Uid>, b: seq<Uid>, t: Uid)
    ensures Others(a + b, t) <==> Others(a, t) || Others(b, t)
  {
    if b == [] {
      assert a + b == a;
    } else {
      OthersAppend(a, b[..|b| - 1], t);
      assert (a + b)[..|a + b| - 1] == a + b[..|b| - 1];
    }
  }

  lemma {:induction false} CallDooms(m: Mailbox, chunks: seq<seq<Uid>>, t: Uid)
    requires Doomed(m, t, false)
    ensures Doomed(RunChunks(Tally(m, [], []), Move, chunks, Hostile(t)).mailbox, t, Others(Flatten(chunks), t))
  {
    if chunks != [] {
      var p, last := chunks[..|chunks| - 1], chunks[|chunks| - 1];
      CallDooms(m, p, t);
      var tally := RunChunks(Tally(m, [], []), Move, p, Hostile(t));
      RefusedStep(tally.mailbox, AsSet(last), Hostile(t)(Batch(last)));
      RetryDooms(tally, last, t, Others(Flatten(p), t));
      OthersAppend(Flatten(p), last, t);
    }
  }

  lemma TwoAreEnough(uids: seq<Uid>, t: Uid)
    requires Increasing(uids) && |uids| >= 2
    ensures Others(uids, t)
  {
  }

  // ---------------------------------------------------------------- exactly when

  /** Some behaviour of the server takes `t` out of the source without a copy. */
  ghost predicate CanLose(m: Mailbox, chunks: seq<seq<Uid>>, t: Uid) {
    exists server: Call -> Server :: !Somewhere(RunChunks(Tally(m, [], []), Move, chunks, server).mailbox, t)
  }

  /**
   Whatever the server refuses, partly applies or misreports, a move keeps each
   target in the source or copied, unless all three hold: the server cannot scope
   an expunge, the target already carried the deleted flag, and the request names
   another message as well. In that case a server that refuses its copy does lose it.
   */
  lemma LosesExactlyWhen(m: Mailbox, uids: seq<Uid>, chunks: seq<seq<Uid>>, t: Uid)
    requires Increasing(uids) && IsChunking(chunks, uids)
    requires t in uids && t in m.source && t !in m.copies
    ensures CanLose(m, chunks, t) <==> !m.uidplus && m.IsDeleted(t) && |uids| >= 2
  {
    if !m.uidplus && m.IsDeleted(t) && |uids| >= 2 {
      CallDooms(m, chunks, t);
      TwoAreEnough(uids, t);
      assert !Somewhere(RunChunks(Tally(m, [], []), Move, chunks, Hostile(t)).mailbox, t);
    } else if |uids| == 1 {
      assert uids == [t];
      forall server: Call -> Server
        ensures Somewhere(RunChunks(Tally(m, [], []), Move, chunks, server).mailbox, t)
      {
        AloneIsSafe(m, chunks, server, t);
      }
    } else {
      forall server: Call -> Server
        ensures Somewhere(RunChunks(Tally(m, [], []), Move, chunks, server).mailbox, t)
      {
        CallIsHonest(m, chunks, server, t);
      }
    }
  }
}
