/**
 Bulk operations on a mailbox whose server may fail any step, apply it to only some
 of the messages, or report success for less than it was asked.
 */
module Bulk {
  import opened Prelude
  import opened UidSets

  const BULK_UID_LIMIT: nat := 500
  const DELETED := "\\Deleted"

  type Flag = string

  /** The source folder, each message with its flags, and what reached the destination, by source UID. */
  datatype Mailbox = Mailbox(source: map<Uid, set<Flag>>, copies: set<Uid>, uidplus: bool)
  {
    predicate IsDeleted(u: Uid) { u in source && DELETED in source[u] }
  }

  datatype Op = Move | Copy | FlagAdd(flag: Flag) | FlagRemove(flag: Flag) | Delete

  /**
   What the server does with one call. A refused COPY may have copied some messages;
   a STORE or EXPUNGE may miss some whatever it reports, since item errors are dropped.
   */
  datatype Server = Server(
    selects: bool, copies: bool, copiedAnyway: set<Uid>, stores: bool, stored: set<Uid>, expunges: bool, expunged: set<Uid>)

  // ---------------------------------------------------------------- server steps

  function UidCopy(m: Mailbox, uids: set<Uid>, sv: Server): Mailbox {
    m.(copies := m.copies + (if sv.copies then uids else uids * sv.copiedAnyway) * m.source.Keys)
  }

  function UidStore(m: Mailbox, uids: set<Uid>, flag: Flag, add: bool, sv: Server): Mailbox {
    m.(source := map u | u in m.source ::
      if u !in uids || u !in sv.stored then m.source[u]
      else if add then m.source[u] + {flag} else m.source[u] - {flag})
  }

  /** Scoped to `uids` with UIDPLUS (section 2.1 of RFC 4315); every deleted message without. */
  function Expunge(m: Mailbox, uids: set<Uid>, sv: Server): Mailbox {
    m.(source := map u | u in m.source && !(u in sv.expunged && m.IsDeleted(u) && (m.uidplus ==> u in uids)) :: m.source[u])
  }

  function Remove(m: Mailbox, uids: set<Uid>, sv: Server): (Mailbox, bool) {
    var s := UidStore(m, uids, DELETED, true, sv);
    if sv.stores then (Expunge(s, uids, sv), sv.expunges) else (s, false)
  }

  /** One operation over one sequence-set; false as soon as a step reports an error. */
  function Apply(m: Mailbox, op: Op, uids: set<Uid>, sv: Server): (Mailbox, bool) {
    if !sv.selects then (m, false)
    else match op
         case Copy => (UidCopy(m, uids, sv), sv.copies)
         case FlagAdd(flag) => (UidStore(m, uids, flag, true, sv), sv.stores)
         case FlagRemove(flag) => (UidStore(m, uids, flag, false, sv), sv.stores)
         case Delete => Remove(m, uids, sv)
         case Move =>
           var c := UidCopy(m, uids, sv);
           if sv.copies then Remove(c, uids, sv) else (c, false)
  }

  // ---------------------------------------------------------------- a whole call

  /** What the server does with each call: the batch over a chunk, or the retry of one UID. */
  datatype Call = Batch(chunk: seq<Uid>) | Single(uid: Uid)

  datatype Tally = Tally(mailbox: Mailbox, succeeded: seq<Uid>, failed: seq<Uid>)

  function Attempt(t: Tally, op: Op, call: Call, uids: seq<Uid>, server: Call -> Server): (Tally, bool) {
    var (m, ok) := Apply(t.mailbox, op, AsSet(uids), server(call));
    (t.(mailbox := m, succeeded := if ok then t.succeeded + uids else t.succeeded), ok)
  }

  /** One UID at a time, so that a bad one sinks only itself. */
  function Retry(t: Tally, op: Op, uids: seq<Uid>, server: Call -> Server): Tally {
    if uids == [] then t
    else
      var last := uids[|uids| - 1];
      var (t', ok) := Attempt(Retry(t, op, uids[..|uids| - 1], server), op, Single(last), [last], server);
      if ok then t' else t'.(failed := t'.failed + [last])
  }

  function RunChunk(t: Tally, op: Op, chunk: seq<Uid>, server: Call -> Server): Tally {
    var (t', ok) := Attempt(t, op, Batch(chunk), chunk, server);
    if ok then t' else Retry(t', op, chunk, server)
  }

  function RunChunks(t: Tally, op: Op, chunks: seq<seq<Uid>>, server: Call -> Server): Tally {
    if chunks == [] then t
    else RunChunk(RunChunks(t, op, chunks[..|chunks| - 1], server), op, chunks[|chunks| - 1], server)
  }

  /** Every UID ends in exactly one of the two lists. */
  ghost predicate Partitions(succeeded: seq<Uid>, failed: seq<Uid>, uids: seq<Uid>) {
    Distinct(succeeded + failed) && Elements(succeeded + failed) == Elements(uids)
  }

  /** Explicit UIDs, or a search and what it found; None when the search failed. */
  datatype Target = Uids(uids: seq<Uid>) | Search(found: Option<seq<Uid>>)
  {
    ghost function Wanted(): Option<set<Uid>> {
      match this
      case Uids(us) => Some(Elements(us))
      case Search(None) => None
      case Search(Some(us)) => Some(Elements(us))
    }
  }

  datatype BulkError = NoTargets | LimitExceeded(count: nat) | SearchFailed

  datatype Code = ImapError | NotFound | FetchFailed | NoMessageId | StoreError

  datatype BulkFailure = BulkFailure(uid: Uid, code: Code)

  datatype BulkResult = BulkResult(resolved: seq<Uid>, succeeded: seq<Uid>, failed: seq<BulkFailure>, dryRun: bool)

  function FailedUids(failed: seq<BulkFailure>): (r: seq<Uid>)
    ensures |r| == |failed| && forall i :: 0 <= i < |r| ==> r[i] == failed[i].uid
  {
    if failed == [] then [] else FailedUids(failed[..|failed| - 1]) + [failed[|failed| - 1].uid]
  }

  /** Every failure of a server operation carries the one code. */
  function ImapFailures(uids: seq<Uid>): (r: seq<BulkFailure>)
    ensures FailedUids(r) == uids && forall f :: f in r ==> f.code.ImapError?
  {
    if uids == [] then []
    else
      var p := ImapFailures(uids[..|uids| - 1]);
      assert (p + [BulkFailure(uids[|uids| - 1], ImapError)])[..|p|] == p;
      p + [BulkFailure(uids[|uids| - 1], ImapError)]
  }

  /** An operation on the server, or a tag in the local store. */
  datatype BulkOp = OnServer(op: Op) | Tag(tag: string)

  datatype Outcome = Done(result: BulkResult) | Rejected(error: BulkError)

  method ResolveTarget(target: Target) returns (uids: Option<seq<Uid>>)
    ensures uids.None? <==> target.Wanted().None?
    ensures uids.Some? ==> Increasing(uids.value) && Elements(uids.value) == target.Wanted().value
  {
    match target {
      case Uids(us) =>
        var s := SortDedup(us);
        uids := Some(s);
      case Search(None) => uids := None;
      case Search(Some(us)) =>
        var s := SortDedup(us);
        uids := Some(s);
    }
  }

  /** Refused, or resolved to the sorted targets. */
  ghost predicate Answers(wanted: Option<set<Uid>>, r: Outcome) {
    match wanted
    case None => r == Rejected(SearchFailed)
    case Some(us) =>
      if us == {} then r == Rejected(NoTargets)
      else if |us| > BULK_UID_LIMIT then r == Rejected(LimitExceeded(|us|))
      else r.Done? && Increasing(r.result.resolved) && Elements(r.result.resolved) == us
  }

  /** The list cut in order into non-empty chunks of at most CHUNK_SIZE. */
  ghost predicate IsChunking(chunks: seq<seq<Uid>>, uids: seq<Uid>) {
    Flatten(chunks) == uids && forall i :: 0 <= i < |chunks| ==> 0 < |chunks[i]| <= CHUNK_SIZE
  }

  /** The outcome is that of working the chunks off in order. */
  ghost predicate RanChunked(m: Mailbox, op: Op, uids: seq<Uid>, server: Call -> Server, end: Tally) {
    exists chunks :: IsChunking(chunks, uids) && RunChunks(Tally(m, [], []), op, chunks, server) == end
  }

  // ---------------------------------------------------------------- tagging

  /** What the server says about one message, and, once its Message-ID is known, the store about its tag. */
  datatype Fetched = Found(messageId: Option<string>) | Absent | Unfetchable

  datatype TagStep = TagStep(fetched: Fetched, stores: bool) {
    predicate Tagged() { fetched.Found? && fetched.messageId.Some? && stores }

    /** What each code says went wrong. */
    predicate FailsWith(c: Code) {
      match c
      case NotFound => fetched.Absent?
      case FetchFailed => fetched.Unfetchable?
      case NoMessageId => fetched == Found(None)
      case StoreError => fetched.Found? && fetched.messageId.Some? && !stores
      case ImapError => false
    }
  }

  /** The UIDs of `uids` for which `p` holds, in order. */
  function Where(uids: seq<Uid>, p: Uid -> bool): (r: seq<Uid>)
    ensures forall u :: u in r <==> u in uids && p(u)
  {
    if uids == [] then []
    else
      var last := uids[|uids| - 1];
      assert uids == uids[..|uids| - 1] + [last];
      Where(uids[..|uids| - 1], p) + if p(last) then [last] else []
  }

  /** Every UID is in one list: those tagged in order, the others with the code of what went wrong. */
  ghost predicate Sorts(succeeded: seq<Uid>, failed: seq<BulkFailure>, uids: seq<Uid>, step: Uid -> TagStep) {
    && Partitions(succeeded, FailedUids(failed), uids)
    && succeeded == Where(uids, u => step(u).Tagged())
    && forall f :: f in failed ==> step(f.uid).FailsWith(f.code)
  }

  lemma InsertKeepsDistinct(a: seq<Uid>, b: seq<Uid>, u: Uid)
    requires Distinct(a + b) && u !in a + b
    ensures Distinct(a + [u] + b)
  {
    var s, t := a + b, a + [u] + b;
    forall i, j | 0 <= i < j < |t| ensures t[i] != t[j] {
      assert i < |a| ==> t[i] == s[i];
      assert i > |a| ==> t[i] == s[i - 1];
      assert j < |a| ==> t[j] == s[j];
      assert j > |a| ==> t[j] == s[j - 1];
    }
  }

  /** A new UID may join either list. */
  lemma OneMore(succeeded: seq<Uid>, failed: seq<Uid>, uids: seq<Uid>, u: Uid)
    requires Partitions(succeeded, failed, uids) && Distinct(uids + [u])
    ensures Partitions(succeeded + [u], failed, uids + [u]) && Partitions(succeeded, failed + [u], uids + [u])
  {
    forall i | 0 <= i < |uids| ensures uids[i] != u { assert (uids + [u])[i] != (uids + [u])[|uids|]; }
    var all := succeeded + failed;
    assert forall x :: x in all <==> x in Elements(uids);
    DistinctAppend(all, [u]);
    assert all + [u] == succeeded + (failed + [u]);
    ElementsAppend(all, [u]);
    ElementsAppend(uids, [u]);
    ElementsAppend(succeeded + [u], failed);
    ElementsAppend(succeeded, [u]);
    ElementsAppend(succeeded, failed);
    InsertKeepsDistinct(succeeded, failed, u);
  }

  lemma SortOne(
    succeeded: seq<Uid>, failed: seq<BulkFailure>, uids: seq<Uid>, u: Uid, step: Uid -> TagStep, code: Option<Code>)
    requires Sorts(succeeded, failed, uids, step) && Distinct(uids + [u])
    requires if code.None? then step(u).Tagged() else !step(u).Tagged() && step(u).FailsWith(code.value)
    ensures if code.None? then Sorts(succeeded + [u], failed, uids + [u], step)
            else Sorts(succeeded, failed + [BulkFailure(u, code.value)], uids + [u], step)
  {
    OneMore(succeeded, FailedUids(failed), uids, u);
    assert (uids + [u])[..|uids|] == uids;
    if code.Some? {
      var more := failed + [BulkFailure(u, code.value)];
      assert more[..|failed|] == failed;
    }
  }

  /** What the store gains. */
  function TagsOf(uids: seq<Uid>, tag: string, step: Uid -> TagStep): (r: set<(string, string)>)
    ensures forall u :: u in uids && step(u).Tagged() ==> (step(u).fetched.messageId.value, tag) in r
    ensures forall x :: x in r ==>
      exists u :: u in uids && step(u).Tagged() && x == (step(u).fetched.messageId.value, tag)
  {
    set u | u in uids && step(u).Tagged() :: (step(u).fetched.messageId.value, tag)
  }

  lemma NextTag(uids: seq<Uid>, i: nat, tag: string, step: Uid -> TagStep)
    requires i < |uids| && Increasing(uids)
    ensures uids[..i + 1] == uids[..i] + [uids[i]] && Distinct(uids[..i] + [uids[i]])
    ensures TagsOf(uids[..i + 1], tag, step) ==
            TagsOf(uids[..i], tag, step) +
            if step(uids[i]).Tagged() then {(step(uids[i]).fetched.messageId.value, tag)} else {}
  {
    assert uids[..i + 1] == uids[..i] + [uids[i]] && uids[..i + 1][..i] == uids[..i];
    IncreasingIsDistinct(uids);
  }

  // ---------------------------------------------------------------- what is not there does not matter

  lemma StorePresent(m: Mailbox, uids: set<Uid>, named: set<Uid>, flag: Flag, add: bool, sv: Server)
    requires named == uids * m.source.Keys
    ensures UidStore(m, uids, flag, add, sv) == UidStore(m, named, flag, add, sv)
  {
  }

  lemma ExpungePresent(m: Mailbox, uids: set<Uid>, named: set<Uid>, sv: Server)
    requires named == uids * m.source.Keys
    ensures Expunge(m, uids, sv) == Expunge(m, named, sv)
  {
  }

  lemma RemovePresent(m: Mailbox, uids: set<Uid>, named: set<Uid>, sv: Server)
    requires named == uids * m.source.Keys
    ensures Remove(m, uids, sv) == Remove(m, named, sv)
  {
    StorePresent(m, uids, named, DELETED, true, sv);
    var s := UidStore(m, uids, DELETED, true, sv);
    assert s.source.Keys == m.source.Keys;
    ExpungePresent(s, uids, named, sv);
  }

  /** A step over a sequence-set concerns only the messages that exist. */
  lemma OnlyPresentMatter(m: Mailbox, op: Op, uids: set<Uid>, named: set<Uid>, sv: Server)
    requires named == uids * m.source.Keys
    ensures Apply(m, op, uids, sv) == Apply(m, op, named, sv)
  {
    assert (if sv.copies then uids else uids * sv.copiedAnyway) * m.source.Keys
        == (if sv.copies then named else named * sv.copiedAnyway) * m.source.Keys;
    match op
    case FlagAdd(flag) => StorePresent(m, uids, named, flag, true, sv);
    case FlagRemove(flag) => StorePresent(m, uids, named, flag, false, sv);
    case Delete => RemovePresent(m, uids, named, sv);
    case Move => RemovePresent(UidCopy(m, uids, sv), uids, named, sv);
    case Copy =>
  }

  // ---------------------------------------------------------------- every UID is accounted for

  lemma {:induction false} RetryPartitions(t: Tally, op: Op, uids: seq<Uid>, server: Call -> Server, done: seq<Uid>)
    requires Distinct(done + uids) && Partitions(t.succeeded, t.failed, done)
    ensures var r := Retry(t, op, uids, server); Partitions(r.succeeded, r.failed, done + uids)
  {
    if uids == [] {
      assert done + uids == done;
    } else {
      var p, last := uids[..|uids| - 1], uids[|uids| - 1];
      assert done + uids == done + p + [last];
      assert (done + uids)[..|done + p|] == done + p;
      RetryPartitions(t, op, p, server, done);
      var r := Retry(t, op, p, server);
      OneMore(r.succeeded, r.failed, done + p, last);
    }
  }

  lemma {:induction false} ManyMore(succeeded: seq<Uid>, failed: seq<Uid>, uids: seq<Uid>, more: seq<Uid>)
    requires Partitions(succeeded, failed, uids) && Distinct(uids + more)
    ensures Partitions(succeeded + more, failed, uids + more)
  {
    if more == [] {
      assert succeeded + more == succeeded && uids + more == uids;
    } else {
      var p, last := more[..|more| - 1], more[|more| - 1];
      assert uids + more == uids + p + [last] && succeeded + more == succeeded + p + [last];
      assert (uids + more)[..|uids + p|] == uids + p;
      ManyMore(succeeded, failed, uids, p);
      OneMore(succeeded + p, failed, uids + p, last);
    }
  }

  lemma ChunkPartitions(t: Tally, op: Op, chunk: seq<Uid>, server: Call -> Server, done: seq<Uid>)
    requires Distinct(done + chunk) && Partitions(t.succeeded, t.failed, done)
    ensures var r := RunChunk(t, op, chunk, server); Partitions(r.succeeded, r.failed, done + chunk)
  {
    var (t', ok) := Attempt(t, op, Batch(chunk), chunk, server);
    if ok { ManyMore(t.succeeded, t.failed, done, chunk); } else { RetryPartitions(t', op, chunk, server, done); }
  }

  /** Whatever the server does, every UID of the chunks ends in exactly one list. */
  lemma {:induction false} CallPartitions(m: Mailbox, op: Op, chunks: seq<seq<Uid>>, server: Call -> Server)
    requires Distinct(Flatten(chunks))
    ensures var r := RunChunks(Tally(m, [], []), op, chunks, server); Partitions(r.succeeded, r.failed, Flatten(chunks))
  {
    if chunks != [] {
      var p, last := chunks[..|chunks| - 1], chunks[|chunks| - 1];
      assert Flatten(chunks)[..|Flatten(p)|] == Flatten(p);
      CallPartitions(m, op, p, server);
      ChunkPartitions(RunChunks(Tally(m, [], []), op, p, server), op, last, server, Flatten(p));
    }
  }

  // ---------------------------------------------------------------- the connection

  /** The connection to one mailbox; `server` foretells how each call goes. */
  class Client {
    var mailbox: Mailbox
    var tags: set<(string, string)>            // the local store: Message-ID and tag

    constructor (m: Mailbox, stored: set<(string, string)>)
      ensures mailbox == m && tags == stored
    {
      mailbox, tags := m, stored;
    }

    method ApplyImapOp(op: Op, runs: seq<Run>, ghost uids: seq<Uid>, sv: Server) returns (ok: bool)
      requires Denotes(runs, Elements(uids))
      modifies this`mailbox
      ensures (mailbox, ok) == Apply(old(mailbox), op, AsSet(uids), sv)
    {
      var named := set u: Uid | u in mailbox.source && (exists i :: 0 <= i < |runs| && runs[i].Covers(u));
      OnlyPresentMatter(mailbox, op, AsSet(uids), named, sv);
      var applied := Apply(mailbox, op, named, sv);
      mailbox, ok := applied.0, applied.1;
    }

    /** Batch the chunk; if that fails, isolate the culprits one UID at a time. */
    method ExecuteChunk(op: Op, chunk: seq<Uid>, server: Call -> Server, done: seq<Uid>, bad: seq<Uid>)
      returns (succeeded: seq<Uid>, failed: seq<Uid>)
      modifies this`mailbox
      ensures Tally(mailbox, succeeded, failed) == RunChunk(Tally(old(mailbox), done, bad), op, chunk, server)
    {
      ghost var start := Tally(mailbox, done, bad);
      var runs := CoalesceUids(chunk);
      var ok := ApplyImapOp(op, runs, chunk, server(Batch(chunk)));
      if ok { return done + chunk, bad; }
      ghost var t := Attempt(start, op, Batch(chunk), chunk, server).0;
      succeeded, failed := done, bad;
      for i := 0 to |chunk|
        invariant Tally(mailbox, succeeded, failed) == Retry(t, op, chunk[..i], server)
      {
        assert chunk[..i + 1][..i] == chunk[..i];
        var single := CoalesceUids([chunk[i]]);
        var applied := ApplyImapOp(op, single, [chunk[i]], server(Single(chunk[i])));
        if applied { succeeded := succeeded + [chunk[i]]; } else { failed := failed + [chunk[i]]; }
      }
      assert chunk[..|chunk|] == chunk;
    }

    /** Chunk by chunk. */
    method ExecuteChunks(chunks: seq<seq<Uid>>, op: Op, server: Call -> Server) returns (succeeded: seq<Uid>, failed: seq<Uid>)
      modifies this`mailbox
      ensures Tally(mailbox, succeeded, failed) == RunChunks(Tally(old(mailbox), [], []), op, chunks, server)
    {
      succeeded, failed := [], [];
      for i := 0 to |chunks|
        invariant Tally(mailbox, succeeded, failed) == RunChunks(Tally(old(mailbox), [], []), op, chunks[..i], server)
      {
        assert chunks[..i + 1][..i] == chunks[..i];
        succeeded, failed := ExecuteChunk(op, chunks[i], server, succeeded, failed);
      }
      assert chunks[..|chunks|] == chunks;
    }

    /** Work a server operation off, chunk by chunk. */
    method ExecuteOnServer(uids: seq<Uid>, op: Op, server: Call -> Server)
      returns (succeeded: seq<Uid>, failed: seq<BulkFailure>)
      requires Increasing(uids)
      modifies this`mailbox
      ensures Partitions(succeeded, FailedUids(failed), uids) && forall f :: f in failed ==> f.code.ImapError?
      ensures RanChunked(old(mailbox), op, uids, server, Tally(mailbox, succeeded, FailedUids(failed)))
    {
      var chunks := ChunkUids(uids);
      SameIncreasing(Flatten(chunks), uids);
      IncreasingIsDistinct(uids);
      CallPartitions(mailbox, op, chunks, server);
      var ok, bad := ExecuteChunks(chunks, op, server);
      succeeded, failed := ok, ImapFailures(bad);
      assert RanChunked(old(mailbox), op, uids, server, Tally(mailbox, succeeded, bad)) by {
        assert IsChunking(chunks, uids);
      }
    }

    /** Fetch one message and tag it under its Message-ID; None when the tag is stored. */
    method TagMessage(tag: string, answer: TagStep) returns (code: Option<Code>)
      modifies this`tags
      ensures code.None? <==> answer.Tagged()
      ensures code.Some? ==> answer.FailsWith(code.value)
      ensures tags == old(tags) + if answer.Tagged() then {(answer.fetched.messageId.value, tag)} else {}
    {
      match answer.fetched {
        case Absent => return Some(NotFound);
        case Unfetchable => return Some(FetchFailed);
        case Found(None) => return Some(NoMessageId);
        case Found(Some(messageId)) =>
          if !answer.stores { return Some(StoreError); }
          tags := tags + {(messageId, tag)};
          return None;
      }
    }

    /** Tag message by message; the tag is stored for exactly the messages that succeeded. */
    method ExecuteTag(uids: seq<Uid>, tag: string, step: Uid -> TagStep)
      returns (succeeded: seq<Uid>, failed: seq<BulkFailure>)
      requires Increasing(uids)
      modifies this`tags
      ensures Partitions(succeeded, FailedUids(failed), uids)
      ensures succeeded == Where(uids, u => step(u).Tagged())
      ensures forall f :: f in failed ==> step(f.uid).FailsWith(f.code)
      ensures tags == old(tags) + TagsOf(uids, tag, step)
    {
      succeeded, failed := [], [];
      assert Partitions([], [], uids[..0]);
      for i := 0 to |uids|
        invariant Sorts(succeeded, failed, uids[..i], step)
        invariant tags == old(tags) + TagsOf(uids[..i], tag, step)
      {
        var uid := uids[i];
        NextTag(uids, i, tag, step);
        var code := TagMessage(tag, step(uid));
        SortOne(succeeded, failed, uids[..i], uid, step, code);
        if code.None? { succeeded := succeeded + [uid]; } else { failed := failed + [BulkFailure(uid, code.value)]; }
      }
      assert uids[..|uids|] == uids;
    }

    /** Resolve, refuse an empty or oversized request, and work it off. */
    method Execute(target: Target, op: BulkOp, dryRun: bool, server: Call -> Server, step: Uid -> TagStep)
      returns (r: Outcome)
      modifies this
      ensures Answers(target.Wanted(), r)
      ensures r.Rejected? || dryRun ==> mailbox == old(mailbox) && tags == old(tags)
      ensures r.Done? ==> r.result.dryRun == dryRun
      ensures r.Done? && dryRun ==> r.result.succeeded == [] && r.result.failed == []
      ensures r.Done? && !dryRun ==>
        Partitions(r.result.succeeded, FailedUids(r.result.failed), r.result.resolved)
      ensures r.Done? && !dryRun && op.OnServer? ==>
        && tags == old(tags) && (forall f :: f in r.result.failed ==> f.code.ImapError?)
        && RanChunked(old(mailbox), op.op, r.result.resolved, server,
                      Tally(mailbox, r.result.succeeded, FailedUids(r.result.failed)))
      ensures r.Done? && !dryRun && op.Tag? ==>
        && mailbox == old(mailbox) && tags == old(tags) + TagsOf(r.result.resolved, op.tag, step)
        && r.result.succeeded == Where(r.result.resolved, u => step(u).Tagged())
        && (forall f :: f in r.result.failed ==> step(f.uid).FailsWith(f.code))
    {
      var resolved := ResolveTarget(target);
      if resolved.None? { return Rejected(SearchFailed); }
      var uids := resolved.value;
      SizeOfIncreasing(uids);
      if uids == [] { return Rejected(NoTargets); }
      assert uids[0] in Elements(uids);
      if |uids| > BULK_UID_LIMIT { return Rejected(LimitExceeded(|uids|)); }
      if dryRun { return Done(BulkResult(uids, [], [], true)); }
      var succeeded, failed;
      match op {
        case Tag(tag) => succeeded, failed := ExecuteTag(uids, tag, step);
        case OnServer(serverOp) => succeeded, failed := ExecuteOnServer(uids, serverOp, server);
      }
      r := Done(BulkResult(uids, succeeded, failed, false));
    }
  }
}
