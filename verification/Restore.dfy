/**
 Restoring an archive: per message a pending line, the append, a done line, with a
 crash or an error possible at every point, and the log read back by the next run.
 */
module Restore {
  import opened Prelude
  import opened Text
  import opened Manifest
  import opened RestorePlan

  /** The log on disk and the copies of archived messages in the destination mailbox. */
  datatype Disk = Disk(log: seq<Line>, mailbox: multiset<Key>)

  /** A log write: done; nothing written; or the line landed but the caller never learnt so. */
  datatype Write = Written | Lost | Unconfirmed

  datatype Search = Absent | Found | Broken

  /** APPEND may take effect although it reports an error, or although the process dies. */
  datatype Append = Accepted | Refused(applied: bool) | Died(applied: bool)

  /** What befalls one message. */
  datatype Luck = Luck(
    alive: bool, readable: bool, digestMatches: bool, search: Search,
    found: Write, pending: Write, append: Append, done: Write)

  datatype Outcome = Appended | Skipped | Failed | Aborted

  function WriteLine(d: Disk, key: Key, status: LogStatus, w: Write): Disk {
    if w.Lost? then d else d.(log := d.log + [Entry(key, status)])
  }

  function Deliver(d: Disk, key: Key, applied: bool): Disk {
    if applied then d.(mailbox := d.mailbox + multiset{key}) else d
  }

  /** One message, from the safety checks to the done line. */
  function RestoreStep(d: Disk, r: MessageRecord, luck: Luck): (Disk, Outcome) {
    var key := KeyOf(r);
    if !luck.alive then (d, Aborted)
    else if !luck.readable || !luck.digestMatches then (d, Failed)
    else if r.messageId.Some? && luck.search.Broken? then (d, Aborted)
    else if r.messageId.Some? && luck.search.Found? then
      (WriteLine(d, key, Done, luck.found), if luck.found.Written? then Skipped else Aborted)
    else
      var p := WriteLine(d, key, Pending, luck.pending);
      if !luck.pending.Written? then (p, Aborted)
      else match luck.append
           case Refused(applied) => (Deliver(p, key, applied), Failed)
           case Died(applied) => (Deliver(p, key, applied), Aborted)
           case Accepted =>
             (WriteLine(Deliver(p, key, true), key, Done, luck.done), if luck.done.Written? then Appended else Aborted)
  }

  /** The lines a step has added. */
  function Gained(d: Disk, d': Disk): seq<Line>
    requires |d.log| <= |d'.log|
  {
    d'.log[|d.log|..]
  }

  /**
   What an outcome promises. The log only grows, by lines of this key; the mailbox
   gains at most one copy, and only behind a pending line; and a settled outcome
   names exactly the lines and the copy it stands for.
   */
  predicate Accounts(d: Disk, d': Disk, key: Key, o: Outcome) {
    && d.log <= d'.log
    && (forall l :: l in Gained(d, d') ==> l.Entry? && l.key == key)
    && (d'.mailbox == d.mailbox ||
         (d'.mailbox == d.mailbox + multiset{key} && [Entry(key, Pending)] <= Gained(d, d')))
    && match o
       case Appended =>
         d'.mailbox == d.mailbox + multiset{key} && Gained(d, d') == [Entry(key, Pending), Entry(key, Done)]
       case Skipped => d'.mailbox == d.mailbox && Gained(d, d') == [Entry(key, Done)]
       case Failed => d' == d || Gained(d, d') == [Entry(key, Pending)]
       case Aborted =>
         || Gained(d, d') <= [Entry(key, Pending), Entry(key, Done)]
         || (Gained(d, d') == [Entry(key, Done)] && d'.mailbox == d.mailbox)
  }

  lemma StepAccounts(d: Disk, r: MessageRecord, luck: Luck)
    ensures var (d', o) := RestoreStep(d, r, luck); Accounts(d, d', KeyOf(r), o)
  {
    var (d', o) := RestoreStep(d, r, luck);
    var key := KeyOf(r);
    if r.messageId.Some? && luck.search.Found? {
      assert d'.log == d.log || d'.log == d.log + [Entry(key, Done)];
    } else {
      assert || d'.log == d.log
             || d'.log == d.log + [Entry(key, Pending)]
             || d'.log == d.log + [Entry(key, Pending), Entry(key, Done)];
    }
  }

  predicate Halted(outcomes: seq<Outcome>) {
    outcomes != [] && outcomes[|outcomes| - 1].Aborted?
  }

  /** Go on with the next message, unless the run has been aborted. */
  function Continue(state: (Disk, seq<Outcome>), r: MessageRecord, luck: Key -> Luck): (Disk, seq<Outcome>) {
    if Halted(state.1) then state
    else
      var (d, o) := RestoreStep(state.0, r, luck(KeyOf(r)));
      (d, state.1 + [o])
  }

  /** The messages in order, up to the first abort. */
  function RestoreAll(d: Disk, records: seq<MessageRecord>, luck: Key -> Luck): (Disk, seq<Outcome>) {
    if records == [] then (d, [])
    else Continue(RestoreAll(d, records[..|records| - 1], luck), records[|records| - 1], luck)
  }

  lemma RestoreSnoc(d: Disk, records: seq<MessageRecord>, r: MessageRecord, luck: Key -> Luck)
    ensures RestoreAll(d, records + [r], luck) == Continue(RestoreAll(d, records, luck), r, luck)
  {
    assert (records + [r])[..|records|] == records;
  }

  lemma {:induction false} HaltedForGood(d: Disk, records: seq<MessageRecord>, rest: seq<MessageRecord>, luck: Key -> Luck)
    requires Halted(RestoreAll(d, records, luck).1)
    ensures RestoreAll(d, records + rest, luck) == RestoreAll(d, records, luck)
  {
    if rest == [] {
      assert records + rest == records;
    } else {
      var n := |rest| - 1;
      HaltedForGood(d, records, rest[..n], luck);
      RestoreSnoc(d, records + rest[..n], rest[n], luck);
      assert records + rest == records + rest[..n] + [rest[n]];
    }
  }

  lemma RestoreNext(d: Disk, records: seq<MessageRecord>, j: nat, luck: Key -> Luck)
    requires j < |records|
    ensures RestoreAll(d, records[..j + 1], luck) == Continue(RestoreAll(d, records[..j], luck), records[j], luck)
  {
    assert records[..j + 1] == records[..j] + [records[j]];
    RestoreSnoc(d, records[..j], records[j], luck);
  }

  lemma HaltedAt(d: Disk, records: seq<MessageRecord>, j: nat, luck: Key -> Luck)
    requires j <= |records| && Halted(RestoreAll(d, records[..j], luck).1)
    ensures RestoreAll(d, records, luck) == RestoreAll(d, records[..j], luck)
  {
    assert records == records[..j] + records[j..];
    HaltedForGood(d, records[..j], records[j..], luck);
  }

  /** What came before does not matter to how the run goes on. */
  lemma ContinueAfter(done: seq<Outcome>, state: (Disk, seq<Outcome>), r: MessageRecord, luck: Key -> Luck)
    requires !Halted(done)
    ensures var next := Continue(state, r, luck);
            Continue((state.0, done + state.1), r, luck) == (next.0, done + next.1)
  {
    var o := RestoreStep(state.0, r, luck(KeyOf(r))).1;
    ConcatAssociates(done, state.1, [o]);
  }

  lemma {:induction false} RestoreAppend(d: Disk, a: seq<MessageRecord>, b: seq<MessageRecord>, luck: Key -> Luck)
    requires !Halted(RestoreAll(d, a, luck).1)
    ensures var (d1, done) := RestoreAll(d, a, luck);
            var (d2, more) := RestoreAll(d1, b, luck);
            RestoreAll(d, a + b, luck) == (d2, done + more)
  {
    if b == [] {
      assert a + b == a && RestoreAll(d, a, luck).1 + [] == RestoreAll(d, a, luck).1;
    } else {
      var n := |b| - 1;
      RestoreAppend(d, a, b[..n], luck);
      assert a + b == a + b[..n] + [b[n]];
      RestoreSnoc(d, a + b[..n], b[n], luck);
      ContinueAfter(RestoreAll(d, a, luck).1, RestoreAll(RestoreAll(d, a, luck).0, b[..n], luck), b[n], luck);
    }
  }

  // ---------------------------------------------------------------- by source folder

  ghost function Folders(records: seq<MessageRecord>): set<string> {
    set r | r in records :: r.folder
  }

  lemma FoldersSnoc(records: seq<MessageRecord>)
    requires records != []
    ensures Folders(records) == Folders(records[..|records| - 1]) + {records[|records| - 1].folder}
  {
  }

  /** The folders of the records, sorted, each once. */
  function SortedFolders(records: seq<MessageRecord>): (r: seq<string>)
    ensures StrictlySorted(r) && Elements(r) == Folders(records)
  {
    if records == [] then []
    else
      var last := records[|records| - 1];
      FoldersSnoc(records);
      var p := SortedFolders(records[..|records| - 1]);
      if last.folder in p then
        assert last.folder in Elements(p);
        p
      else Insert(p, last.folder)
  }

  function OfFolder(records: seq<MessageRecord>, folder: string): (r: seq<MessageRecord>)
    ensures forall m :: m in r <==> m in records && m.folder == folder
  {
    if records == [] then []
    else
      assert records == [records[0]] + records[1..];
      (if records[0].folder == folder then [records[0]] else []) + OfFolder(records[1..], folder)
  }

  function Bucketed(records: seq<MessageRecord>, folders: seq<string>): (r: seq<MessageRecord>)
    ensures forall m :: m in r <==> m in records && m.folder in folders
  {
    if folders == [] then []
    else
      var n := |folders| - 1;
      assert folders == folders[..n] + [folders[n]];
      Bucketed(records, folders[..n]) + OfFolder(records, folders[n])
  }

  ghost predicate DistinctKeys(records: seq<MessageRecord>) {
    forall i, j :: 0 <= i < j < |records| ==> KeyOf(records[i]) != KeyOf(records[j])
  }

  lemma {:induction false} OfFolderDistinct(records: seq<MessageRecord>, folder: string)
    requires DistinctKeys(records)
    ensures DistinctKeys(OfFolder(records, folder))
  {
    if records != [] {
      var rest := OfFolder(records[1..], folder);
      OfFolderDistinct(records[1..], folder);
      forall i | 0 <= i < |rest| ensures KeyOf(rest[i]) != KeyOf(records[0]) {
        assert rest[i] in rest;
        var j :| 0 <= j < |records[1..]| && records[1..][j] == rest[i];
        assert records[j + 1] == rest[i];
      }
    }
  }

  lemma {:induction false} BucketedDistinct(records: seq<MessageRecord>, folders: seq<string>)
    requires DistinctKeys(records) && Distinct(folders)
    ensures DistinctKeys(Bucketed(records, folders))
  {
    if folders != [] {
      var n := |folders| - 1;
      var a, b := Bucketed(records, folders[..n]), OfFolder(records, folders[n]);
      BucketedDistinct(records, folders[..n]);
      OfFolderDistinct(records, folders[n]);
      forall i, j | 0 <= i < j < |a + b| ensures KeyOf((a + b)[i]) != KeyOf((a + b)[j]) {
        if i < |a| <= j {
          assert a[i] in a && b[j - |a|] in b && folders[n] !in folders[..n];
        }
      }
    }
  }

  lemma SortedIsDistinct(s: seq<string>)
    requires StrictlySorted(s)
    ensures Distinct(s)
  {
    forall i, j | 0 <= i < j < |s| ensures s[i] != s[j] { LessIrreflexive(s[i]); }
  }

  /** The order a run works in: the wanted records, one source folder after the other. */
  function WorkOrder(records: seq<MessageRecord>, state: set<Key>, selected: Bytes -> bool): seq<MessageRecord> {
    var wanted := WantedIn(records, state, selected);
    Bucketed(wanted, SortedFolders(wanted))
  }

  lemma {:induction false} WantedDistinct(records: seq<MessageRecord>, state: set<Key>, selected: Bytes -> bool)
    requires DistinctKeys(records)
    ensures DistinctKeys(WantedIn(records, state, selected))
  {
    if records != [] {
      var n := |records| - 1;
      var w := WantedIn(records[..n], state, selected);
      WantedDistinct(records[..n], state, selected);
      forall i | 0 <= i < |w| ensures KeyOf(w[i]) != KeyOf(records[n]) {
        assert w[i] in w;
        var j :| 0 <= j < n && records[..n][j] == w[i];
      }
    }
  }

  lemma WorkOrderIsWanted(records: seq<MessageRecord>, state: set<Key>, selected: Bytes -> bool)
    requires DistinctKeys(records)
    ensures var s := WorkOrder(records, state, selected);
            DistinctKeys(s) && forall m :: m in s <==> m in records && Wanted(m, state, selected)
  {
    var wanted := WantedIn(records, state, selected);
    WantedDistinct(records, state, selected);
    SortedIsDistinct(SortedFolders(wanted));
    BucketedDistinct(wanted, SortedFolders(wanted));
    forall m | m in wanted ensures m.folder in SortedFolders(wanted) {
      assert m.folder in Elements(SortedFolders(wanted));
    }
  }

  /** The buckets of the folders from index `i` on. */
  ghost function Later(records: seq<MessageRecord>, folders: seq<string>, i: nat): seq<MessageRecord>
    requires i <= |folders|
    decreases |folders| - i
  {
    if i == |folders| then [] else OfFolder(records, folders[i]) + Later(records, folders, i + 1)
  }

  lemma BucketedNext(records: seq<MessageRecord>, folders: seq<string>, i: nat)
    requires i < |folders|
    ensures Bucketed(records, folders[..i + 1]) == Bucketed(records, folders[..i]) + OfFolder(records, folders[i])
  {
    assert folders[..i + 1][..i] == folders[..i];
  }

  lemma {:induction false} BucketedThrough(records: seq<MessageRecord>, folders: seq<string>, i: nat)
    requires i < |folders|
    ensures Bucketed(records, folders) ==
            Bucketed(records, folders[..i]) + OfFolder(records, folders[i]) + Later(records, folders, i + 1)
    decreases |folders| - i
  {
    var (a, b) := (Bucketed(records, folders[..i]), OfFolder(records, folders[i]));
    BucketedNext(records, folders, i);
    if i + 1 == |folders| {
      assert folders[..i + 1] == folders;
    } else {
      BucketedThrough(records, folders, i + 1);
      ConcatAssociates(a + b, OfFolder(records, folders[i + 1]), Later(records, folders, i + 2));
    }
  }

  // ---------------------------------------------------------------- at most once

  /** Every archived message in the mailbox is there once, and the log knows it. */
  ghost predicate Safe(d: Disk) {
    forall k :: d.mailbox[k] <= 1 && (k in d.mailbox ==> k in KeysOf(d.log))
  }

  lemma WriteKeys(d: Disk, key: Key, status: LogStatus, w: Write)
    ensures KeysOf(WriteLine(d, key, status, w).log) == KeysOf(d.log) + if w.Lost? then {} else {key}
  {
    KeysSnoc(d.log, Entry(key, status), Pending);
    KeysSnoc(d.log, Entry(key, status), Done);
  }

  /** A step logs nothing but its own key. */
  lemma StepLogs(d: Disk, r: MessageRecord, luck: Luck)
    ensures var (d', o) := RestoreStep(d, r, luck);
            && KeysOf(d.log) <= KeysOf(d'.log) <= KeysOf(d.log) + {KeyOf(r)}
            && (d'.mailbox != d.mailbox || o.Appended? || o.Skipped? ==> KeyOf(r) in KeysOf(d'.log))
  {
    var key := KeyOf(r);
    if r.messageId.Some? && luck.search.Found? {
      WriteKeys(d, key, Done, luck.found);
    } else {
      WriteKeys(d, key, Pending, luck.pending);
      var p := WriteLine(d, key, Pending, luck.pending);
      if luck.append.Accepted? { WriteKeys(Deliver(p, key, true), key, Done, luck.done); }
    }
  }

  /** A step delivers its own message at most once. */
  lemma StepDelivers(d: Disk, r: MessageRecord, luck: Luck)
    ensures var (d', o) := RestoreStep(d, r, luck);
            && (d'.mailbox == d.mailbox || d'.mailbox == d.mailbox + multiset{KeyOf(r)})
            && (o.Appended? ==> d'.mailbox == d.mailbox + multiset{KeyOf(r)})
  {
  }

  ghost function KeySet(records: seq<MessageRecord>): set<Key> {
    set r | r in records :: KeyOf(r)
  }

  lemma KeySetSnoc(records: seq<MessageRecord>)
    requires records != []
    ensures KeySet(records) == KeySet(records[..|records| - 1]) + {KeyOf(records[|records| - 1])}
    ensures forall r :: r in records <==> r in records[..|records| - 1] || r == records[|records| - 1]
  {
  }

  lemma NotYetLogged(d: Disk, d1: Disk, records: seq<MessageRecord>, n: nat)
    requires n < |records| && DistinctKeys(records) && KeyOf(records[n]) !in KeysOf(d.log)
    requires KeysOf(d1.log) <= KeysOf(d.log) + KeySet(records[..n])
    ensures KeyOf(records[n]) !in KeysOf(d1.log)
  {
  }

  /** Keys already logged are left alone, and new ones enter the mailbox at most once. */
  lemma {:induction false} RunEffect(d: Disk, records: seq<MessageRecord>, luck: Key -> Luck)
    requires DistinctKeys(records) && forall r :: r in records ==> KeyOf(r) !in KeysOf(d.log)
    ensures var d' := RestoreAll(d, records, luck).0;
            && KeysOf(d.log) <= KeysOf(d'.log) <= KeysOf(d.log) + KeySet(records)
            && (Safe(d) ==> Safe(d'))
            && forall k :: k in KeysOf(d.log) ==> d'.mailbox[k] == d.mailbox[k]
  {
    if records != [] {
      var n := |records| - 1;
      var last := records[n];
      var (d1, done) := RestoreAll(d, records[..n], luck);
      RunEffect(d, records[..n], luck);
      KeySetSnoc(records);
      if !Halted(done) {
        StepLogs(d1, last, luck(KeyOf(last)));
        StepDelivers(d1, last, luck(KeyOf(last)));
        NotYetLogged(d, d1, records, n);
      }
    }
  }

  /** One run: the archive's records, the folders chosen, and what befalls each message. */
  datatype Session = Session(records: seq<MessageRecord>, selected: Bytes -> bool, luck: Key -> Luck) {
    ghost function Run(d: Disk): (Disk, seq<Outcome>) {
      RestoreAll(d, WorkOrder(records, KeysOf(d.log), selected), luck)
    }
  }

  ghost function History(d: Disk, sessions: seq<Session>): Disk {
    if sessions == [] then d
    else sessions[|sessions| - 1].Run(History(d, sessions[..|sessions| - 1])).0
  }

  lemma SessionEffect(d: Disk, s: Session)
    requires DistinctKeys(s.records)
    ensures var d' := s.Run(d).0;
            && KeysOf(d.log) <= KeysOf(d'.log)
            && (Safe(d) ==> Safe(d'))
            && forall k :: k in KeysOf(d.log) ==> d'.mailbox[k] == d.mailbox[k]
  {
    WorkOrderIsWanted(s.records, KeysOf(d.log), s.selected);
    RunEffect(d, WorkOrder(s.records, KeysOf(d.log), s.selected), s.luck);
  }

  /**
   Over any number of runs, each with its own folder selection, and each crashing or
   failing anywhere between the pending line, the append and the done line, no
   archived message is appended twice; and once a key is in the log, its message is
   never appended again.
   */
  lemma {:induction false} AtMostOnce(d: Disk, sessions: seq<Session>)
    requires forall s :: s in sessions ==> DistinctKeys(s.records)
    ensures KeysOf(d.log) <= KeysOf(History(d, sessions).log)
    ensures Safe(d) ==> Safe(History(d, sessions))
    ensures forall k :: k in KeysOf(d.log) ==> History(d, sessions).mailbox[k] == d.mailbox[k]
  {
    if sessions != [] {
      var n := |sessions| - 1;
      assert sessions[n] in sessions;
      AtMostOnce(d, sessions[..n]);
      SessionEffect(History(d, sessions[..n]), sessions[n]);
    }
  }

  /** An accepted manifest gives every message its own key. */
  lemma AcceptedKeysAreDistinct(m: Manifest)
    requires Acceptable(m)
    ensures DistinctKeys(m.messages)
  {
  }

  // ---------------------------------------------------------------- what a run leaves behind

  /** Nothing goes wrong with this message. */
  predicate Smooth(luck: Luck) {
    && luck.alive && luck.readable && luck.digestMatches && !luck.search.Broken?
    && luck.found.Written? && luck.pending.Written? && luck.append.Accepted? && luck.done.Written?
  }

  function SmoothOutcome(r: MessageRecord, luck: Luck): Outcome {
    if r.messageId.Some? && luck.search.Found? then Skipped else Appended
  }

  function SmoothOutcomes(records: seq<MessageRecord>, luck: Key -> Luck): seq<Outcome> {
    if records == [] then []
    else
      var last := records[|records| - 1];
      SmoothOutcomes(records[..|records| - 1], luck) + [SmoothOutcome(last, luck(KeyOf(last)))]
  }

  lemma SmoothStep(d: Disk, r: MessageRecord, luck: Luck)
    requires Smooth(luck)
    ensures var (d', o) := RestoreStep(d, r, luck);
            && o == SmoothOutcome(r, luck) && KeysOf(d'.log) == KeysOf(d.log) + {KeyOf(r)}
            && d'.mailbox == if o.Appended? then d.mailbox + multiset{KeyOf(r)} else d.mailbox
  {
    StepLogs(d, r, luck);
  }

  lemma {:induction false} SmoothRun(d: Disk, records: seq<MessageRecord>, luck: Key -> Luck)
    requires forall r :: r in records ==> Smooth(luck(KeyOf(r)))
    ensures var (d', done) := RestoreAll(d, records, luck);
            && !Halted(done) && done == SmoothOutcomes(records, luck)
            && KeysOf(d'.log) == KeysOf(d.log) + KeySet(records)
            && d.mailbox <= d'.mailbox
            && forall r :: r in records && SmoothOutcome(r, luck(KeyOf(r))).Appended? ==> KeyOf(r) in d'.mailbox
  {
    if records != [] {
      var n := |records| - 1;
      var last := records[n];
      SmoothRun(d, records[..n], luck);
      SmoothStep(RestoreAll(d, records[..n], luck).0, last, luck(KeyOf(last)));
      KeySetSnoc(records);
    }
  }

  /**
   A run in which nothing goes wrong settles every selected message: it is in the
   log afterwards, because it was there before, was found at the destination, or
   has now been appended, and in the last case its one copy is in the mailbox.
   */
  lemma SmoothSessionCompletes(d: Disk, s: Session, r: MessageRecord)
    requires DistinctKeys(s.records) && forall k :: Smooth(s.luck(k))
    requires r in s.records && s.selected(r.folder)
    ensures var d' := s.Run(d).0;
            && KeyOf(r) in KeysOf(d'.log)
            && (KeyOf(r) !in KeysOf(d.log) && SmoothOutcome(r, s.luck(KeyOf(r))).Appended? ==> KeyOf(r) in d'.mailbox)
            && (Safe(d) ==> d'.mailbox[KeyOf(r)] <= 1)
  {
    var order := WorkOrder(s.records, KeysOf(d.log), s.selected);
    WorkOrderIsWanted(s.records, KeysOf(d.log), s.selected);
    SmoothRun(d, order, s.luck);
    SessionEffect(d, s);
    if KeyOf(r) !in KeysOf(d.log) { assert r in order; }
  }

  /** The append of this step took effect: the message was looked for in vain, logged ahead, and applied. */
  predicate Applied(r: MessageRecord, luck: Luck) {
    && !(r.messageId.Some? && luck.search.Found?)
    && luck.pending.Written?
    && match luck.append
       case Accepted => true
       case Refused(applied) => applied
       case Died(applied) => applied
  }

  /** A step that logs its message has delivered it exactly when the append was applied. */
  lemma LoggedStepDelivers(d: Disk, r: MessageRecord, luck: Luck)
    requires RestoreStep(d, r, luck).0.log != d.log
    ensures RestoreStep(d, r, luck).0.mailbox == if Applied(r, luck) then d.mailbox + multiset{KeyOf(r)} else d.mailbox
  {
  }

  /**
   At most once, and exactly once exactly when the append took effect: whatever
   later runs do, a message logged by this step ends with one copy if the append was
   applied, and otherwise, be it found, refused, lost to a crash or never sent
   because its pending line was not confirmed, with none for good.
   */
  lemma DeliveredExactlyWhenApplied(d: Disk, r: MessageRecord, luck: Luck, sessions: seq<Session>)
    requires Safe(d) && KeyOf(r) !in KeysOf(d.log) && KeyOf(r) in KeysOf(RestoreStep(d, r, luck).0.log)
    requires forall s :: s in sessions ==> DistinctKeys(s.records)
    ensures var copies := History(RestoreStep(d, r, luck).0, sessions).mailbox[KeyOf(r)];
            copies <= 1 && (copies == 1 <==> Applied(r, luck))
  {
    var d' := RestoreStep(d, r, luck).0;
    assert d'.log != d.log && d.mailbox[KeyOf(r)] == 0;
    LoggedStepDelivers(d, r, luck);
    AtMostOnce(d', sessions);
  }

  // ---------------------------------------------------------------- the restorer

  class Restorer {
    var log: seq<Line>
    var mailbox: multiset<Key>

    function State(): Disk
      reads this
    {
      Disk(log, mailbox)
    }

    constructor (lines: seq<Line>, present: multiset<Key>)
      ensures State() == Disk(lines, present)
    {
      log, mailbox := lines, present;
    }

    method AppendRestoreStateLine(key: Key, status: LogStatus, w: Write) returns (ok: bool)
      modifies this
      ensures ok ==> log == old(log) + [Entry(key, status)] && key in KeysOf(log)
      ensures State() == WriteLine(old(State()), key, status, w) && (ok <==> w.Written?)
    {
      WriteKeys(State(), key, status, w);
      if !w.Lost? { log := log + [Entry(key, status)]; }
      ok := w.Written?;
    }

    /** Restore one message; the outcome tells what the log and the mailbox have gained. */
    method RestoreOne(r: MessageRecord, luck: Luck) returns (o: Outcome)
      modifies this
      ensures Accounts(old(State()), State(), KeyOf(r), o)
      ensures (State(), o) == RestoreStep(old(State()), r, luck)
    {
      StepAccounts(State(), r, luck);
      if !luck.alive { return Aborted; }
      if !luck.readable { return Failed; }
      if !luck.digestMatches { return Failed; }
      if r.messageId.Some? {
        if luck.search.Broken? { return Aborted; }
        if luck.search.Found? {
          var logged := AppendRestoreStateLine(KeyOf(r), Done, luck.found);
          return if logged then Skipped else Aborted;
        }
      }
      var ahead := AppendRestoreStateLine(KeyOf(r), Pending, luck.pending);
      if !ahead { return Aborted; }
      match luck.append {
        case Refused(applied) =>
          if applied { mailbox := mailbox + multiset{KeyOf(r)}; }
          o := Failed;
        case Died(applied) =>
          if applied { mailbox := mailbox + multiset{KeyOf(r)}; }
          o := Aborted;
        case Accepted =>
          mailbox := mailbox + multiset{KeyOf(r)};
          var logged := AppendRestoreStateLine(KeyOf(r), Done, luck.done);
          o := if logged then Appended else Aborted;
      }
    }

    /** Message by message, stopping at the first abort. */
    method RestoreFolder(bucket: seq<MessageRecord>, luck: Key -> Luck) returns (outcomes: seq<Outcome>)
      modifies this
      ensures (State(), outcomes) == RestoreAll(old(State()), bucket, luck)
    {
      outcomes := [];
      for j := 0 to |bucket|
        invariant !Halted(outcomes)
        invariant (State(), outcomes) == RestoreAll(old(State()), bucket[..j], luck)
      {
        RestoreNext(old(State()), bucket, j, luck);
        var o := RestoreOne(bucket[j], luck(KeyOf(bucket[j])));
        outcomes := outcomes + [o];
        if o.Aborted? {
          HaltedAt(old(State()), bucket, j + 1, luck);
          return;
        }
      }
      assert bucket[..|bucket|] == bucket;
    }

    /** Source folder by source folder, in name order. */
    method Execute(wanted: seq<MessageRecord>, luck: Key -> Luck) returns (outcomes: seq<Outcome>)
      modifies this
      ensures (State(), outcomes) == RestoreAll(old(State()), Bucketed(wanted, SortedFolders(wanted)), luck)
    {
      var folders := SortedFolders(wanted);
      outcomes := [];
      for i := 0 to |folders|
        invariant !Halted(outcomes)
        invariant (State(), outcomes) == RestoreAll(old(State()), Bucketed(wanted, folders[..i]), luck)
      {
        ghost var before := Bucketed(wanted, folders[..i]);
        RestoreAppend(old(State()), before, OfFolder(wanted, folders[i]), luck);
        BucketedNext(wanted, folders, i);
        var more := RestoreFolder(OfFolder(wanted, folders[i]), luck);
        outcomes := outcomes + more;
        if Halted(more) {
          BucketedThrough(wanted, folders, i);
          HaltedForGood(old(State()), before + OfFolder(wanted, folders[i]), Later(wanted, folders, i + 1), luck);
          return;
        }
      }
      assert folders[..|folders|] == folders;
    }

    /** A whole run: read the log, plan, and work the plan off. */
    method RunRestore(records: seq<MessageRecord>, mappings: seq<Mapping>, selected: Bytes -> bool, luck: Key -> Luck)
      returns (outcomes: seq<Outcome>)
      modifies this
      ensures (State(), outcomes) == Session(records, selected, luck).Run(old(State()))
    {
      var state, warnings := LoadRestoreState(log);
      var plan := PlanRestore(records, state, mappings, selected);
      outcomes := Execute(Records(plan.planned), luck);
    }
  }
}
