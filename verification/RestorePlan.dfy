/** The restore log read back, the plan made from it, and the audit of what it leaves in doubt. */
module RestorePlan {
  import opened Prelude
  import opened Text
  import opened Manifest

  // ---------------------------------------------------------------- the log

  datatype LogStatus = Pending | Done

  /** What identifies a message to the log; the lifecycle status is no part of it. */
  datatype Key = Key(folder: Bytes, uidvalidity: nat, uid: nat, sha256: Bytes)

  datatype Line = Blank | Malformed(content: string) | Entry(key: Key, status: LogStatus)

  datatype Warning = MalformedLine(number: nat, content: string) | PendingWithoutDone(key: Key)

  ghost function KeysWith(lines: seq<Line>, status: LogStatus): set<Key> {
    set l | l in lines && l.Entry? && l.status == status :: l.key
  }

  ghost function KeysOf(lines: seq<Line>): set<Key> {
    KeysWith(lines, Pending) + KeysWith(lines, Done)
  }

  /** Keys written ahead of an append that no line confirms. */
  ghost function Orphans(lines: seq<Line>): set<Key> {
    KeysWith(lines, Pending) - KeysWith(lines, Done)
  }

  function MalformedIn(lines: seq<Line>): seq<Warning> {
    if lines == [] then []
    else
      var last := lines[|lines| - 1];
      MalformedIn(lines[..|lines| - 1]) + if last.Malformed? then [MalformedLine(|lines|, last.content)] else []
  }

  function Doubts(keys: seq<Key>): seq<Warning> {
    seq(|keys|, i requires 0 <= i < |keys| => PendingWithoutDone(keys[i]))
  }

  /** Every malformed line by number, then one warning for each orphan. */
  ghost predicate Reports(warnings: seq<Warning>, lines: seq<Line>) {
    exists keys :: warnings == MalformedIn(lines) + Doubts(keys) && Distinct(keys) && Elements(keys) == Orphans(lines)
  }

  lemma KeysSnoc(lines: seq<Line>, l: Line, status: LogStatus)
    ensures KeysWith(lines + [l], status) ==
            KeysWith(lines, status) + if l.Entry? && l.status == status then {l.key} else {}
  {
  }

  /** Promote every pending key; each one that is not done is doubted once. */
  method PromotePending(pending: set<Key>, done: set<Key>) returns (records: set<Key>, doubted: seq<Key>)
    ensures records == pending + done
    ensures Distinct(doubted) && Elements(doubted) == pending - done
  {
    records, doubted := done, [];
    var left := pending;
    while left != {}
      invariant left <= pending && records == done + (pending - left)
      invariant Distinct(doubted) && Elements(doubted) == pending - left - done
      decreases |left|
    {
      var key :| key in left;
      if key !in done {
        assert key !in Elements(doubted);
        DistinctAppend(doubted, [key]);
        ElementsAppend(doubted, [key]);
        doubted := doubted + [key];
      }
      records := records + {key};
      left := left - {key};
    }
  }

  method LoadRestoreState(lines: seq<Line>) returns (records: set<Key>, warnings: seq<Warning>)
    ensures records == KeysOf(lines) && Reports(warnings, lines)
  {
    var done: set<Key>, pending: set<Key> := {}, {};
    warnings := [];
    for i := 0 to |lines|
      invariant done == KeysWith(lines[..i], Done) && pending == KeysWith(lines[..i], Pending)
      invariant warnings == MalformedIn(lines[..i])
    {
      assert lines[..i + 1] == lines[..i] + [lines[i]] && lines[..i + 1][..i] == lines[..i];
      KeysSnoc(lines[..i], lines[i], Done);
      KeysSnoc(lines[..i], lines[i], Pending);
      match lines[i] {
        case Blank =>
        case Malformed(content) => warnings := warnings + [MalformedLine(i + 1, content)];
        case Entry(key, Pending) => pending := pending + {key};
        case Entry(key, Done) => done := done + {key};
      }
    }
    assert lines[..|lines|] == lines;
    var doubted;
    records, doubted := PromotePending(pending, done);
    warnings := warnings + Doubts(doubted);
  }

  /** Loading forgets the order of the lines, and a longer log never yields fewer keys. */
  lemma LoadIgnoresOrder(a: seq<Line>, b: seq<Line>)
    requires multiset(a) == multiset(b)
    ensures KeysOf(a) == KeysOf(b) && Orphans(a) == Orphans(b)
  {
    forall l ensures l in a <==> l in b { assert l in multiset(a) <==> l in multiset(b); }
  }

  lemma KeysGrow(a: seq<Line>, b: seq<Line>)
    ensures KeysOf(a + b) == KeysOf(a) + KeysOf(b)
  {
  }

  // ---------------------------------------------------------------- the plan

  datatype Mapping = Mapping(source: Bytes, destination: Bytes)

  datatype PlannedAppend = PlannedAppend(record: MessageRecord, destination: Bytes)

  datatype Plan = Plan(planned: seq<PlannedAppend>, destinations: seq<Bytes>, excluded: nat, already: nat)

  function KeyOf(r: MessageRecord): Key {
    Key(r.folder, r.uidvalidity, r.uid, r.sha256)
  }

  /** First match wins; an unmapped folder keeps its name. */
  function ApplyFolderMapping(source: Bytes, mappings: seq<Mapping>): Bytes {
    if mappings == [] then source
    else if mappings[0].source == source then mappings[0].destination
    else ApplyFolderMapping(source, mappings[1..])
  }

  predicate Wanted(r: MessageRecord, state: set<Key>, selected: Bytes -> bool) {
    selected(r.folder) && KeyOf(r) !in state
  }

  /** The wanted records, in archive order. */
  function WantedIn(records: seq<MessageRecord>, state: set<Key>, selected: Bytes -> bool): (r: seq<MessageRecord>)
    ensures forall m :: m in r <==> m in records && Wanted(m, state, selected)
  {
    if records == [] then []
    else
      var last := records[|records| - 1];
      assert records == records[..|records| - 1] + [last];
      WantedIn(records[..|records| - 1], state, selected) + if Wanted(last, state, selected) then [last] else []
  }

  function Records(planned: seq<PlannedAppend>): (r: seq<MessageRecord>)
    ensures |r| == |planned| && forall i :: 0 <= i < |r| ==> r[i] == planned[i].record
  {
    if planned == [] then [] else Records(planned[..|planned| - 1]) + [planned[|planned| - 1].record]
  }

  function CountExcluded(records: seq<MessageRecord>, selected: Bytes -> bool): nat {
    if records == [] then 0
    else CountExcluded(records[..|records| - 1], selected) + if selected(records[|records| - 1].folder) then 0 else 1
  }

  /** Each value where it first occurs. */
  function FirstSeen(s: seq<Bytes>): (r: seq<Bytes>)
    ensures Distinct(r) && forall x :: x in r <==> x in s
  {
    if s == [] then []
    else
      var last := s[|s| - 1];
      assert s == s[..|s| - 1] + [last];
      var p := FirstSeen(s[..|s| - 1]);
      if last in p then p else p + [last]
  }

  function Destinations(planned: seq<PlannedAppend>): seq<Bytes> {
    if planned == [] then [] else Destinations(planned[..|planned| - 1]) + [planned[|planned| - 1].destination]
  }

  predicate AllMapped(planned: seq<PlannedAppend>, mappings: seq<Mapping>) {
    forall p :: p in planned ==> p.destination == ApplyFolderMapping(p.record.folder, mappings)
  }

  lemma NextWanted(records: seq<MessageRecord>, i: nat, state: set<Key>, selected: Bytes -> bool)
    requires i < |records|
    ensures WantedIn(records[..i + 1], state, selected) ==
            WantedIn(records[..i], state, selected) + if Wanted(records[i], state, selected) then [records[i]] else []
    ensures CountExcluded(records[..i + 1], selected) ==
            CountExcluded(records[..i], selected) + if selected(records[i].folder) then 0 else 1
  {
    assert records[..i + 1][..i] == records[..i];
  }

  lemma PlannedSnoc(planned: seq<PlannedAppend>, next: PlannedAppend, mappings: seq<Mapping>)
    requires AllMapped(planned, mappings) && next.destination == ApplyFolderMapping(next.record.folder, mappings)
    ensures Records(planned + [next]) == Records(planned) + [next.record]
    ensures AllMapped(planned + [next], mappings)
    ensures var p := FirstSeen(Destinations(planned));
            FirstSeen(Destinations(planned + [next])) == if next.destination in p then p else p + [next.destination]
  {
  }

  /**
   Plan what is still to append: the wanted records in archive order, each to its
   mapped folder. Every record is planned or counted as excluded or already
   restored, and the destinations are listed once each where they first occur.
   */
  method PlanRestore(records: seq<MessageRecord>, state: set<Key>, mappings: seq<Mapping>, selected: Bytes -> bool)
    returns (plan: Plan)
    ensures Records(plan.planned) == WantedIn(records, state, selected)
    ensures AllMapped(plan.planned, mappings)
    ensures plan.destinations == FirstSeen(Destinations(plan.planned))
    ensures |plan.planned| + plan.excluded + plan.already == |records|
    ensures plan.excluded == CountExcluded(records, selected)
  {
    var planned: seq<PlannedAppend> := [];
    var destinations: seq<Bytes> := [];
    var excluded, already := 0, 0;
    for i := 0 to |records|
      invariant Records(planned) == WantedIn(records[..i], state, selected)
      invariant AllMapped(planned, mappings)
      invariant destinations == FirstSeen(Destinations(planned))
      invariant |planned| + excluded + already == i && excluded == CountExcluded(records[..i], selected)
    {
      var r := records[i];
      NextWanted(records, i, state, selected);
      if !selected(r.folder) {
        excluded := excluded + 1;
      } else if KeyOf(r) in state {
        already := already + 1;
      } else {
        var destination := ApplyFolderMapping(r.folder, mappings);
        var next := PlannedAppend(r, destination);
        PlannedSnoc(planned, next, mappings);
        if destination !in destinations { destinations := destinations + [destination]; }
        planned := planned + [next];
      }
    }
    assert records[..|records|] == records;
    plan := Plan(planned, destinations, excluded, already);
  }

  // ---------------------------------------------------------------- the audit

  datatype AuditStatus = StateNotInManifest | UnknownNoMessageId | AuditPlanned

  datatype AuditRow = AuditRow(key: Key, destination: Bytes, messageIdPresent: bool, status: AuditStatus)

  /** The first message with this key. */
  function Find(messages: seq<MessageRecord>, key: Key): (r: Option<MessageRecord>)
    ensures r.Some? <==> exists m :: m in messages && KeyOf(m) == key
    ensures r.Some? ==> r.value in messages && KeyOf(r.value) == key
  {
    if messages == [] then None
    else if KeyOf(messages[0]) == key then Some(messages[0])
    else
      assert messages == [messages[0]] + messages[1..];
      Find(messages[1..], key)
  }

  predicate RowFits(row: AuditRow, messages: seq<MessageRecord>, mappings: seq<Mapping>) {
    var hit := Find(messages, row.key);
    && row.destination == ApplyFolderMapping(row.key.folder, mappings)
    && row.messageIdPresent == (hit.Some? && hit.value.messageId.Some?)
    && (row.status.StateNotInManifest? <==> hit.None?)
    && (row.status.AuditPlanned? <==> row.messageIdPresent)
  }

  /** The selected orphans among the warnings, in order. */
  function Audited(warnings: seq<Warning>, selected: Bytes -> bool): seq<Key> {
    if warnings == [] then []
    else
      var last := warnings[|warnings| - 1];
      Audited(warnings[..|warnings| - 1], selected) +
      if last.PendingWithoutDone? && selected(last.key.folder) then [last.key] else []
  }

  lemma {:induction false} AuditedAreOrphans(warnings: seq<Warning>, selected: Bytes -> bool, key: Key)
    ensures key in Audited(warnings, selected) <==> PendingWithoutDone(key) in warnings && selected(key.folder)
  {
    if warnings != [] {
      var n := |warnings| - 1;
      AuditedAreOrphans(warnings[..n], selected, key);
      assert warnings == warnings[..n] + [warnings[n]];
    }
  }

  function RowKeys(rows: seq<AuditRow>): seq<Key> {
    seq(|rows|, i requires 0 <= i < |rows| => rows[i].key)
  }

  method PlanRestoreStateAudit(
    messages: seq<MessageRecord>, warnings: seq<Warning>, mappings: seq<Mapping>, selected: Bytes -> bool)
    returns (rows: seq<AuditRow>)
    ensures RowKeys(rows) == Audited(warnings, selected)
    ensures forall row :: row in rows ==> RowFits(row, messages, mappings)
  {
    rows := [];
    for i := 0 to |warnings|
      invariant RowKeys(rows) == Audited(warnings[..i], selected)
      invariant forall row :: row in rows ==> RowFits(row, messages, mappings)
    {
      assert warnings[..i + 1][..i] == warnings[..i];
      if warnings[i].PendingWithoutDone? && selected(warnings[i].key.folder) {
        var key := warnings[i].key;
        var hit := Find(messages, key);
        var present := hit.Some? && hit.value.messageId.Some?;
        var row := AuditRow(key, ApplyFolderMapping(key.folder, mappings), present,
                            if hit.None? then StateNotInManifest else if present then AuditPlanned else UnknownNoMessageId);
        assert RowKeys(rows + [row]) == RowKeys(rows) + [key];
        rows := rows + [row];
      }
    }
    assert warnings[..|warnings|] == warnings;
  }

  lemma {:induction false} MalformedNamesNoKey(lines: seq<Line>, w: Warning)
    requires w in MalformedIn(lines)
    ensures w.MalformedLine? && 1 <= w.number <= |lines| && lines[w.number - 1] == Malformed(w.content)
  {
    var n := |lines| - 1;
    if w in MalformedIn(lines[..n]) { MalformedNamesNoKey(lines[..n], w); }
  }

  lemma {:induction false} OnlyDoubtsNameKeys(lines: seq<Line>, keys: seq<Key>, key: Key)
    requires PendingWithoutDone(key) in MalformedIn(lines) + Doubts(keys)
    ensures key in keys
  {
    if PendingWithoutDone(key) in MalformedIn(lines) { MalformedNamesNoKey(lines, PendingWithoutDone(key)); }
    var i :| 0 <= i < |Doubts(keys)| && Doubts(keys)[i] == PendingWithoutDone(key);
    assert keys[i] == key;
  }

  /** What the audit lists, no plan made from the same log would append. */
  lemma AuditedIsNeverPlanned(
    lines: seq<Line>, warnings: seq<Warning>, messages: seq<MessageRecord>, selected: Bytes -> bool,
    other: Bytes -> bool, key: Key, r: MessageRecord)
    requires Reports(warnings, lines) && key in Audited(warnings, selected)
    requires r in WantedIn(messages, KeysOf(lines), other)
    ensures KeyOf(r) != key
  {
    AuditedAreOrphans(warnings, selected, key);
    var keys :| warnings == MalformedIn(lines) + Doubts(keys) && Distinct(keys) && Elements(keys) == Orphans(lines);
    OnlyDoubtsNameKeys(lines, keys, key);
    assert key in Elements(keys);
  }
}
