/** The archive manifest and the structural checks it must pass before anything reads a file. */
module Manifest {
  import opened Prelude
  import opened Text
  import opened Percent
  import opened ArchivePaths

  const ARCHIVE_FORMAT_VERSION: nat := 1
  const MAX_MESSAGE_SIZE_BYTES: nat := 1024 * 1024 * 1024

  datatype FolderRecord = FolderRecord(name: Bytes, encodedDir: Bytes, messageCount: nat)

  datatype MessageRecord = MessageRecord(
    folder: Bytes, uidvalidity: nat, uid: nat, messageId: Option<string>, size: nat, sha256: Bytes, relPath: Bytes)
  {
    function Identity(): (Bytes, nat, nat) { (folder, uidvalidity, uid) }
  }

  datatype Manifest = Manifest(version: nat, folders: seq<FolderRecord>, messages: seq<MessageRecord>)

  datatype ManifestError =
    | UnsupportedVersion | DuplicateFolder | WrongEncodedDir | UnknownFolder | DuplicateIdentity
    | DuplicateRelPath | UnsafePath(why: PathError) | BadDigest | TooLarge | WrongCount

  predicate IsHexDigit(b: Byte) {
    '0' <= b <= '9' || 'a' <= b <= 'f' || 'A' <= b <= 'F'
  }

  predicate IsSha256Hex(s: Bytes) {
    |s| == 64 && forall b :: b in s ==> IsHexDigit(b)
  }

  // ---------------------------------------------------------------- what is accepted

  function CountIn(messages: seq<MessageRecord>, folder: Bytes): nat {
    if messages == [] then 0
    else CountIn(messages[..|messages| - 1], folder) + if messages[|messages| - 1].folder == folder then 1 else 0
  }

  ghost function FolderNames(folders: seq<FolderRecord>): set<Bytes> {
    set f | f in folders :: f.name
  }

  ghost predicate DistinctNames(folders: seq<FolderRecord>) {
    forall i, j :: 0 <= i < j < |folders| ==> folders[i].name != folders[j].name
  }

  ghost predicate FoldersOk(folders: seq<FolderRecord>) {
    && DistinctNames(folders)
    && (forall f :: f in folders ==> f.encodedDir == Encode(f.name, SlugSafe))
  }

  ghost predicate RecordOk(r: MessageRecord, names: set<Bytes>) {
    && r.folder in names
    && r.relPath == RelativeMessagePath(r.folder, r.uidvalidity, r.uid)
    && !Unplaceable(r.folder)
    && IsSha256Hex(r.sha256)
    && r.size <= MAX_MESSAGE_SIZE_BYTES
  }

  ghost predicate DistinctIdentities(messages: seq<MessageRecord>) {
    forall i, j :: 0 <= i < j < |messages| ==> messages[i].Identity() != messages[j].Identity()
  }

  /** What the checks amount to. It asks nothing about two records sharing a path. */
  ghost predicate Acceptable(m: Manifest) {
    && m.version == ARCHIVE_FORMAT_VERSION
    && FoldersOk(m.folders)
    && (forall r :: r in m.messages ==> RecordOk(r, FolderNames(m.folders)))
    && DistinctIdentities(m.messages)
    && (forall f :: f in m.folders ==> f.messageCount == CountIn(m.messages, f.name))
  }

  // ---------------------------------------------------------------- the checks

  method CheckFolders(folders: seq<FolderRecord>) returns (fault: Option<ManifestError>, seen: set<Bytes>)
    ensures fault.None? <==> FoldersOk(folders)
    ensures fault.None? ==> seen == FolderNames(folders)
  {
    seen := {};
    for i := 0 to |folders|
      invariant FoldersOk(folders[..i]) && seen == FolderNames(folders[..i])
    {
      var f := folders[i];
      assert folders[..i + 1] == folders[..i] + [f];
      if f.name in seen {
        var g :| g in folders[..i] && g.name == f.name;
        return Some(DuplicateFolder), seen;
      }
      seen := seen + {f.name};
      var slug := EncodeFolderForDisk(f.name);
      if f.encodedDir != slug {
        assert f in folders;
        return Some(WrongEncodedDir), seen;
      }
    }
    assert folders[..|folders|] == folders;
    fault := None;
  }

  method CheckRecord(r: MessageRecord, names: set<Bytes>) returns (fault: Option<ManifestError>)
    requires r.folder in names
    ensures fault.None? <==> RecordOk(r, names)
  {
    var unsafe := ValidateMessageRelPath(r.relPath, r.folder, r.uidvalidity, r.uid);
    if unsafe.Some? { return Some(UnsafePath(unsafe.value)); }
    if !IsSha256Hex(r.sha256) { return Some(BadDigest); }
    if r.size > MAX_MESSAGE_SIZE_BYTES { return Some(TooLarge); }
    fault := None;
  }

  /** Two acceptable records with one path are one message. */
  lemma PathIsIdentity(a: MessageRecord, b: MessageRecord, names: set<Bytes>)
    requires RecordOk(a, names) && RecordOk(b, names) && a.relPath == b.relPath
    ensures a.Identity() == b.Identity()
  {
    PathInjective(a.folder, a.uidvalidity, a.uid, b.folder, b.uidvalidity, b.uid);
  }

  /** The records checked so far. */
  ghost predicate Checked(messages: seq<MessageRecord>, names: set<Bytes>) {
    (forall r :: r in messages ==> RecordOk(r, names)) && DistinctIdentities(messages)
  }

  ghost function Identities(messages: seq<MessageRecord>): set<(Bytes, nat, nat)> {
    set r | r in messages :: r.Identity()
  }

  ghost function Paths(messages: seq<MessageRecord>): set<Bytes> {
    set r | r in messages :: r.relPath
  }

  lemma NextRecord(messages: seq<MessageRecord>, i: nat)
    requires i < |messages|
    ensures var (p, q, r) := (messages[..i], messages[..i + 1], messages[i]);
            && Identities(q) == Identities(p) + {r.Identity()} && Paths(q) == Paths(p) + {r.relPath}
            && forall n :: CountIn(q, n) == CountIn(p, n) + if r.folder == n then 1 else 0
  {
    assert messages[..i + 1] == messages[..i] + [messages[i]];
    assert messages[..i + 1][..i] == messages[..i];
  }

  /** A path seen before belongs to an identity seen before, if the record is otherwise acceptable. */
  lemma SharedPath(messages: seq<MessageRecord>, r: MessageRecord, names: set<Bytes>)
    requires Checked(messages, names) && r.relPath in Paths(messages) && RecordOk(r, names)
    ensures r.Identity() in Identities(messages)
  {
    var q :| q in messages && q.relPath == r.relPath;
    PathIsIdentity(q, r, names);
  }

  /** A list passes only if its head does, its next record does, and that record is new. */
  lemma CheckedPrefix(messages: seq<MessageRecord>, i: nat, names: set<Bytes>)
    requires i < |messages| && Checked(messages[..i], names)
    ensures Checked(messages, names) ==>
              RecordOk(messages[i], names) && messages[i].Identity() !in Identities(messages[..i])
    ensures RecordOk(messages[i], names) && messages[i].Identity() !in Identities(messages[..i])
            ==> Checked(messages[..i + 1], names)
  {
    var r, p := messages[i], messages[..i];
    assert r in messages && messages[..i + 1] == p + [r];
    if Checked(messages, names) {
      forall q | q in p ensures q.Identity() != r.Identity() {
        var j :| 0 <= j < i && p[j] == q;
        assert messages[j].Identity() != messages[i].Identity();
      }
    }
    if RecordOk(r, names) && r.Identity() !in Identities(p) {
      forall j | 0 <= j < i ensures messages[j].Identity() != r.Identity() { assert p[j] in p; }
    }
  }

  method CheckMessages(messages: seq<MessageRecord>, names: set<Bytes>)
    returns (fault: Option<ManifestError>, counts: map<Bytes, nat>)
    ensures fault.None? <==> Checked(messages, names)
    ensures fault.None? ==> forall n :: CountIn(messages, n) == if n in counts then counts[n] else 0
  {
    var byKey: set<(Bytes, nat, nat)> := {};
    var byRelPath: set<Bytes> := {};
    counts := map[];
    for i := 0 to |messages|
      invariant Checked(messages[..i], names)
      invariant byKey == Identities(messages[..i]) && byRelPath == Paths(messages[..i])
      invariant forall n :: CountIn(messages[..i], n) == if n in counts then counts[n] else 0
    {
      var r := messages[i];
      CheckedPrefix(messages, i, names);
      NextRecord(messages, i);
      if r.folder !in names { return Some(UnknownFolder), counts; }
      if r.Identity() in byKey { return Some(DuplicateIdentity), counts; }
      byKey := byKey + {r.Identity()};
      if r.relPath in byRelPath {
        if Checked(messages, names) { SharedPath(messages[..i], r, names); }
        return Some(DuplicateRelPath), counts;
      }
      byRelPath := byRelPath + {r.relPath};
      fault := CheckRecord(r, names);
      if fault.Some? { return fault, counts; }
      counts := counts[r.folder := (if r.folder in counts then counts[r.folder] else 0) + 1];
    }
    assert messages[..|messages|] == messages;
    fault := None;
  }

  method CheckCounts(folders: seq<FolderRecord>, messages: seq<MessageRecord>, counts: map<Bytes, nat>)
    returns (fault: Option<ManifestError>)
    requires forall n :: CountIn(messages, n) == if n in counts then counts[n] else 0
    ensures fault.None? <==> forall f :: f in folders ==> f.messageCount == CountIn(messages, f.name)
  {
    for i := 0 to |folders|
      invariant forall j :: 0 <= j < i ==> folders[j].messageCount == CountIn(messages, folders[j].name)
    {
      var f := folders[i];
      assert f in folders;
      var actual := if f.name in counts then counts[f.name] else 0;
      if f.messageCount != actual { return Some(WrongCount); }
    }
    fault := None;
  }

  /** Accept exactly the acceptable manifests. */
  method ValidateManifest(m: Manifest) returns (fault: Option<ManifestError>)
    ensures fault.None? <==> Acceptable(m)
  {
    if m.version != ARCHIVE_FORMAT_VERSION { return Some(UnsupportedVersion); }
    var bad, names := CheckFolders(m.folders);
    if bad.Some? { return bad; }
    var wrong, counts := CheckMessages(m.messages, names);
    if wrong.Some? { return wrong; }
    fault := CheckCounts(m.folders, m.messages, counts);
  }

  // ---------------------------------------------------------------- consequences

  /** An accepted manifest never names one file twice, although no accepted manifest owes that to the path check. */
  lemma AcceptedPathsAreDistinct(m: Manifest)
    requires Acceptable(m)
    ensures forall i, j :: 0 <= i < j < |m.messages| ==> m.messages[i].relPath != m.messages[j].relPath
  {
    forall i, j | 0 <= i < j < |m.messages| ensures m.messages[i].relPath != m.messages[j].relPath {
      var a, b := m.messages[i], m.messages[j];
      if a.relPath == b.relPath { PathIsIdentity(a, b, FolderNames(m.folders)); }
    }
  }

  function TotalCount(folders: seq<FolderRecord>): nat {
    if folders == [] then 0 else folders[0].messageCount + TotalCount(folders[1..])
  }

  /** The messages of the folders, folder by folder. */
  function SumIn(folders: seq<FolderRecord>, messages: seq<MessageRecord>): nat {
    if folders == [] then 0 else CountIn(messages, folders[0].name) + SumIn(folders[1..], messages)
  }

  lemma CountSnoc(messages: seq<MessageRecord>, r: MessageRecord, n: Bytes)
    ensures CountIn(messages + [r], n) == CountIn(messages, n) + if r.folder == n then 1 else 0
  {
  }

  /** One more message adds one to the sum, because it lies in one folder. */
  lemma {:induction false} SumSnoc(folders: seq<FolderRecord>, messages: seq<MessageRecord>, r: MessageRecord)
    requires DistinctNames(folders)
    ensures SumIn(folders, messages + [r]) == SumIn(folders, messages) + if r.folder in FolderNames(folders) then 1 else 0
  {
    if folders != [] {
      var f := folders[0];
      assert folders == [f] + folders[1..];
      CountSnoc(messages, r, f.name);
      SumSnoc(folders[1..], messages, r);
      assert FolderNames(folders) == {f.name} + FolderNames(folders[1..]);
      assert f.name !in FolderNames(folders[1..]);
    }
  }

  lemma {:induction false} NoMessages(folders: seq<FolderRecord>)
    ensures SumIn(folders, []) == 0
  {
    if folders != [] { NoMessages(folders[1..]); }
  }

  lemma {:induction false} SumIsAll(folders: seq<FolderRecord>, messages: seq<MessageRecord>)
    requires DistinctNames(folders) && forall r :: r in messages ==> r.folder in FolderNames(folders)
    ensures SumIn(folders, messages) == |messages|
  {
    if messages == [] {
      NoMessages(folders);
    } else {
      var p, last := messages[..|messages| - 1], messages[|messages| - 1];
      assert messages == p + [last];
      SumIsAll(folders, p);
      SumSnoc(folders, p, last);
    }
  }

  lemma {:induction false} TotalIsSum(folders: seq<FolderRecord>, messages: seq<MessageRecord>)
    requires forall f :: f in folders ==> f.messageCount == CountIn(messages, f.name)
    ensures TotalCount(folders) == SumIn(folders, messages)
  {
    if folders != [] {
      assert folders == [folders[0]] + folders[1..];
      TotalIsSum(folders[1..], messages);
    }
  }

  /** The declared counts add up to the number of messages. */
  lemma AcceptedCountsAddUp(m: Manifest)
    requires Acceptable(m)
    ensures TotalCount(m.folders) == |m.messages|
  {
    TotalIsSum(m.folders, m.messages);
    SumIsAll(m.folders, m.messages);
  }
}
