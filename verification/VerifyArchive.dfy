/** Checking an archive tree against its manifest, refusing symbolic links on the way. */
module VerifyArchive {
  import opened Prelude
  import opened Text
  import opened Percent
  import opened ArchivePaths
  import opened Manifest

  datatype Entry = Entry(name: Bytes, node: Node)

  datatype Target = ToDirectory(entries: seq<Entry>) | ToFile | Dangling

  /** What a name in a directory stands for, and what a link resolves to. */
  datatype Node = File(bytes: Bytes) | Dir(entries: seq<Entry>, len: nat) | Symlink(target: Target)

  type Path = seq<Bytes>

  // ---------------------------------------------------------------- the tree

  ghost predicate Steps(e: Entry, path: Path, end: Node)
    requires path != []
    decreases |path|, 0
  {
    e.name == path[0] && if |path| == 1 then e.node == end else e.node.Dir? && Reaches(e.node.entries, path[1..], end)
  }

  /** Following the names of `path` through real directories only, one comes to `end`. */
  ghost predicate Reaches(entries: seq<Entry>, path: Path, end: Node)
    decreases |path|, 1
  {
    path != [] && exists e :: e in entries && Steps(e, path, end)
  }

  /** No directory holds one name twice. */
  ghost predicate WellFormed(entries: seq<Entry>) {
    && (forall i, j :: 0 <= i < j < |entries| ==> entries[i].name != entries[j].name)
    && (forall i :: 0 <= i < |entries| && entries[i].node.Dir? ==> WellFormed(entries[i].node.entries))
  }

  function FindEntry(entries: seq<Entry>, name: Bytes): (r: Option<Entry>)
    ensures r.Some? ==> r.value in entries && r.value.name == name
    ensures r.None? ==> forall e :: e in entries ==> e.name != name
  {
    if entries == [] then None
    else if entries[0].name == name then Some(entries[0])
    else
      assert entries == [entries[0]] + entries[1..];
      FindEntry(entries[1..], name)
  }

  // ---------------------------------------------------------------- one record

  datatype Looked = Found(node: Node) | NotFound | Linked | NotADirectory

  /** Stat every component in turn, following none. */
  function LookUp(entries: seq<Entry>, path: Path): Looked
    requires path != []
    decreases |path|
  {
    match FindEntry(entries, path[0])
    case None => NotFound
    case Some(e) =>
      if e.node.Symlink? then Linked
      else if |path| == 1 then Found(e.node)
      else if e.node.Dir? then LookUp(e.node.entries, path[1..])
      else NotADirectory
  }

  datatype Verdict = Clean | Missing | SizeMismatch | ChecksumMismatch | Unreadable

  function Check(r: MessageRecord, root: seq<Entry>, sha: Bytes -> Bytes): Verdict {
    match LookUp(root, Split(r.relPath))
    case Found(File(bytes)) =>
      if |bytes| != r.size then SizeMismatch else if sha(bytes) != r.sha256 then ChecksumMismatch else Clean
    case Found(Dir(_, len)) => if len != r.size then SizeMismatch else Unreadable
    case Found(Symlink(_)) => Missing
    case NotFound => Missing
    case Linked => Missing
    case NotADirectory => Unreadable
  }

  lemma OneEntry(entries: seq<Entry>, e: Entry)
    requires WellFormed(entries) && e in entries
    ensures FindEntry(entries, e.name) == Some(e)
    ensures e.node.Dir? ==> WellFormed(e.node.entries)
  {
  }

  /** A look-up finds a file exactly when real directories lead to it. */
  lemma {:induction false} LookUpReaches(entries: seq<Entry>, path: Path, bytes: Bytes)
    requires path != [] && WellFormed(entries)
    ensures LookUp(entries, path) == Found(File(bytes)) <==> Reaches(entries, path, File(bytes))
    decreases |path|
  {
    forall e | e in entries && e.name == path[0]
      ensures LookUp(entries, path) == Found(File(bytes)) <==> Steps(e, path, File(bytes))
    {
      OneEntry(entries, e);
      if |path| > 1 && e.node.Dir? { LookUpReaches(e.node.entries, path[1..], bytes); }
    }
    if FindEntry(entries, path[0]).Some? { assert FindEntry(entries, path[0]).value in entries; }
  }

  /** A record is clean exactly when a file with its size and digest lies where its path says, behind no link. */
  lemma CleanMeans(r: MessageRecord, root: seq<Entry>, sha: Bytes -> Bytes)
    requires WellFormed(root)
    ensures Check(r, root, sha) == Clean <==>
            exists bytes :: Reaches(root, Split(r.relPath), File(bytes)) && |bytes| == r.size && sha(bytes) == r.sha256
  {
    var looked := LookUp(root, Split(r.relPath));
    if looked.Found? && looked.node.File? { LookUpReaches(root, Split(r.relPath), looked.node.bytes); }
    forall bytes | Reaches(root, Split(r.relPath), File(bytes)) ensures looked == Found(File(bytes)) {
      LookUpReaches(root, Split(r.relPath), bytes);
    }
  }

  // ---------------------------------------------------------------- the walk

  /** Backslashes are reported as slashes. */
  function Slashed(s: Bytes): Bytes {
    if s == [] then [] else [if s[0] == '\\' then '/' else s[0]] + Slashed(s[1..])
  }

  /** The name ends in ".eml" with something before the dot. */
  predicate IsEml(name: Bytes) {
    |name| > 4 && name[|name| - 4..] == ".eml"
  }

  function Under(name: Bytes, leaves: seq<(Path, Node)>): (r: seq<(Path, Node)>)
    ensures forall x :: x in r <==> x.0 != [] && x.0[0] == name && (x.0[1..], x.1) in leaves
  {
    if leaves == [] then []
    else
      var first := ([name] + leaves[0].0, leaves[0].1);
      assert first.0[1..] == leaves[0].0;
      assert leaves == [leaves[0]] + leaves[1..];
      assert forall x: (Path, Node) :: x.0 != [] && x.0[0] == name && x.0[1..] == leaves[0].0 ==> x.0 == first.0;
      [first] + Under(name, leaves[1..])
  }

  function EntryLeaves(e: Entry): seq<(Path, Node)>
    decreases e
  {
    if e.node.Dir? then Under(e.name, Leaves(e.node.entries)) else [([e.name], e.node)]
  }

  /** The files and links below a directory, each with the names leading to it. */
  function Leaves(entries: seq<Entry>): seq<(Path, Node)>
    decreases entries
  {
    if entries == [] then [] else EntryLeaves(entries[0]) + Leaves(entries[1..])
  }

  lemma EntryIsReached(e: Entry, path: Path, leaf: Node)
    requires path != []
    requires e.node.Dir? ==>
      ((path[1..], leaf) in Leaves(e.node.entries) <==> !leaf.Dir? && Reaches(e.node.entries, path[1..], leaf))
    ensures (path, leaf) in EntryLeaves(e) <==> !leaf.Dir? && Steps(e, path, leaf)
  {
    if |path| == 1 { assert path == [path[0]] && path[1..] == []; }
  }

  /** The walk meets exactly the files and links that real directories lead to. */
  lemma {:induction false} LeavesAreReached(entries: seq<Entry>, path: Path, leaf: Node)
    ensures (path, leaf) in Leaves(entries) <==> !leaf.Dir? && Reaches(entries, path, leaf)
    decreases entries
  {
    if entries != [] {
      var e := entries[0];
      assert entries == [e] + entries[1..];
      LeavesAreReached(entries[1..], path, leaf);
      if e.node.Dir? && path != [] { LeavesAreReached(e.node.entries, path[1..], leaf); }
      if path != [] {
        assert Reaches(entries, path, leaf) <==> Steps(e, path, leaf) || Reaches(entries[1..], path, leaf);
        EntryIsReached(e, path, leaf);
      }
    }
  }

  function Reported(prefix: Path, path: Path): Bytes {
    Slashed(Join(prefix + path))
  }

  predicate Message(x: (Path, Node)) {
    x.1.File? && x.0 != [] && IsEml(x.0[|x.0| - 1])
  }

  /** The paths reported for the message files among the leaves. */
  function EmlFiles(prefix: Path, leaves: seq<(Path, Node)>): seq<Bytes> {
    if leaves == [] then []
    else
      (if Message(leaves[0]) then [Reported(prefix, leaves[0].0)] else []) + EmlFiles(prefix, leaves[1..])
  }

  /** The paths reported for the links among the leaves. */
  function Links(prefix: Path, leaves: seq<(Path, Node)>): seq<Bytes> {
    if leaves == [] then []
    else
      (if leaves[0].1.Symlink? then [Reported(prefix, leaves[0].0)] else []) + Links(prefix, leaves[1..])
  }

  lemma {:induction false} EmlFilesHas(prefix: Path, leaves: seq<(Path, Node)>, p: Bytes)
    ensures p in EmlFiles(prefix, leaves) <==> exists x :: x in leaves && Message(x) && p == Reported(prefix, x.0)
  {
    if leaves != [] {
      EmlFilesHas(prefix, leaves[1..], p);
      assert leaves == [leaves[0]] + leaves[1..];
    }
  }

  lemma {:induction false} LinksHas(prefix: Path, leaves: seq<(Path, Node)>, p: Bytes)
    ensures p in Links(prefix, leaves) <==> exists x :: x in leaves && x.1.Symlink? && p == Reported(prefix, x.0)
  {
    if leaves != [] {
      LinksHas(prefix, leaves[1..], p);
      assert leaves == [leaves[0]] + leaves[1..];
    }
  }

  lemma {:induction false} ReportsAppend(prefix: Path, a: seq<(Path, Node)>, b: seq<(Path, Node)>)
    ensures EmlFiles(prefix, a + b) == EmlFiles(prefix, a) + EmlFiles(prefix, b)
    ensures Links(prefix, a + b) == Links(prefix, a) + Links(prefix, b)
  {
    if a == [] {
      assert a + b == b;
    } else {
      ReportsAppend(prefix, a[1..], b);
      assert (a + b)[0] == a[0] && (a + b)[1..] == a[1..] + b;
      var here := Reported(prefix, a[0].0);
      ConcatAssociates(if Message(a[0]) then [here] else [], EmlFiles(prefix, a[1..]), EmlFiles(prefix, b));
      ConcatAssociates(if a[0].1.Symlink? then [here] else [], Links(prefix, a[1..]), Links(prefix, b));
    }
  }

  lemma {:induction false} ReportsUnder(prefix: Path, name: Bytes, leaves: seq<(Path, Node)>)
    requires forall x :: x in leaves ==> x.0 != []
    ensures EmlFiles(prefix, Under(name, leaves)) == EmlFiles(prefix + [name], leaves)
    ensures Links(prefix, Under(name, leaves)) == Links(prefix + [name], leaves)
  {
    if leaves != [] {
      var x := leaves[0];
      assert leaves == [x] + leaves[1..];
      ReportsUnder(prefix, name, leaves[1..]);
      var u := Under(name, leaves);
      assert u[0] == ([name] + x.0, x.1) && u[1..] == Under(name, leaves[1..]);
      assert prefix + ([name] + x.0) == prefix + [name] + x.0;
    }
  }

  lemma {:induction false} LeavesSnoc(entries: seq<Entry>, i: nat)
    requires i < |entries|
    ensures Leaves(entries[..i + 1]) == Leaves(entries[..i]) + EntryLeaves(entries[i])
  {
    if i == 0 {
      assert entries[..1] == [entries[0]] && entries[..1][1..] == [] && entries[..0] == [];
    } else {
      LeavesSnoc(entries[1..], i - 1);
      assert entries[..i + 1][1..] == entries[1..][..i] && entries[..i][1..] == entries[1..][..i - 1];
      ConcatAssociates(EntryLeaves(entries[0]), Leaves(entries[1..][..i - 1]), EntryLeaves(entries[i]));
    }
  }

  lemma LeafPaths(entries: seq<Entry>)
    ensures forall x :: x in Leaves(entries) ==> x.0 != []
  {
  }

  /** What one entry adds to the report. */
  lemma EntryReports(prefix: Path, e: Entry)
    ensures var (files, links) := (EmlFiles(prefix, EntryLeaves(e)), Links(prefix, EntryLeaves(e)));
            match e.node
            case Symlink(_) => files == [] && links == [Reported(prefix, [e.name])]
            case File(_) => files == (if IsEml(e.name) then [Reported(prefix, [e.name])] else []) && links == []
            case Dir(inner, _) =>
              files == EmlFiles(prefix + [e.name], Leaves(inner)) && links == Links(prefix + [e.name], Leaves(inner))
  {
    if e.node.Dir? {
      LeafPaths(e.node.entries);
      ReportsUnder(prefix, e.name, Leaves(e.node.entries));
    } else {
      var one := EntryLeaves(e);
      assert one[1..] == [] && [e.name][|[e.name]| - 1] == e.name;
    }
  }

  /** The walk so far, extended by one entry, after whatever was listed before it. */
  lemma WalkNext(entries: seq<Entry>, i: nat, prefix: Path, emls: seq<Bytes>, links: seq<Bytes>)
    requires i < |entries|
    ensures var (before, now, e) := (Leaves(entries[..i]), Leaves(entries[..i + 1]), EntryLeaves(entries[i]));
            && emls + EmlFiles(prefix, now) == emls + EmlFiles(prefix, before) + EmlFiles(prefix, e)
            && links + Links(prefix, now) == links + Links(prefix, before) + Links(prefix, e)
  {
    var (before, e) := (Leaves(entries[..i]), EntryLeaves(entries[i]));
    LeavesSnoc(entries, i);
    ReportsAppend(prefix, before, e);
    ConcatAssociates(emls, EmlFiles(prefix, before), EmlFiles(prefix, e));
    ConcatAssociates(links, Links(prefix, before), Links(prefix, e));
  }

  /** Depth first; a link is reported and not entered. */
  method WalkDir(entries: seq<Entry>, prefix: Path, emls: seq<Bytes>, links: seq<Bytes>)
    returns (emlFiles: seq<Bytes>, unsafeEntries: seq<Bytes>)
    ensures emlFiles == emls + EmlFiles(prefix, Leaves(entries))
    ensures unsafeEntries == links + Links(prefix, Leaves(entries))
    decreases entries
  {
    emlFiles, unsafeEntries := emls, links;
    for i := 0 to |entries|
      invariant emlFiles == emls + EmlFiles(prefix, Leaves(entries[..i]))
      invariant unsafeEntries == links + Links(prefix, Leaves(entries[..i]))
    {
      var e := entries[i];
      EntryReports(prefix, e);
      WalkNext(entries, i, prefix, emls, links);
      match e.node {
        case Symlink(_) =>
          unsafeEntries := unsafeEntries + [Reported(prefix, [e.name])];
        case Dir(inner, _) =>
          emlFiles, unsafeEntries := WalkDir(inner, prefix + [e.name], emlFiles, unsafeEntries);
        case File(_) =>
          if IsEml(e.name) { emlFiles := emlFiles + [Reported(prefix, [e.name])]; }
      }
    }
    assert entries[..|entries|] == entries;
  }

  // ---------------------------------------------------------------- the whole archive

  const MESSAGES: Bytes := "messages"

  /** What listing the `messages` directory shows; None when it exists and cannot be listed. A link there is followed. */
  function MessagesDir(root: seq<Entry>): Option<seq<Entry>> {
    match FindEntry(root, MESSAGES)
    case None => Some([])
    case Some(Entry(_, Dir(entries, _))) => Some(entries)
    case Some(Entry(_, Symlink(ToDirectory(entries)))) => Some(entries)
    case Some(Entry(_, Symlink(Dangling))) => Some([])
    case Some(Entry(_, Symlink(ToFile))) => None
    case Some(Entry(_, File(_))) => None
  }

  function Having(records: seq<MessageRecord>, root: seq<Entry>, sha: Bytes -> Bytes, v: Verdict): (r: seq<MessageRecord>)
    ensures forall m :: m in r <==> m in records && Check(m, root, sha) == v
  {
    if records == [] then []
    else
      var last := records[|records| - 1];
      assert records == records[..|records| - 1] + [last];
      Having(records[..|records| - 1], root, sha, v) + if Check(last, root, sha) == v then [last] else []
  }

  /** Each record has one verdict. */
  lemma {:induction false} HavingPartition(records: seq<MessageRecord>, root: seq<Entry>, sha: Bytes -> Bytes)
    ensures |Having(records, root, sha, Clean)| + |Having(records, root, sha, Missing)|
          + |Having(records, root, sha, SizeMismatch)| + |Having(records, root, sha, ChecksumMismatch)|
          + |Having(records, root, sha, Unreadable)| == |records|
  {
    if records != [] { HavingPartition(records[..|records| - 1], root, sha); }
  }

  datatype Outcome =
    | Invalid(fault: ManifestError)
    | IoFailure
    | Verified(missing: seq<MessageRecord>, wrongSize: seq<MessageRecord>, wrongDigest: seq<MessageRecord>,
               extras: set<Bytes>, unsafeEntries: seq<Bytes>)
  {
    predicate Ok() { Verified? && missing == [] && wrongSize == [] && wrongDigest == [] && unsafeEntries == [] }
  }

  ghost function Referenced(m: Manifest): set<Bytes> {
    set r | r in m.messages :: r.relPath
  }

  method FindExtras(emls: seq<Bytes>, records: seq<MessageRecord>) returns (extras: set<Bytes>)
    ensures extras == Elements(emls) - set r | r in records :: r.relPath
  {
    var referenced := set r | r in records :: r.relPath;
    extras := set p | p in emls && p !in referenced;
  }

  method CheckRecords(records: seq<MessageRecord>, root: seq<Entry>, sha: Bytes -> Bytes)
    returns (missing: seq<MessageRecord>, wrongSize: seq<MessageRecord>, wrongDigest: seq<MessageRecord>, ok: bool)
    ensures ok <==> Having(records, root, sha, Unreadable) == []
    ensures ok ==> missing == Having(records, root, sha, Missing)
    ensures ok ==> wrongSize == Having(records, root, sha, SizeMismatch)
    ensures ok ==> wrongDigest == Having(records, root, sha, ChecksumMismatch)
  {
    missing, wrongSize, wrongDigest := [], [], [];
    for i := 0 to |records|
      invariant missing == Having(records[..i], root, sha, Missing)
      invariant wrongSize == Having(records[..i], root, sha, SizeMismatch)
      invariant wrongDigest == Having(records[..i], root, sha, ChecksumMismatch)
      invariant Having(records[..i], root, sha, Unreadable) == []
    {
      assert records[..i + 1][..i] == records[..i];
      match Check(records[i], root, sha) {
        case Clean =>
        case Missing => missing := missing + [records[i]];
        case SizeMismatch => wrongSize := wrongSize + [records[i]];
        case ChecksumMismatch => wrongDigest := wrongDigest + [records[i]];
        case Unreadable =>
          assert records[i] in Having(records, root, sha, Unreadable);
          ok := false;
          return;
      }
    }
    assert records[..|records|] == records;
    ok := true;
  }

  /** The report puts every record under its verdict, and every reported path of the walk where it belongs. */
  ghost predicate Describes(r: Outcome, m: Manifest, root: seq<Entry>, sha: Bytes -> Bytes) {
    && r.Verified? && MessagesDir(root).Some? && Having(m.messages, root, sha, Unreadable) == []
    && r.missing == Having(m.messages, root, sha, Missing)
    && r.wrongSize == Having(m.messages, root, sha, SizeMismatch)
    && r.wrongDigest == Having(m.messages, root, sha, ChecksumMismatch)
    && var leaves := Leaves(MessagesDir(root).value);
       && r.unsafeEntries == Links([MESSAGES], leaves)
       && r.extras == Elements(EmlFiles([MESSAGES], leaves)) - Referenced(m)
  }

  predicate ExactlyOne(a: bool, b: bool, c: bool, d: bool) {
    (if a then 1 else 0) + (if b then 1 else 0) + (if c then 1 else 0) + (if d then 1 else 0) == 1
  }

  /**
   In a report every record is clean or lies in exactly one of the three lists, the
   lists name records only, and with the clean ones they account for all of them.
   */
  lemma VerdictsPartition(r: Outcome, m: Manifest, root: seq<Entry>, sha: Bytes -> Bytes, x: MessageRecord)
    requires Describes(r, m, root, sha)
    ensures x in m.messages ==>
      ExactlyOne(Check(x, root, sha) == Clean, x in r.missing, x in r.wrongSize, x in r.wrongDigest)
    ensures x in r.missing || x in r.wrongSize || x in r.wrongDigest ==> x in m.messages
    ensures |Having(m.messages, root, sha, Clean)| + |r.missing| + |r.wrongSize| + |r.wrongDigest| == |m.messages|
  {
    HavingPartition(m.messages, root, sha);
  }

  /** Verify the archive: every record against the tree, and the tree against the records. */
  method VerifyArchive(m: Manifest, root: seq<Entry>, sha: Bytes -> Bytes) returns (r: Outcome)
    ensures r.Invalid? <==> !Acceptable(m)
    ensures r.IoFailure? <==> Acceptable(m) && (Having(m.messages, root, sha, Unreadable) != [] || MessagesDir(root).None?)
    ensures r.Verified? ==> Describes(r, m, root, sha)
  {
    var fault := ValidateManifest(m);
    if fault.Some? { return Invalid(fault.value); }
    var missing, wrongSize, wrongDigest, ok := CheckRecords(m.messages, root, sha);
    if !ok { return IoFailure; }
    var dir := MessagesDir(root);
    if dir.None? { return IoFailure; }
    var emls, links := WalkDir(dir.value, [MESSAGES], [], []);
    var extras := FindExtras(emls, m.messages);
    assert emls == EmlFiles([MESSAGES], Leaves(dir.value)) && links == Links([MESSAGES], Leaves(dir.value));
    r := Verified(missing, wrongSize, wrongDigest, extras, links);
  }

  lemma AllClean(records: seq<MessageRecord>, root: seq<Entry>, sha: Bytes -> Bytes)
    requires Having(records, root, sha, Unreadable) == []
    ensures (forall x :: x in records ==> Check(x, root, sha) == Clean) <==>
            Having(records, root, sha, Missing) == [] && Having(records, root, sha, SizeMismatch) == []
            && Having(records, root, sha, ChecksumMismatch) == []
  {
  }

  lemma NoLinks(dir: seq<Entry>)
    ensures Links([MESSAGES], Leaves(dir)) == [] <==> forall path, target :: !Reaches(dir, path, Symlink(target))
  {
    var links := Links([MESSAGES], Leaves(dir));
    if links != [] {
      LinksHas([MESSAGES], Leaves(dir), links[0]);
      var x :| x in Leaves(dir) && x.1.Symlink?;
      LeavesAreReached(dir, x.0, x.1);
      assert Reaches(dir, x.0, Symlink(x.1.target));
    }
    forall path, target | Reaches(dir, path, Symlink(target)) ensures links != [] {
      LeavesAreReached(dir, path, Symlink(target));
      assert (path, Symlink(target)) in Leaves(dir);
      LinksHas([MESSAGES], Leaves(dir), Reported([MESSAGES], path));
    }
  }

  /**
   The archive passes exactly when a file with the recorded size and digest lies at
   every record's path, reached through real directories, and the walk met no link.
   */
  lemma OkMeans(m: Manifest, root: seq<Entry>, sha: Bytes -> Bytes, r: Outcome)
    requires WellFormed(root) && Describes(r, m, root, sha)
    ensures r.Ok() <==>
      && (forall x :: x in m.messages ==> exists bytes ::
            Reaches(root, Split(x.relPath), File(bytes)) && |bytes| == x.size && sha(bytes) == x.sha256)
      && (forall path, target :: !Reaches(MessagesDir(root).value, path, Symlink(target)))
  {
    var dir := MessagesDir(root).value;
    forall x | x in m.messages
      ensures Check(x, root, sha) == Clean <==> exists bytes ::
            Reaches(root, Split(x.relPath), File(bytes)) && |bytes| == x.size && sha(bytes) == x.sha256
      ensures Check(x, root, sha) == Clean <==> x !in r.missing && x !in r.wrongSize && x !in r.wrongDigest
    {
      CleanMeans(x, root, sha);
      assert x !in Having(m.messages, root, sha, Unreadable);
    }
    assert (forall x :: x in m.messages ==> Check(x, root, sha) == Clean) <==>
           r.missing == [] && r.wrongSize == [] && r.wrongDigest == [] by {
      AllClean(m.messages, root, sha);
    }
    NoLinks(dir);
  }

  /** The extras are the message files that directories lead to and no record names. */
  lemma ExtrasMean(m: Manifest, root: seq<Entry>, sha: Bytes -> Bytes, r: Outcome, p: Bytes)
    requires Describes(r, m, root, sha)
    ensures p in r.extras <==>
      && p !in Referenced(m)
      && exists path, bytes ::
           Reaches(MessagesDir(root).value, path, File(bytes)) && IsEml(path[|path| - 1]) && p == Reported([MESSAGES], path)
  {
    var dir := MessagesDir(root).value;
    EmlFilesHas([MESSAGES], Leaves(dir), p);
    if p in r.extras {
      var x :| x in Leaves(dir) && Message(x) && p == Reported([MESSAGES], x.0);
      LeavesAreReached(dir, x.0, x.1);
      assert Reaches(dir, x.0, File(x.1.bytes));
    }
    forall path, bytes | Reaches(dir, path, File(bytes)) && IsEml(path[|path| - 1]) && p == Reported([MESSAGES], path)
      ensures p in EmlFiles([MESSAGES], Leaves(dir))
    {
      LeavesAreReached(dir, path, File(bytes));
      assert Message((path, File(bytes)));
    }
  }

  /** Below a real `messages` directory the walk reports only what real directories of the archive lead to. */
  lemma WalkStaysInside(root: seq<Entry>, path: Path, leaf: Node)
    requires FindEntry(root, MESSAGES).Some? && FindEntry(root, MESSAGES).value.node.Dir?
    requires (path, leaf) in Leaves(MessagesDir(root).value)
    ensures Reaches(root, [MESSAGES] + path, leaf)
  {
    var e := FindEntry(root, MESSAGES).value;
    LeavesAreReached(e.node.entries, path, leaf);
    assert ([MESSAGES] + path)[1..] == path;
    assert Steps(e, [MESSAGES] + path, leaf);
  }

  /** What the walk meets. */
  function Walked(root: seq<Entry>): seq<(Path, Node)> {
    match MessagesDir(root)
    case None => []
    case Some(entries) => Leaves(entries)
  }

  /** The walk meets something that no real directory of the archive leads to. */
  ghost predicate WalkEscapes(root: seq<Entry>) {
    exists x :: x in Walked(root) && !Reaches(root, [MESSAGES] + x.0, x.1)
  }

  /** The `messages` entry is a link to a directory with something in it for the walk. */
  predicate LeadsOut(root: seq<Entry>) {
    match FindEntry(root, MESSAGES)
    case Some(Entry(_, Symlink(ToDirectory(entries)))) => Leaves(entries) != []
    case _ => false
  }

  /** Nothing lies below a name that is no directory. */
  lemma NothingBelow(root: seq<Entry>, e: Entry, path: Path, leaf: Node)
    requires WellFormed(root) && e in root && !e.node.Dir? && path != []
    ensures !Reaches(root, [e.name] + path, leaf)
  {
    forall f | f in root ensures !Steps(f, [e.name] + path, leaf) {
      OneEntry(root, f);
      OneEntry(root, e);
    }
  }

  /**
   The walk leaves the archive exactly when `messages` itself is a link to a
   directory that holds a file or a link; that one entry is not checked.
   */
  lemma EscapesExactlyWhen(root: seq<Entry>)
    requires WellFormed(root)
    ensures WalkEscapes(root) <==> LeadsOut(root)
  {
    var found := FindEntry(root, MESSAGES);
    if found.Some? && found.value.node.Dir? {
      forall x | x in Walked(root) ensures Reaches(root, [MESSAGES] + x.0, x.1) { WalkStaysInside(root, x.0, x.1); }
    }
    if LeadsOut(root) {
      var x := Walked(root)[0];
      assert x in Walked(root);
      LeafPaths(MessagesDir(root).value);
      NothingBelow(root, found.value, x.0, x.1);
    }
  }

  /** No record's file is reached when `messages` is no directory. */
  lemma RecordBehindLink(root: seq<Entry>, r: MessageRecord, names: set<Bytes>, bytes: Bytes)
    requires WellFormed(root) && RecordOk(r, names)
    requires FindEntry(root, MESSAGES).Some? && !FindEntry(root, MESSAGES).value.node.Dir?
    ensures !Reaches(root, Split(r.relPath), File(bytes))
  {
    PathSegments(r.folder, r.uidvalidity, r.uid);
    var path := [Encode(r.folder, SlugSafe), MessageFilename(r.uidvalidity, r.uid)];
    NothingBelow(root, FindEntry(root, MESSAGES).value, path, File(bytes));
    assert Split(r.relPath) == [MESSAGES] + path;
  }

  /**
   A linked `messages` directory is not reported: such an archive passes exactly
   when it has no record and the target holds no further link.
   */
  lemma LinkedMessagesPassExactlyWhen(
    m: Manifest, root: seq<Entry>, sha: Bytes -> Bytes, r: Outcome, target: seq<Entry>)
    requires WellFormed(root) && Acceptable(m) && Describes(r, m, root, sha)
    requires FindEntry(root, MESSAGES).Some? && FindEntry(root, MESSAGES).value.node == Symlink(ToDirectory(target))
    ensures r.Ok() <==> m.messages == [] && forall path, to :: !Reaches(target, path, Symlink(to))
  {
    OkMeans(m, root, sha, r);
    if m.messages != [] {
      assert m.messages[0] in m.messages;
      forall bytes ensures !Reaches(root, Split(m.messages[0].relPath), File(bytes)) {
        RecordBehindLink(root, m.messages[0], FolderNames(m.folders), bytes);
      }
    }
  }
}
