/** The one path an archived message may have, and the routes the dashboard links to. */
module ArchivePaths {
  import opened Prelude
  import opened Text
  import opened Percent

  // ---------------------------------------------------------------- cutting and splitting

  /** A text is cut at the first separator in one way only. */
  lemma {:induction false} CutUnique(a: Bytes, x: Bytes, b: Bytes, y: Bytes, c: Byte)
    requires a + [c] + x == b + [c] + y && c !in a && c !in b
    ensures a == b && x == y
  {
    var s := a + [c] + x;
    forall i | 0 <= i < |a| ensures s[i] != c { assert s[i] == a[i]; }
    forall i | 0 <= i < |b| ensures s[i] != c { assert s[i] == b[i]; }
    assert s[|a|] == c && s[|b|] == c;
    assert s[..|a|] == a && s[..|b|] == b;
    assert s[|a| + 1..] == x && s[|b| + 1..] == y;
  }

  function Split(s: Bytes): (r: seq<Bytes>)
    ensures |r| >= 1
  {
    if s == [] then [[]]
    else
      var r := Split(s[1..]);
      if s[0] == '/' then [[]] + r else [[s[0]] + r[0]] + r[1..]
  }

  function Join(segments: seq<Bytes>): Bytes {
    if segments == [] then []
    else if |segments| == 1 then segments[0]
    else segments[0] + "/" + Join(segments[1..])
  }

  lemma JoinSlash(segments: seq<Bytes>)
    requires segments != []
    ensures Join([[]] + segments) == "/" + Join(segments)
  {
  }

  lemma JoinByte(b: Byte, segments: seq<Bytes>)
    requires segments != []
    ensures Join([[b] + segments[0]] + segments[1..]) == [b] + Join(segments)
  {
  }

  lemma {:induction false} JoinSplit(s: Bytes)
    ensures Join(Split(s)) == s
  {
    if s != [] {
      JoinSplit(s[1..]);
      assert s == [s[0]] + s[1..];
      if s[0] == '/' { JoinSlash(Split(s[1..])); } else { JoinByte(s[0], Split(s[1..])); }
    }
  }

  lemma {:induction false} SplitPlain(a: Bytes)
    requires '/' !in a
    ensures Split(a) == [a]
  {
    if a != [] {
      SplitPlain(a[1..]);
      assert [a[0]] + a[1..] == a;
    }
  }

  lemma {:induction false} SplitHead(a: Bytes, rest: Bytes)
    requires '/' !in a
    ensures Split(a + "/" + rest) == [a] + Split(rest)
  {
    var s := a + "/" + rest;
    if a == [] {
      assert s[1..] == rest;
    } else {
      SplitHead(a[1..], rest);
      assert s[0] == a[0] && s[1..] == a[1..] + "/" + rest;
      var r := [a[1..]] + Split(rest);
      assert r[0] == a[1..] && r[1..] == Split(rest) && [a[0]] + a[1..] == a;
    }
  }

  // ---------------------------------------------------------------- message paths

  function MessageFilename(uidvalidity: nat, uid: nat): Bytes {
    Decimal(uidvalidity) + "-" + (Decimal(uid) + ".eml")
  }

  function RelativeMessagePath(folder: Bytes, uidvalidity: nat, uid: nat): Bytes {
    "messages" + "/" + (Encode(folder, SlugSafe) + "/" + MessageFilename(uidvalidity, uid))
  }

  lemma NotEncoded(s: Bytes, safe: Byte -> bool, b: Byte)
    requires Alphabet(safe) && !IsAlphanumeric(b) && b !in "_.-~%"
    ensures b !in Encode(s, safe)
  {
  }

  lemma FilenamePlain(uidvalidity: nat, uid: nat, b: Byte)
    requires b in MessageFilename(uidvalidity, uid)
    ensures '0' <= b <= '9' || b in "-.eml"
  {
    DecimalReads(uidvalidity);
    DecimalReads(uid);
  }

  lemma SplitThree(a: Bytes, b: Bytes, c: Bytes)
    requires '/' !in a && '/' !in b && '/' !in c
    ensures Split(a + "/" + (b + "/" + c)) == [a, b, c]
  {
    SplitPlain(c);
    SplitHead(b, c);
    SplitHead(a, b + "/" + c);
  }

  lemma PathSegments(folder: Bytes, uidvalidity: nat, uid: nat)
    ensures Split(RelativeMessagePath(folder, uidvalidity, uid)) ==
            ["messages", Encode(folder, SlugSafe), MessageFilename(uidvalidity, uid)]
  {
    NotEncoded(folder, SlugSafe, '/');
    if '/' in MessageFilename(uidvalidity, uid) { FilenamePlain(uidvalidity, uid, '/'); }
    SplitThree("messages", Encode(folder, SlugSafe), MessageFilename(uidvalidity, uid));
  }

  lemma FilenameInjective(v1: nat, u1: nat, v2: nat, u2: nat)
    requires MessageFilename(v1, u1) == MessageFilename(v2, u2)
    ensures v1 == v2 && u1 == u2
  {
    DecimalReads(v1);
    DecimalReads(v2);
    CutUnique(Decimal(v1), Decimal(u1) + ".eml", Decimal(v2), Decimal(u2) + ".eml", '-');
    DecimalInjective(v1, v2);
    assert (Decimal(u1) + ".eml")[..|Decimal(u1)|] == Decimal(u1);
    assert (Decimal(u2) + ".eml")[..|Decimal(u2)|] == Decimal(u2);
    DecimalInjective(u1, u2);
  }

  /** No two messages share a path. */
  lemma PathInjective(f1: Bytes, v1: nat, u1: nat, f2: Bytes, v2: nat, u2: nat)
    requires RelativeMessagePath(f1, v1, u1) == RelativeMessagePath(f2, v2, u2)
    ensures f1 == f2 && v1 == v2 && u1 == u2
  {
    PathSegments(f1, v1, u1);
    PathSegments(f2, v2, u2);
    EncodeInjective(f1, f2, SlugSafe);
    FilenameInjective(v1, u1, v2, u2);
  }

  datatype PathError =
    | Empty | Nul | Backslash | Absolute | DrivePrefix | EmptySegment | DotSegment
    | WrongShape | NotMessages | WrongSlug | WrongFilename

  /** Folders whose slug is no path segment. */
  predicate Unplaceable(folder: Bytes) {
    folder == "" || folder == "." || folder == ".."
  }

  lemma SlugSegments(folder: Bytes)
    ensures Encode(folder, SlugSafe) == "" || Encode(folder, SlugSafe) == "." || Encode(folder, SlugSafe) == ".."
            <==> Unplaceable(folder)
  {
    assert Encode(".", SlugSafe) == ".";
    assert ".."[1..] == "." && Encode("..", SlugSafe) == "..";
    if Encode(folder, SlugSafe) == "." { EncodeInjective(folder, ".", SlugSafe); }
    if Encode(folder, SlugSafe) == ".." { EncodeInjective(folder, "..", SlugSafe); }
    if Encode(folder, SlugSafe) == "" { EncodeInjective(folder, "", SlugSafe); }
  }

  /** The canonical path passes every safety test, unless its slug is no path segment. */
  lemma CanonicalIsSafe(folder: Bytes, uidvalidity: nat, uid: nat)
    ensures var p := RelativeMessagePath(folder, uidvalidity, uid);
            && |p| >= 2 && p[0] == 'm' && p[1] == 'e' && '\U{0}' !in p && '\\' !in p
    ensures MessageFilename(uidvalidity, uid) !in ["", ".", ".."]
  {
    var e, n := Encode(folder, SlugSafe), MessageFilename(uidvalidity, uid);
    forall b | b == '\U{0}' || b == '\\' ensures b !in e && b !in n {
      NotEncoded(folder, SlugSafe, b);
      if b in n { FilenamePlain(uidvalidity, uid, b); }
    }
    assert RelativeMessagePath(folder, uidvalidity, uid) == "messages/" + e + "/" + n;
  }

  predicate PlainSegment(seg: Bytes) {
    seg != "" && seg != "." && seg != ".."
  }

  method CheckSegments(segments: seq<Bytes>) returns (fault: Option<PathError>)
    ensures fault.None? <==> forall seg :: seg in segments ==> PlainSegment(seg)
  {
    for i := 0 to |segments|
      invariant forall j :: 0 <= j < i ==> PlainSegment(segments[j])
    {
      var seg := segments[i];
      assert seg in segments;
      if seg == "" { return Some(EmptySegment); }
      if seg == "." || seg == ".." { return Some(DotSegment); }
    }
    fault := None;
  }

  /** Accept exactly the canonical path of the message, for every folder whose slug is a path segment. */
  method ValidateMessageRelPath(relPath: Bytes, folder: Bytes, uidvalidity: nat, uid: nat)
    returns (fault: Option<PathError>)
    ensures fault.None? <==> relPath == RelativeMessagePath(folder, uidvalidity, uid) && !Unplaceable(folder)
  {
    CanonicalIsSafe(folder, uidvalidity, uid);
    PathSegments(folder, uidvalidity, uid);
    SlugSegments(folder);
    if relPath == "" { return Some(Empty); }
    if '\U{0}' in relPath { return Some(Nul); }
    if '\\' in relPath { return Some(Backslash); }
    if relPath[0] == '/' { return Some(Absolute); }
    if |relPath| >= 2 && relPath[1] == ':' && IsAlphanumeric(relPath[0]) && relPath[0] > '9' {
      return Some(DrivePrefix);
    }
    var segments := Split(relPath);
    var bad := CheckSegments(segments);
    if bad.Some? {
      return bad;
    }
    if |segments| != 3 { return Some(WrongShape); }
    if segments[0] != "messages" { return Some(NotMessages); }
    var slug := EncodeFolderForDisk(folder);
    assert segments[1] in segments;
    if segments[1] != slug { return Some(WrongSlug); }
    if segments[2] != MessageFilename(uidvalidity, uid) { return Some(WrongFilename); }
    JoinSplit(relPath);
    JoinSplit(RelativeMessagePath(folder, uidvalidity, uid));
    assert segments == ["messages", slug, MessageFilename(uidvalidity, uid)];
    fault := None;
  }

  // ---------------------------------------------------------------- dashboard routes

  const MAIL_ROUTE: Bytes := "/mail/unified/"
  const FOLDER_QUERY: Bytes := "folder="
  const ACCOUNTS_ROUTE: Bytes := "/accounts/"
  const DRAFTS_ROUTE: Bytes := "drafts/"

  function MessageSegment(folder: Bytes, uid: nat): Bytes {
    Decimal(uid) + "?" + (FOLDER_QUERY + Encode(folder, Unreserved))
  }

  function MessageDashboardPath(account: Bytes, folder: Bytes, uid: nat): Bytes {
    MAIL_ROUTE + (Encode(account, Unreserved) + "/" + MessageSegment(folder, uid))
  }

  function DraftDashboardPath(account: Bytes, draft: Bytes): Bytes {
    ACCOUNTS_ROUTE + (Encode(account, Unreserved) + "/" + (DRAFTS_ROUTE + Encode(draft, Unreserved)))
  }

  lemma SamePrefix(p: Bytes, x: Bytes, y: Bytes)
    requires p + x == p + y
    ensures x == y
  {
    assert (p + x)[|p|..] == x && (p + y)[|p|..] == y;
  }

  /** After a fixed prefix, an escaped name up to the next separator is read back alone. */
  lemma CutRoute(prefix: Bytes, n1: Bytes, r1: Bytes, n2: Bytes, r2: Bytes)
    requires prefix + (Encode(n1, Unreserved) + "/" + r1) == prefix + (Encode(n2, Unreserved) + "/" + r2)
    ensures n1 == n2 && r1 == r2
  {
    NotEncoded(n1, Unreserved, '/');
    NotEncoded(n2, Unreserved, '/');
    SamePrefix(prefix, Encode(n1, Unreserved) + "/" + r1, Encode(n2, Unreserved) + "/" + r2);
    CutUnique(Encode(n1, Unreserved), r1, Encode(n2, Unreserved), r2, '/');
    EncodeInjective(n1, n2, Unreserved);
  }

  lemma LastName(prefix: Bytes, n1: Bytes, n2: Bytes)
    requires prefix + Encode(n1, Unreserved) == prefix + Encode(n2, Unreserved)
    ensures n1 == n2
  {
    SamePrefix(prefix, Encode(n1, Unreserved), Encode(n2, Unreserved));
    EncodeInjective(n1, n2, Unreserved);
  }

  lemma CutNumber(m: nat, x: Bytes, n: nat, y: Bytes)
    requires Decimal(m) + "?" + x == Decimal(n) + "?" + y
    ensures m == n && x == y
  {
    DecimalReads(m);
    DecimalReads(n);
    CutUnique(Decimal(m), x, Decimal(n), y, '?');
    DecimalInjective(m, n);
  }

  /** Different messages have different reader links, whatever their account and folder are called. */
  lemma MessageRouteInjective(a1: Bytes, f1: Bytes, u1: nat, a2: Bytes, f2: Bytes, u2: nat)
    requires MessageDashboardPath(a1, f1, u1) == MessageDashboardPath(a2, f2, u2)
    ensures a1 == a2 && f1 == f2 && u1 == u2
  {
    var (q1, q2) := (FOLDER_QUERY + Encode(f1, Unreserved), FOLDER_QUERY + Encode(f2, Unreserved));
    CutRoute(MAIL_ROUTE, a1, Decimal(u1) + "?" + q1, a2, Decimal(u2) + "?" + q2);
    CutNumber(u1, q1, u2, q2);
    LastName(FOLDER_QUERY, f1, f2);
  }

  lemma DraftRouteInjective(a1: Bytes, d1: Bytes, a2: Bytes, d2: Bytes)
    requires DraftDashboardPath(a1, d1) == DraftDashboardPath(a2, d2)
    ensures a1 == a2 && d1 == d2
  {
    CutRoute(ACCOUNTS_ROUTE, a1, DRAFTS_ROUTE + Encode(d1, Unreserved), a2, DRAFTS_ROUTE + Encode(d2, Unreserved));
    LastName(DRAFTS_ROUTE, d1, d2);
  }

  lemma SplitFive(p: Bytes, a: Bytes, q: Bytes, d: Bytes)
    requires '/' !in p && '/' !in a && '/' !in q && '/' !in d
    ensures Split("" + "/" + (p + "/" + (a + "/" + (q + "/" + d)))) == ["", p, a, q, d]
  {
    SplitPlain(d);
    SplitHead(q, d);
    SplitHead(a, q + "/" + d);
    SplitHead(p, a + "/" + (q + "/" + d));
    SplitHead("", p + "/" + (a + "/" + (q + "/" + d)));
  }

  lemma RouteShape(a: Bytes, d: Bytes)
    ensures ACCOUNTS_ROUTE + (a + "/" + (DRAFTS_ROUTE + d)) == "" + "/" + ("accounts" + "/" + (a + "/" + ("drafts" + "/" + d)))
  {
  }

  /** A draft link has five segments: no account or draft name can add one. */
  lemma RouteSegments(account: Bytes, draft: Bytes)
    ensures Split(DraftDashboardPath(account, draft)) ==
            ["", "accounts", Encode(account, Unreserved), "drafts", Encode(draft, Unreserved)]
  {
    var (a, d) := (Encode(account, Unreserved), Encode(draft, Unreserved));
    NotEncoded(account, Unreserved, '/');
    NotEncoded(draft, Unreserved, '/');
    RouteShape(a, d);
    SplitFive("accounts", a, "drafts", d);
  }

  lemma SegmentIsPlain(folder: Bytes, uid: nat)
    ensures '/' !in MessageSegment(folder, uid)
  {
    NotEncoded(folder, Unreserved, '/');
    DecimalReads(uid);
  }

  lemma MessageRouteShape(a: Bytes, last: Bytes)
    ensures MAIL_ROUTE + (a + "/" + last) == "" + "/" + ("mail" + "/" + ("unified" + "/" + (a + "/" + last)))
  {
  }

  /** A reader link has five segments: account and folder names are each inside one. */
  lemma MessageRouteSegments(account: Bytes, folder: Bytes, uid: nat)
    ensures Split(MessageDashboardPath(account, folder, uid)) ==
            ["", "mail", "unified", Encode(account, Unreserved), MessageSegment(folder, uid)]
  {
    var (a, last) := (Encode(account, Unreserved), MessageSegment(folder, uid));
    NotEncoded(account, Unreserved, '/');
    SegmentIsPlain(folder, uid);
    MessageRouteShape(a, last);
    SplitFive("mail", "unified", a, last);
  }
}
