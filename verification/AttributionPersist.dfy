/**
 The declaration that travels with a queued draft: bound to the revision it was
 made for, and carrying the bounded count of failed attempts.
 */
module AttributionPersist {
  import opened Prelude
  import opened Attribution

  const PROTOCOL := "envelope.attribution.v1"
  const MAX_ATTRIBUTION_ATTEMPTS: nat := 3
  const U32_MAX: nat := 0xFFFF_FFFF

  // ---------------------------------------------------------------- corrections

  datatype CorrectionCode =
    | HostFactReadOnly
    | AuthorityFactUnavailable
    | UnknownKey
    | AttributesRequired

  datatype Correction = Keys(keys: seq<string>) | Declined(code: CorrectionCode, key: Option<string>)

  function RefusalOf(key: string): Option<CorrectionCode> {
    match KeyOf(key)
    case None => Some(UnknownKey)
    case Some(a) =>
      match ProvenanceOf(a)
      case Declarable => None
      case HostDerived => Some(HostFactReadOnly)
      case RequiresAttestation => Some(AuthorityFactUnavailable)
  }

  /** Token `i` is non-blank and falls in the class `bad`. */
  ghost predicate Offends(requested: seq<string>, bad: string -> bool, i: int) {
    0 <= i < |requested| && Trim(requested[i]) != "" && bad(Trim(requested[i]))
  }

  ghost predicate NoneOffends(requested: seq<string>, bad: string -> bool) {
    forall i :: !Offends(requested, bad, i)
  }

  /** Token `i` is the earliest offender. */
  ghost predicate FirstOffence(requested: seq<string>, bad: string -> bool, i: nat) {
    Offends(requested, bad, i) && forall j :: j < i ==> !Offends(requested, bad, j)
  }

  /** Keys outside the declarable class. */
  const NOT_DECLARABLE: string -> bool := key => RefusalOf(key).Some?

  /** The names of the declarable attributes of `table`, in its order. */
  function DeclarableKeys(table: seq<Attr>): seq<string> {
    if table == [] then []
    else (if ProvenanceOf(table[0]).Declarable? then [Name(table[0])] else []) + DeclarableKeys(table[1..])
  }

  function KeepIn(keys: seq<string>, supplied: seq<string>): (r: seq<string>)
    ensures forall k :: k in r <==> k in keys && k in supplied
  {
    if keys == [] then []
    else
      assert keys == [keys[0]] + keys[1..];
      (if keys[0] in supplied then [keys[0]] else []) + KeepIn(keys[1..], supplied)
  }

  /** What was supplied, in catalog order. */
  function Canonical(catalog: seq<Attr>, supplied: seq<string>): seq<string> {
    KeepIn(DeclarableKeys(catalog), supplied)
  }

  lemma {:induction false} DeclarableKeysHas(table: seq<Attr>, a: Attr)
    ensures a in table && ProvenanceOf(a).Declarable? ==> Name(a) in DeclarableKeys(table)
  {
    if table != [] && a != table[0] {
      DeclarableKeysHas(table[1..], a);
      assert table == [table[0]] + table[1..];
    }
  }

  lemma {:induction false} DeclarableKeysOnly(table: seq<Attr>, k: string)
    requires k in DeclarableKeys(table)
    ensures exists a :: ProvenanceOf(a).Declarable? && Name(a) == k
  {
    if !(ProvenanceOf(table[0]).Declarable? && Name(table[0]) == k) { DeclarableKeysOnly(table[1..], k); }
  }

  /** The distinct tokens up to the first offender, if there is one. */
  method Collect(requested: seq<string>, bad: string -> bool) returns (supplied: seq<string>, offender: Option<nat>)
    ensures offender.None? ==> NoneOffends(requested, bad) && supplied == Clean(requested)
    ensures offender.Some? ==> FirstOffence(requested, bad, offender.value)
  {
    supplied, offender := [], None;
    for i := 0 to |requested|
      invariant forall j :: j < i ==> !Offends(requested, bad, j)
      invariant supplied == Clean(requested[..i])
    {
      var key := Trim(requested[i]);
      assert requested[..i + 1][..i] == requested[..i];
      if key != "" {
        if bad(key) { return supplied, Some(i); }
        if key !in supplied { supplied := supplied + [key]; }
      }
    }
    assert requested[..|requested|] == requested;
  }

  /** Accept a replacement declaration only when every token is declarable; the first offender is reported. */
  method NormalizeContextCorrectionAttrs(catalog: seq<Attr>, requested: seq<string>) returns (r: Correction)
    ensures r.Keys? <==> NoneOffends(requested, NOT_DECLARABLE) && Tokens(requested) != {}
    ensures r.Keys? ==> r.keys == Canonical(catalog, Clean(requested))
    ensures r.Declined? && NoneOffends(requested, NOT_DECLARABLE) ==> r == Declined(AttributesRequired, None)
    ensures !NoneOffends(requested, NOT_DECLARABLE) ==> exists i: nat ::
      FirstOffence(requested, NOT_DECLARABLE, i)
      && r == Declined(RefusalOf(Trim(requested[i])).value, Some(Trim(requested[i])))
  {
    var supplied, offender := Collect(requested, NOT_DECLARABLE);
    if offender.Some? {
      var key := Trim(requested[offender.value]);
      return Declined(RefusalOf(key).value, Some(key));
    }
    CleanIsTokens(requested);
    if supplied == [] { return Declined(AttributesRequired, None); }
    assert supplied[0] in Elements(supplied);
    r := Keys(Canonical(catalog, supplied));
  }

  lemma CanonicalIsComplete(catalog: seq<Attr>, requested: seq<string>)
    requires forall a: Attr :: a in catalog
    requires NoneOffends(requested, NOT_DECLARABLE)
    ensures Elements(Canonical(catalog, Clean(requested))) == Tokens(requested)
  {
    CleanIsTokens(requested);
    forall k | k in Tokens(requested) ensures k in Canonical(catalog, Clean(requested)) {
      assert k in Elements(Clean(requested));
      var i :| 0 <= i < |requested| && Trim(requested[i]) == k && k != "";
      assert !Offends(requested, NOT_DECLARABLE, i);
      LookupFinds(k, CATALOG);
      DeclarableKeysHas(catalog, KeyOf(k).value);
    }
    assert forall k :: k in Canonical(catalog, Clean(requested)) ==> k in Elements(Clean(requested));
  }

  lemma DeclarableNeverExcluded(a: Attr, present: set<Attr>)
    requires ProvenanceOf(a).Declarable?
    ensures !Excluded(a, present)
  {
  }

  lemma LettersStay(s: string)
    requires s != "" && 'a' <= s[0] <= 'z' && 'a' <= s[|s| - 1] <= 'z'
    ensures Trim(s) == s
  {
  }

  lemma NameEnds(a: Attr)
    requires ProvenanceOf(a).Declarable?
    ensures Name(a) != "" && 'a' <= Name(a)[0] <= 'z' && 'a' <= Name(a)[|Name(a)| - 1] <= 'z'
  {
  }

  lemma NameIsTrimmed(a: Attr)
    requires ProvenanceOf(a).Declarable?
    ensures Name(a) != "" && Trim(Name(a)) == Name(a)
  {
    NameEnds(a);
    LettersStay(Name(a));
  }

  lemma DeclarableResolves(keys: seq<string>, ctx: SendContext, require: bool)
    requires keys != []
    requires forall k :: k in keys ==>
      KeyOf(k).Some? && ProvenanceOf(KeyOf(k).value).Declarable? && k != "" && Trim(k) == k
    ensures StateOf(Tokens(keys), ctx, require) == Attributed
  {
    var tokens := Tokens(keys);
    assert forall k :: k in tokens ==> k in keys;
    assert keys[0] in keys && Trim(keys[0]) != "" && keys[0] in tokens;
    assert KeyOf(keys[0]).value in Standing(tokens, ctx);
    forall x ensures !Fault(tokens, ctx, x) {
      if x.key in tokens { DeclarableNeverExcluded(KeyOf(x.key).value, Union(tokens, ctx)); }
    }
  }

  /** A list of declarable names resolves as attributed whatever the host observes. */
  lemma NormalizedIsAttributed(
    catalog: seq<Attr>, requested: seq<string>, keys: seq<string>, ctx: SendContext, require: bool)
    requires forall a: Attr :: a in catalog
    requires NoneOffends(requested, NOT_DECLARABLE) && Tokens(requested) != {}
    requires keys == Canonical(catalog, Clean(requested))
    ensures StateOf(Tokens(keys), ctx, require) == Attributed
  {
    CanonicalIsComplete(catalog, requested);
    forall k | k in keys ensures KeyOf(k).Some? && ProvenanceOf(KeyOf(k).value).Declarable? && k != "" && Trim(k) == k {
      DeclarableKeysOnly(catalog, k);
      var a :| ProvenanceOf(a).Declarable? && Name(a) == k;
      KeyOfName(a);
      NameIsTrimmed(a);
    }
    var k :| k in Tokens(requested);
    assert k in Elements(keys);
    DeclarableResolves(keys, ctx, require);
  }

  // ---------------------------------------------------------------- declarations

  datatype DeclarationOrigin = BotDeclared | HumanDeclared

  datatype PersistedDeclaration = PersistedDeclaration(
    protocol: string,
    origin: DeclarationOrigin,
    declared: seq<string>,
    revision: int,
    attempts: nat,
    exhausted: bool)
  {
    predicate IsCurrent(draftRevision: int) {
      protocol == PROTOCOL && revision == draftRevision
    }
  }

  /** A fresh declaration: the distinct tokens, current at its revision, with no failed attempt. */
  method NewBot(declared: seq<string>, revision: int) returns (d: PersistedDeclaration)
    ensures d.IsCurrent(revision) && d.origin.BotDeclared? && d.attempts == 0 && !d.exhausted
    ensures Distinct(d.declared) && Elements(d.declared) == Tokens(declared) && d.declared == Clean(declared)
  {
    CleanIsTokens(declared);
    var unique := CleanKeys(declared);
    d := PersistedDeclaration(PROTOCOL, BotDeclared, unique, revision, 0, false);
  }

  datatype ScheduledOrigin = Bot | Human | Unknown

  function OriginOf(createdBy: Option<string>, persisted: Option<PersistedDeclaration>, revision: int): ScheduledOrigin {
    if persisted.Some? && persisted.value.IsCurrent(revision) && persisted.value.origin.BotDeclared? then Bot
    else match createdBy
         case Some(cb) => if "human:" <= cb then Human else if cb in ["agent", "mcp", "cli"] then Bot else Unknown
         case None => Unknown
  }

  /** The declared keys the sweep resolves with, and whether a declaration is mandatory. */
  function ScheduledInputs(
    createdBy: Option<string>, humanApproved: bool, persisted: Option<PersistedDeclaration>, revision: int)
    : (seq<string>, bool)
  {
    ( if persisted.Some? && persisted.value.IsCurrent(revision) then persisted.value.declared else [],
      !(OriginOf(createdBy, persisted, revision).Human? && humanApproved) )
  }

  function RecordedAttempts(persisted: Option<PersistedDeclaration>, revision: int): nat {
    if persisted.Some? && persisted.value.IsCurrent(revision) then persisted.value.attempts else 0
  }

  datatype FailureAction = Retry(value: PersistedDeclaration) | Park(value: PersistedDeclaration) | HumanReview

  function SaturatingSucc(n: nat): nat {
    if n >= U32_MAX then U32_MAX else n + 1
  }

  function FailureActionFor(origin: ScheduledOrigin, declared: seq<string>, revision: int, prior: nat): FailureAction {
    if origin.Human? then HumanReview
    else
      var attempts := SaturatingSucc(prior);
      var park := attempts >= MAX_ATTRIBUTION_ATTEMPTS;
      var value := PersistedDeclaration(PROTOCOL, BotDeclared, declared, revision, attempts, park);
      if park then Park(value) else Retry(value)
  }

  ghost predicate Accepted(ctx: SendContext, key: string) {
    KeyOf(key).Some? && Stands(ctx, KeyOf(key).value)
  }

  /** A required declaration that resolves has, at this revision, a standing declared key. */
  lemma AttributedNeedsDeclaration(
    createdBy: Option<string>, approved: bool, persisted: Option<PersistedDeclaration>, revision: int, ctx: SendContext)
    requires var (declared, require) := ScheduledInputs(createdBy, approved, persisted, revision);
             StateOf(Tokens(declared), ctx, require) == Attributed
    ensures (OriginOf(createdBy, persisted, revision).Human? && approved)
         || (persisted.Some? && persisted.value.IsCurrent(revision)
             && exists d :: d in persisted.value.declared && Accepted(ctx, Trim(d)))
  {
    var (declared, require) := ScheduledInputs(createdBy, approved, persisted, revision);
    if require {
      var k :| k in Tokens(declared) && Accepted(ctx, k);
      var d :| d in declared && Trim(d) == k;
    }
  }
}
