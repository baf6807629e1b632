/**
 Attribution: from the keys a sender declares and the facts the host observes,
 decide whether a send is attributed and which keys may reach the Governor.
 */
module Attribution {
  import opened Prelude

  // ---------------------------------------------------------------- catalog

  /** The catalog attributes. */
  datatype Attr =
    | ReplyToThread | KnownContact | FrequentContact | ColdEmail | TylerApproved
    | AuthorizedCampaign | ReadOnly | DraftOnly | Informational | Scheduling | MoveToFolder
    | DeleteMessage | UnauthorizedOutreach | HumanEdited | ShortBody | CalendarInvitation
    | AgentDrafted | HasAttachment | HasPii | UncitedClaims | SensitiveAttachment | InternalDomain
    | TrustedDomain | UnknownDomain | FreemailDomain | DisposableDomain | GovDomain
    | FinancialContent | LegalContent | CommitmentLanguage | LowStakes | BulkSend | HasBcc
    | SingleRecipient

  /** The attributes in catalog order. */
  const CATALOG: seq<Attr> := [
    ReplyToThread, KnownContact, FrequentContact, ColdEmail, TylerApproved, AuthorizedCampaign,
    ReadOnly, DraftOnly, Informational, Scheduling, MoveToFolder, DeleteMessage,
    UnauthorizedOutreach, HumanEdited, ShortBody, CalendarInvitation, AgentDrafted, HasAttachment,
    HasPii, UncitedClaims, SensitiveAttachment, InternalDomain, TrustedDomain, UnknownDomain,
    FreemailDomain, DisposableDomain, GovDomain, FinancialContent, LegalContent,
    CommitmentLanguage, LowStakes, BulkSend, HasBcc, SingleRecipient]

  /** The wire name of an attribute. */
  function Name(a: Attr): string {
    match a
    case ReplyToThread => "reply_to_thread"
    case KnownContact => "known_contact"
    case FrequentContact => "frequent_contact"
    case ColdEmail => "cold_email"
    case TylerApproved => "tyler_approved"
    case AuthorizedCampaign => "authorized_campaign"
    case ReadOnly => "read_only"
    case DraftOnly => "draft_only"
    case Informational => "informational"
    case Scheduling => "scheduling"
    case MoveToFolder => "move_to_folder"
    case DeleteMessage => "delete_message"
    case UnauthorizedOutreach => "unauthorized_outreach"
    case HumanEdited => "human_edited"
    case ShortBody => "short_body"
    case CalendarInvitation => "calendar_invitation"
    case AgentDrafted => "agent_drafted"
    case HasAttachment => "has_attachment"
    case HasPii => "has_pii"
    case UncitedClaims => "uncited_claims"
    case SensitiveAttachment => "sensitive_attachment"
    case InternalDomain => "internal_domain"
    case TrustedDomain => "trusted_domain"
    case UnknownDomain => "unknown_domain"
    case FreemailDomain => "freemail_domain"
    case DisposableDomain => "disposable_domain"
    case GovDomain => "gov_domain"
    case FinancialContent => "financial_content"
    case LegalContent => "legal_content"
    case CommitmentLanguage => "commitment_language"
    case LowStakes => "low_stakes"
    case BulkSend => "bulk_send"
    case HasBcc => "has_bcc"
    case SingleRecipient => "single_recipient"
  }

  function Lookup(s: string, table: seq<Attr>): Option<Attr> {
    if table == [] then None
    else if Name(table[0]) == s then Some(table[0])
    else Lookup(s, table[1..])
  }

  lemma LookupFinds(s: string, table: seq<Attr>)
    ensures var r := Lookup(s, table);
            && (r.Some? ==> r.value in table && Name(r.value) == s)
            && (r.None? ==> forall a :: a in table ==> Name(a) != s)
  {
  }

  /** The catalog attribute a declared key names, if any. */
  function KeyOf(s: string): Option<Attr> {
    Lookup(s, CATALOG)
  }

  /** Two characters tell the wire names apart. */
  function Mark(a: Attr): (char, char) {
    match a
    case ReplyToThread => ('r', '_')
    case KnownContact => ('k', '_')
    case FrequentContact => ('f', 'e')
    case ColdEmail => ('c', 'e')
    case TylerApproved => ('t', '_')
    case AuthorizedCampaign => ('a', 'r')
    case ReadOnly => ('r', 'o')
    case DraftOnly => ('d', '_')
    case Informational => ('i', 'm')
    case Scheduling => ('s', 'u')
    case MoveToFolder => ('m', 't')
    case DeleteMessage => ('d', 'e')
    case UnauthorizedOutreach => ('u', 'h')
    case HumanEdited => ('h', '_')
    case ShortBody => ('s', '_')
    case CalendarInvitation => ('c', 'd')
    case AgentDrafted => ('a', '_')
    case HasAttachment => ('h', 't')
    case HasPii => ('h', 'i')
    case UncitedClaims => ('u', 'e')
    case SensitiveAttachment => ('s', 't')
    case InternalDomain => ('i', 'n')
    case TrustedDomain => ('t', 'e')
    case UnknownDomain => ('u', 'w')
    case FreemailDomain => ('f', 'a')
    case DisposableDomain => ('d', 's')
    case GovDomain => ('g', 'o')
    case FinancialContent => ('f', 'c')
    case LegalContent => ('l', '_')
    case CommitmentLanguage => ('c', 't')
    case LowStakes => ('l', 't')
    case BulkSend => ('b', 's')
    case HasBcc => ('h', 'c')
    case SingleRecipient => ('s', 'e')
  }

  lemma MarkIsInName(a: Attr)
    ensures |Name(a)| > 5 && Mark(a) == (Name(a)[0], Name(a)[5])
  {
  }

  lemma MarksDiffer(a: Attr, b: Attr)
    requires Mark(a) == Mark(b)
    ensures a == b
  {
  }

  lemma NamesDiffer(a: Attr, b: Attr)
    requires Name(a) == Name(b)
    ensures a == b
  {
    MarkIsInName(a);
    MarkIsInName(b);
    MarksDiffer(a, b);
  }

  lemma KeyOfName(a: Attr)
    ensures KeyOf(Name(a)) == Some(a)
  {
    assert a in CATALOG;
    LookupFinds(Name(a), CATALOG);
    NamesDiffer(a, KeyOf(Name(a)).value);
  }

  datatype Provenance = Declarable | HostDerived | RequiresAttestation

  function ProvenanceOf(a: Attr): Provenance {
    match a
    case Informational | Scheduling | LowStakes | FinancialContent | LegalContent
       | CommitmentLanguage | HasPii | UncitedClaims | AgentDrafted => Declarable
    case TylerApproved | AuthorizedCampaign => RequiresAttestation
    case _ => HostDerived
  }

  const EXCLUSIVITY_PAIRS: seq<(Attr, Attr)> := [
    (ColdEmail, KnownContact), (ColdEmail, FrequentContact),
    (ColdEmail, ReplyToThread), (InternalDomain, UnknownDomain)]

  ghost predicate Clash(key: Attr, present: set<Attr>, pair: (Attr, Attr)) {
    (pair.0 == key && pair.1 in present) || (pair.1 == key && pair.0 in present)
  }

  /** Scan the exclusivity pairs in order; the first partner of `key` that is present wins. */
  function PartnerAmong(key: Attr, present: seq<Attr>, pairs: seq<(Attr, Attr)>): (r: Option<Attr>)
    ensures r.Some? <==> exists i :: 0 <= i < |pairs| && Clash(key, Elements(present), pairs[i])
    ensures r.Some? ==> r.value in present
  {
    if pairs == [] then None
    else
      var (a, b) := pairs[0];
      assert pairs == [pairs[0]] + pairs[1..];
      if a == key && b in present then Some(b)
      else if b == key && a in present then Some(a)
      else
        var r := PartnerAmong(key, present, pairs[1..]);
        assert forall i :: 0 < i < |pairs| ==> pairs[i] == pairs[1..][i - 1];
        r
  }

  /** `key` cannot be true together with something in `present`. */
  ghost predicate Excluded(key: Attr, present: set<Attr>) {
    exists i :: 0 <= i < |EXCLUSIVITY_PAIRS| && Clash(key, present, EXCLUSIVITY_PAIRS[i])
  }

  function ConflictingPartner(key: Attr, present: seq<Attr>): (r: Option<Attr>)
    ensures r.Some? <==> Excluded(key, Elements(present))
  {
    PartnerAmong(key, present, EXCLUSIVITY_PAIRS)
  }

  // ---------------------------------------------------------------- host facts

  /** A recipient domain with the classes the host's domain tables give it. */
  datatype Domain = Domain(name: string, freemail: bool, disposable: bool, gov: bool)

  predicate AnyDomain(domains: seq<Domain>, p: Domain -> bool) {
    domains != [] && (p(domains[0]) || AnyDomain(domains[1..], p))
  }

  /** The order in which derived keys are pushed. */
  const EMISSION_ORDER: seq<Attr> := [
    ReplyToThread, KnownContact, FrequentContact, ColdEmail, InternalDomain, TrustedDomain,
    UnknownDomain, FreemailDomain, DisposableDomain, GovDomain, DraftOnly, TylerApproved,
    Informational, HumanEdited, ShortBody, HasAttachment, CalendarInvitation, SensitiveAttachment,
    HasPii, UncitedClaims, FinancialContent, LegalContent, CommitmentLanguage, SingleRecipient,
    BulkSend, HasBcc]

  function Exhibited(ctx: SendContext, keys: seq<Attr>): seq<Attr> {
    if keys == [] then []
    else (if ctx.Exhibits(keys[0]) then [keys[0]] else []) + Exhibited(ctx, keys[1..])
  }

  datatype SendContext = SendContext(
    accountDomain: Option<string>,
    recipientDomains: seq<Domain>,
    recipientCount: nat,
    isReply: bool,
    hasBcc: bool,
    attachmentCount: nat,
    sensitiveAttachment: bool,
    calendarInvitation: bool,
    trustedDomains: seq<string>,
    draftOnly: bool,
    humanApproved: bool,
    humanEdited: Option<bool>,
    shortBody: Option<bool>,
    knownContact: Option<bool>,
    frequentContact: Option<bool>,
    coldEmail: Option<bool>,
    unknownDomain: Option<bool>,
    informational: Option<bool>,
    hasPii: Option<bool>,
    financialContent: Option<bool>,
    legalContent: Option<bool>,
    commitmentLanguage: Option<bool>,
    uncitedClaims: Option<bool>)
  {
    predicate AllInternal() {
      accountDomain.Some? && recipientDomains != [] &&
      !AnyDomain(recipientDomains, (d: Domain) => d.name != accountDomain.value)
    }

    predicate AnyTrusted() { AnyDomain(recipientDomains, (d: Domain) => d.name in trustedDomains) }

    predicate AnyFreemail() { AnyDomain(recipientDomains, (d: Domain) => d.freemail) }

    predicate AnyDisposable() { AnyDomain(recipientDomains, (d: Domain) => d.disposable) }

    predicate AnyGov() { AnyDomain(recipientDomains, (d: Domain) => d.gov) }

    /** The test that makes the host derive a key. */
    predicate Exhibits(key: Attr) {
      match key
      case ReplyToThread => isReply
      case KnownContact => knownContact == Some(true)
      case FrequentContact => frequentContact == Some(true)
      case ColdEmail => coldEmail == Some(true)
      case InternalDomain => AllInternal()
      case TrustedDomain => AnyTrusted()
      case UnknownDomain => unknownDomain == Some(true)
      case FreemailDomain => AnyFreemail()
      case DisposableDomain => AnyDisposable()
      case GovDomain => AnyGov()
      case DraftOnly => draftOnly
      case TylerApproved => humanApproved
      case Informational => informational == Some(true)
      case HumanEdited => humanEdited == Some(true)
      case ShortBody => shortBody == Some(true)
      case HasAttachment => attachmentCount > 0
      case CalendarInvitation => calendarInvitation
      case SensitiveAttachment => sensitiveAttachment
      case HasPii => hasPii == Some(true)
      case UncitedClaims => uncitedClaims == Some(true)
      case FinancialContent => financialContent == Some(true)
      case LegalContent => legalContent == Some(true)
      case CommitmentLanguage => commitmentLanguage == Some(true)
      case SingleRecipient => recipientCount == 1
      case BulkSend => recipientCount >= 6
      case HasBcc => hasBcc
      case _ => false
    }

    /** The catalog keys this context exhibits, in emission order. */
    function GovernorAttrs(): seq<Attr> {
      Exhibited(this, EMISSION_ORDER)
    }

    /** What the host saw of a host-derived key: present, absent, or not observable. */
    function ObserveHostKey(key: Attr): Option<bool> {
      match key
      case ReplyToThread => Some(isReply)
      case HasAttachment => Some(attachmentCount > 0)
      case CalendarInvitation => Some(calendarInvitation)
      case SensitiveAttachment => Some(sensitiveAttachment)
      case HasBcc => Some(hasBcc)
      case BulkSend => Some(recipientCount >= 6)
      case SingleRecipient => Some(recipientCount == 1)
      case DraftOnly => Some(draftOnly)
      case ReadOnly | MoveToFolder | DeleteMessage => Some(false)
      case InternalDomain =>
        if accountDomain.Some? && recipientDomains != [] then Some(AllInternal()) else None
      case TrustedDomain => if recipientDomains != [] then Some(AnyTrusted()) else None
      case FreemailDomain => if recipientDomains != [] then Some(AnyFreemail()) else None
      case DisposableDomain => if recipientDomains != [] then Some(AnyDisposable()) else None
      case GovDomain => if recipientDomains != [] then Some(AnyGov()) else None
      case KnownContact => knownContact
      case FrequentContact => frequentContact
      case UnknownDomain => unknownDomain
      case ColdEmail => if isReply then Some(false) else coldEmail
      case HumanEdited => humanEdited
      case ShortBody => shortBody
      case _ => None
    }
  }

  lemma {:induction false} ExhibitedHas(ctx: SendContext, keys: seq<Attr>, key: Attr)
    ensures key in Exhibited(ctx, keys) <==> key in keys && ctx.Exhibits(key)
  {
    if keys != [] {
      ExhibitedHas(ctx, keys[1..], key);
      assert keys == [keys[0]] + keys[1..];
    }
  }

  lemma {:induction false} ExhibitedDistinct(ctx: SendContext, keys: seq<Attr>)
    requires Distinct(keys)
    ensures Distinct(Exhibited(ctx, keys))
  {
    if keys != [] {
      ExhibitedDistinct(ctx, keys[1..]);
      assert keys[0] !in keys[1..];
      ExhibitedHas(ctx, keys[1..], keys[0]);
      DistinctAppend([keys[0]], Exhibited(ctx, keys[1..]));
    }
  }

  lemma Emitted(ctx: SendContext, key: Attr)
    requires ctx.Exhibits(key)
    ensures key in EMISSION_ORDER
  {
  }

  /** A key is derived exactly when its test holds. */
  lemma DerivedIffExhibited(ctx: SendContext, key: Attr)
    ensures key in ctx.GovernorAttrs() <==> ctx.Exhibits(key)
  {
    ExhibitedHas(ctx, EMISSION_ORDER, key);
    if ctx.Exhibits(key) { Emitted(ctx, key); }
  }

  /**
   What the host observed of a key agrees with what it derived, with one exception:
   on a reply it reports a looked-up cold contact as absent, and still derives it.
   */
  lemma ObservationAgrees(ctx: SendContext, key: Attr)
    ensures ctx.ObserveHostKey(key) == Some(true) ==> key in ctx.GovernorAttrs()
    ensures ctx.ObserveHostKey(key) == Some(false) && key in ctx.GovernorAttrs() <==>
            key.ColdEmail? && ctx.isReply && ctx.coldEmail == Some(true)
  {
    DerivedIffExhibited(ctx, key);
  }

  /** What every builder of a context sees to: a reply is no cold contact, whatever the look-up said. */
  predicate AsBuilt(ctx: SendContext) {
    ctx.isReply ==> ctx.coldEmail == Some(false)
  }

  /** For the contexts the program builds, what was observed of a key is what was derived. */
  lemma ObservationAgreesAsBuilt(ctx: SendContext, key: Attr)
    requires AsBuilt(ctx) && ctx.ObserveHostKey(key).Some?
    ensures key in ctx.GovernorAttrs() <==> ctx.ObserveHostKey(key).value
  {
    ObservationAgrees(ctx, key);
  }

  lemma OrderDistinct()
    ensures Distinct(EMISSION_ORDER)
  {
  }

  /** No key is derived twice. */
  lemma DerivedDistinct(ctx: SendContext)
    ensures Distinct(ctx.GovernorAttrs())
  {
    OrderDistinct();
    ExhibitedDistinct(ctx, EMISSION_ORDER);
  }

  // ---------------------------------------------------------------- resolution

  /** Trimmed, non-blank tokens in first-seen order, each once. */
  function Clean(declared: seq<string>): seq<string> {
    if declared == [] then []
    else
      var p := Clean(declared[..|declared| - 1]);
      var k := Trim(declared[|declared| - 1]);
      if k == "" || k in p then p else p + [k]
  }

  lemma CleanStep(p: seq<string>, k: string)
    requires Distinct(p)
    ensures k in p ==> Elements(p) + {k} == Elements(p)
    ensures k !in p ==> Distinct(p + [k]) && Elements(p + [k]) == Elements(p) + {k}
  {
  }

  ghost function Tokens(declared: seq<string>): set<string> {
    set d | d in declared && Trim(d) != "" :: Trim(d)
  }

  lemma TokensSnoc(declared: seq<string>)
    requires declared != []
    ensures var n := |declared| - 1;
            var k := Trim(declared[n]);
            Tokens(declared) == Tokens(declared[..n]) + if k == "" then {} else {k}
  {
    var n := |declared| - 1;
    assert declared == declared[..n] + [declared[n]];
  }

  lemma {:induction false} CleanIsTokens(declared: seq<string>)
    ensures Distinct(Clean(declared)) && Elements(Clean(declared)) == Tokens(declared)
  {
    if declared != [] {
      var n := |declared| - 1;
      CleanIsTokens(declared[..n]);
      TokensSnoc(declared);
      CleanStep(Clean(declared[..n]), Trim(declared[n]));
    }
  }

  datatype Code =
    | UnknownAttribute
    | AttestationRequired
    | ConflictsWithHostObservation
    | HostVerificationUnavailable
    | ConflictingAttributes

  datatype Rejection = Rejection(key: string, code: Code)

  datatype State = Attributed | Unattributed | Invalid

  datatype Resolution = Resolution(
    declared: seq<string>,
    derived: seq<Attr>,
    governor: seq<string>,
    rejected: seq<Rejection>,
    redundant: seq<Attr>,
    state: State)

  /** Why the host refuses a declared attribute, leaving impossible combinations aside. */
  function Refusal(ctx: SendContext, a: Attr): Option<Code> {
    match ProvenanceOf(a)
    case Declarable => None
    case RequiresAttestation => Some(AttestationRequired)
    case HostDerived =>
      match ctx.ObserveHostKey(a)
      case Some(true) => None
      case Some(false) => Some(ConflictsWithHostObservation)
      case None => Some(HostVerificationUnavailable)
  }

  predicate Stands(ctx: SendContext, a: Attr) {
    Refusal(ctx, a).None?
  }

  /** Some declared token names this attribute. */
  ghost predicate Declares(tokens: set<string>, a: Attr) {
    exists k :: k in tokens && KeyOf(k) == Some(a)
  }

  ghost function Standing(tokens: set<string>, ctx: SendContext): set<Attr> {
    set k | k in tokens && KeyOf(k).Some? && Stands(ctx, KeyOf(k).value) :: KeyOf(k).value
  }

  ghost function Union(tokens: set<string>, ctx: SendContext): set<Attr> {
    Elements(ctx.GovernorAttrs()) + Standing(tokens, ctx)
  }

  ghost function Names(attrs: set<Attr>): set<string> {
    set a | a in attrs :: Name(a)
  }

  /** The reasons a declared key can be refused for. */
  ghost predicate Fault(tokens: set<string>, ctx: SendContext, x: Rejection) {
    && x.key in tokens
    && match KeyOf(x.key)
       case None => x.code.UnknownAttribute?
       case Some(a) =>
         if x.code.ConflictingAttributes? then Stands(ctx, a) && Excluded(a, Union(tokens, ctx))
         else Refusal(ctx, a) == Some(x.code)
  }

  /** Reference definition: the state, from the set of declared tokens alone. */
  ghost function StateOf(tokens: set<string>, ctx: SendContext, require: bool): State {
    if exists x :: Fault(tokens, ctx, x) then Invalid
    else if (require && Standing(tokens, ctx) == {}) || Union(tokens, ctx) == {} then Unattributed
    else Attributed
  }

  ghost predicate Resolves(r: Resolution, declared: seq<string>, ctx: SendContext, require: bool) {
    var tokens := Tokens(declared);
    && r.declared == Clean(declared)
    && r.derived == ctx.GovernorAttrs()
    && r.state == StateOf(tokens, ctx, require)
    && (forall x :: x in r.rejected <==> Fault(tokens, ctx, x))
    && (r.state.Attributed? ==> StrictlySorted(r.governor) && Elements(r.governor) == Names(Union(tokens, ctx)))
    && (!r.state.Attributed? ==> r.governor == [])
    && (forall a :: a in r.redundant <==>
          a in Standing(tokens, ctx) && !ProvenanceOf(a).Declarable? && !Excluded(a, Union(tokens, ctx)))
  }

  lemma NewName(attrs: seq<Attr>, a: Attr)
    requires a !in attrs
    ensures Name(a) !in Names(Elements(attrs))
    ensures Names(Elements(attrs + [a])) == Names(Elements(attrs)) + {Name(a)}
  {
    ElementsAppend(attrs, [a]);
    if Name(a) in Names(Elements(attrs)) {
      var b :| b in Elements(attrs) && Name(b) == Name(a);
      NamesDiffer(a, b);
      assert false;
    }
  }

  /** Sort the wire names of a duplicate-free list. */
  method SortNames(attrs: seq<Attr>) returns (r: seq<string>)
    requires Distinct(attrs)
    ensures StrictlySorted(r) && Elements(r) == Names(Elements(attrs))
  {
    r := [];
    for i := 0 to |attrs|
      invariant StrictlySorted(r) && Elements(r) == Names(Elements(attrs[..i]))
    {
      NewName(attrs[..i], attrs[i]);
      r := Insert(r, Name(attrs[i]));
      assert attrs[..i + 1] == attrs[..i] + [attrs[i]];
    }
    assert attrs[..|attrs|] == attrs;
  }

  /** `base` followed by the attributes of `extra` it does not hold yet. */
  method Extend(base: seq<Attr>, extra: seq<Attr>) returns (r: seq<Attr>)
    requires Distinct(base)
    ensures Distinct(r) && Elements(r) == Elements(base) + Elements(extra)
  {
    r := base;
    for i := 0 to |extra|
      invariant Distinct(r) && Elements(r) == Elements(base) + Elements(extra[..i])
    {
      assert extra[..i + 1] == extra[..i] + [extra[i]];
      ElementsAppend(extra[..i], [extra[i]]);
      if extra[i] !in r {
        ElementsAppend(r, [extra[i]]);
        r := r + [extra[i]];
      } else {
        assert extra[i] in Elements(r);
      }
    }
    assert extra[..|extra|] == extra;
  }

  /** Attributes kept once the conflicting ones are dropped. */
  function Retain(attrs: seq<Attr>, dropped: seq<Attr>): (r: seq<Attr>)
    ensures forall a :: a in r <==> a in attrs && a !in dropped
  {
    if attrs == [] then []
    else
      assert attrs == [attrs[0]] + attrs[1..];
      (if attrs[0] in dropped then [] else [attrs[0]]) + Retain(attrs[1..], dropped)
  }

  lemma DeclaresMore(tokens: set<string>, key: string)
    ensures forall a :: Declares(tokens + {key}, a) <==> Declares(tokens, a) || KeyOf(key) == Some(a)
  {
    forall a | KeyOf(key) == Some(a) ensures Declares(tokens + {key}, a) { assert key in tokens + {key}; }
    forall a | Declares(tokens, a) ensures Declares(tokens + {key}, a) {
      var k :| k in tokens && KeyOf(k) == Some(a);
      assert k in tokens + {key};
    }
  }

  /** Sort every declared key into accepted-declarable, accepted-redundant or rejected. */
  method Sift(keys: seq<string>, ctx: SendContext)
    returns (declarable: seq<Attr>, redundant: seq<Attr>, rejected: seq<Rejection>)
    ensures forall a :: a in declarable <==> Declares(Elements(keys), a) && Stands(ctx, a) && ProvenanceOf(a).Declarable?
    ensures forall a :: a in redundant <==>
      Declares(Elements(keys), a) && Stands(ctx, a) && !ProvenanceOf(a).Declarable?
    ensures forall x :: x in rejected <==> Fault(Elements(keys), ctx, x) && !x.code.ConflictingAttributes?
  {
    declarable, redundant, rejected := [], [], [];
    for i := 0 to |keys|
      invariant forall a :: a in declarable <==> Declares(Elements(keys[..i]), a) && Stands(ctx, a) && ProvenanceOf(a).Declarable?
      invariant forall a :: a in redundant <==>
        Declares(Elements(keys[..i]), a) && Stands(ctx, a) && !ProvenanceOf(a).Declarable?
      invariant forall x :: x in rejected <==>
        x.key in keys[..i] && Fault(Elements(keys), ctx, x) && !x.code.ConflictingAttributes?
    {
      var key := keys[i];
      assert keys[..i + 1] == keys[..i] + [key];
      ElementsAppend(keys[..i], [key]);
      DeclaresMore(Elements(keys[..i]), key);
      match KeyOf(key) {
        case None => rejected := rejected + [Rejection(key, UnknownAttribute)];
        case Some(a) =>
          match Refusal(ctx, a) {
            case Some(code) => rejected := rejected + [Rejection(key, code)];
            case None =>
              if ProvenanceOf(a).Declarable? {
                declarable := declarable + [a];
              } else {
                redundant := redundant + [a];
              }
          }
      }
    }
    assert keys[..|keys|] == keys;
  }

  method CleanKeys(declared: seq<string>) returns (unique: seq<string>)
    ensures unique == Clean(declared)
    ensures Elements(unique) == Tokens(declared)
  {
    CleanIsTokens(declared);
    unique := [];
    for i := 0 to |declared|
      invariant unique == Clean(declared[..i])
    {
      var k := Trim(declared[i]);
      assert declared[..i + 1][..i] == declared[..i];
      if k != "" && k !in unique { unique := unique + [k]; }
    }
    assert declared[..|declared|] == declared;
  }

  lemma RejectionsOf(a: Attr)
    ensures forall x: Rejection ::
      x == Rejection(Name(a), ConflictingAttributes) <==> x.code.ConflictingAttributes? && KeyOf(x.key) == Some(a)
  {
    KeyOfName(a);
    forall x: Rejection | KeyOf(x.key) == Some(a) ensures x.key == Name(a) { LookupFinds(x.key, CATALOG); }
  }

  /** The accepted attributes that clash with something in the union, and their rejections. */
  method FindConflicts(accepted: seq<Attr>, union: seq<Attr>)
    returns (conflicts: seq<Attr>, rejected: seq<Rejection>)
    ensures forall a :: a in conflicts <==> a in accepted && Excluded(a, Elements(union))
    ensures forall x :: x in rejected <==>
      x.code.ConflictingAttributes? && KeyOf(x.key).Some? && KeyOf(x.key).value in conflicts
    ensures rejected == [] ==> conflicts == []
  {
    conflicts, rejected := [], [];
    for i := 0 to |accepted|
      invariant forall a :: a in conflicts <==> a in accepted[..i] && Excluded(a, Elements(union))
      invariant forall x :: x in rejected <==>
        x.code.ConflictingAttributes? && KeyOf(x.key).Some? && KeyOf(x.key).value in conflicts
      invariant rejected == [] ==> conflicts == []
    {
      assert accepted[..i + 1] == accepted[..i] + [accepted[i]];
      if ConflictingPartner(accepted[i], union).Some? {
        RejectionsOf(accepted[i]);
        conflicts := conflicts + [accepted[i]];
        rejected := rejected + [Rejection(Name(accepted[i]), ConflictingAttributes)];
      }
    }
    assert accepted[..|accepted|] == accepted;
  }

  lemma NoFaults(rejected: seq<Rejection>, tokens: set<string>, ctx: SendContext)
    requires forall x :: x in rejected <==> Fault(tokens, ctx, x)
    ensures rejected == [] <==> !exists x :: Fault(tokens, ctx, x)
  {
    if rejected != [] { assert rejected[0] in rejected; }
  }

  lemma StandingIsDeclared(tokens: set<string>, ctx: SendContext)
    ensures forall a :: a in Standing(tokens, ctx) <==> Declares(tokens, a) && Stands(ctx, a)
  {
  }

  lemma ConflictFaults(tokens: set<string>, ctx: SendContext, conflicts: seq<Attr>)
    requires forall a :: a in conflicts <==> a in Standing(tokens, ctx) && Excluded(a, Union(tokens, ctx))
    ensures forall x: Rejection :: x.code.ConflictingAttributes? ==>
      (KeyOf(x.key).Some? && KeyOf(x.key).value in conflicts <==> Fault(tokens, ctx, x))
  {
    forall x: Rejection | x.code.ConflictingAttributes? && KeyOf(x.key).Some? && KeyOf(x.key).value in conflicts
      ensures x.key in tokens
    {
      var k :| k in tokens && KeyOf(k) == KeyOf(x.key);
      LookupFinds(k, CATALOG);
      LookupFinds(x.key, CATALOG);
    }
  }

  /** Nothing was rejected: submit the sorted union, unless a required declaration is missing. */
  method Submit(derived: seq<Attr>, accepted: seq<Attr>, require: bool) returns (state: State, governor: seq<string>)
    requires Distinct(derived)
    ensures var union := Elements(derived) + Elements(accepted);
            && state == (if (require && Elements(accepted) == {}) || union == {} then Unattributed else Attributed)
            && (state.Attributed? ==> StrictlySorted(governor) && Elements(governor) == Names(union))
            && (!state.Attributed? ==> governor == [])
  {
    var union := Extend(derived, accepted);
    governor := SortNames(union);
    assert accepted != [] ==> accepted[0] in Elements(accepted);
    assert union != [] ==> union[0] in Elements(union) && Name(union[0]) in Elements(governor);
    assert governor != [] ==> governor[0] in Elements(governor);
    state := if (require && accepted == []) || governor == [] then Unattributed else Attributed;
    if state.Unattributed? { governor := []; }
  }

  method Resolve(declared: seq<string>, ctx: SendContext, require: bool) returns (r: Resolution)
    ensures Resolves(r, declared, ctx, require)
  {
    ghost var tokens := Tokens(declared);
    var derived := ctx.GovernorAttrs();
    DerivedDistinct(ctx);
    var unique := CleanKeys(declared);
    var declarable, redundant, rejected := Sift(unique, ctx);
    var accepted := declarable + redundant;
    StandingIsDeclared(tokens, ctx);
    assert Elements(accepted) == Standing(tokens, ctx);
    var union := Extend(derived, accepted);
    var conflicts, clashes := FindConflicts(accepted, union);
    ConflictFaults(tokens, ctx, conflicts);
    rejected := rejected + clashes;
    NoFaults(rejected, tokens, ctx);
    declarable, redundant := Retain(declarable, conflicts), Retain(redundant, conflicts);
    var state, governor := Invalid, [];
    if rejected == [] {
      assert Elements(declarable + redundant) == Elements(accepted);
      state, governor := Submit(derived, declarable + redundant, require);
    }
    r := Resolution(unique, derived, governor, rejected, redundant, state);
  }

  /** State and submitted set ignore the order, repetition and padding of what was declared. */
  lemma ResolutionIgnoresOrder(
    r1: Resolution, d1: seq<string>, r2: Resolution, d2: seq<string>, ctx: SendContext, require: bool)
    requires Tokens(d1) == Tokens(d2)
    requires Resolves(r1, d1, ctx, require) && Resolves(r2, d2, ctx, require)
    ensures r1.state == r2.state && r1.governor == r2.governor
  {
    if r1.state.Attributed? { SortedUnique(r1.governor, r2.governor); }
  }

  lemma InUnion(governor: seq<string>, union: set<Attr>, a: Attr)
    requires Elements(governor) == Names(union) && Name(a) in governor
    ensures a in union
  {
    assert Name(a) in Elements(governor);
    var b :| b in union && Name(b) == Name(a);
    NamesDiffer(a, b);
  }

  lemma HostDerivesAttestation(ctx: SendContext)
    ensures TylerApproved in ctx.GovernorAttrs() ==> ctx.humanApproved
    ensures AuthorizedCampaign !in ctx.GovernorAttrs()
  {
    DerivedIffExhibited(ctx, TylerApproved);
    DerivedIffExhibited(ctx, AuthorizedCampaign);
  }

  /** Human-authority attributes are submitted only when the host itself derived them. */
  lemma AttestationOnlyFromHost(r: Resolution, declared: seq<string>, ctx: SendContext, require: bool, a: Attr)
    requires Resolves(r, declared, ctx, require)
    requires a in {TylerApproved, AuthorizedCampaign} && Name(a) in r.governor
    ensures a == TylerApproved && ctx.humanApproved
  {
    InUnion(r.governor, Union(Tokens(declared), ctx), a);
    assert !Stands(ctx, a);
    HostDerivesAttestation(ctx);
  }
}
