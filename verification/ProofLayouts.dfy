/** The messages that devices sign: which texts each lists, and that the bytes give every
    field back. */
module ProofLayouts {
  import opened CanonicalEncoding

  datatype WrappedKey = WrappedKey(version: nat, suite: string, encappedKey: string, ciphertext: string)
  datatype EnvelopeItem = EnvelopeItem(recipient: string, envelope: WrappedKey)

  const REVOCATION_DOMAIN := "elydora-device-revocation-v2"
  const PENDING_REVOCATION_DOMAIN := "elydora-pending-device-revocation-v2"
  const APPROVAL_DOMAIN := "elydora-device-approval-v2"
  const BOOTSTRAP_DOMAIN := "elydora-sync-vault-bootstrap-v2"
  const REGISTRATION_DOMAIN := "elydora-device-registration-v2"
  const ACTION_DOMAIN := "elydora-sensitive-action-v2"

  datatype Message =
    | Revocation(user: string, approver: string, device: string, previousKey: string, previousGeneration: nat,
                 newKey: string, newGeneration: nat, idempotencyKey: string, envelopes: seq<EnvelopeItem>)
    | PendingRevocation(user: string, approver: string, device: string, idempotencyKey: string)
    | Approval(user: string, approver: string, device: string, keyId: string, generation: nat,
               envelope: WrappedKey, idempotencyKey: string, createdAt: nat)
    | Bootstrap(user: string, device: string, keyId: string, generation: nat, envelope: WrappedKey, idempotencyKey: string)
    | Registration(device: string, publicKey: string, wrappingKey: string, name: string, platform: string, idempotencyKey: string)
    | Action(action: string, user: string, session: string, device: string, confirmation: string, idempotencyKey: string, createdAt: nat)
    /** The hashed request of an action: the signed texts and the signature. */
    | ActionRequest(action: string, user: string, session: string, device: string, confirmation: string, idempotencyKey: string, createdAt: nat, proof: string)

  function ItemTexts(item: EnvelopeItem): seq<string> {
    [item.recipient, Decimal(item.envelope.version), item.envelope.suite, item.envelope.encappedKey, item.envelope.ciphertext]
  }

  function ItemsTexts(items: seq<EnvelopeItem>): seq<string> {
    if items == [] then [] else ItemTexts(items[0]) + ItemsTexts(items[1..])
  }

  function Texts(m: Message): seq<string> {
    match m
    case Revocation(user, approver, device, previousKey, previousGeneration, newKey, newGeneration, idem, envelopes) =>
      [REVOCATION_DOMAIN, user, approver, device, previousKey, Decimal(previousGeneration), newKey,
       Decimal(newGeneration), idem, Decimal(|envelopes|)] + ItemsTexts(envelopes)
    case PendingRevocation(user, approver, device, idem) =>
      [PENDING_REVOCATION_DOMAIN, user, approver, device, idem]
    case Approval(user, approver, device, keyId, generation, e, idem, createdAt) =>
      [APPROVAL_DOMAIN, user, approver, device, keyId, Decimal(generation), Decimal(e.version), e.suite,
       e.encappedKey, e.ciphertext, idem, Decimal(createdAt)]
    case Bootstrap(user, device, keyId, generation, e, idem) =>
      [BOOTSTRAP_DOMAIN, user, device, keyId, Decimal(generation), Decimal(e.version), e.suite,
       e.encappedKey, e.ciphertext, idem]
    case Registration(device, publicKey, wrappingKey, name, platform, idem) =>
      [REGISTRATION_DOMAIN, device, publicKey, wrappingKey, name, platform, idem]
    case Action(action, user, session, device, confirmation, idem, createdAt) =>
      [ACTION_DOMAIN, action, user, session, device, confirmation, idem, Decimal(createdAt)]
    case ActionRequest(action, user, session, device, confirmation, idem, createdAt, proof) =>
      [ACTION_DOMAIN, action, user, session, device, confirmation, idem, Decimal(createdAt), proof]
  }

  function MessageBytes(m: Message): string {
    Canonical(Texts(m))
  }

  function Domain(m: Message): string {
    match m
    case Revocation(_, _, _, _, _, _, _, _, _) => REVOCATION_DOMAIN
    case PendingRevocation(_, _, _, _) => PENDING_REVOCATION_DOMAIN
    case Approval(_, _, _, _, _, _, _, _) => APPROVAL_DOMAIN
    case Bootstrap(_, _, _, _, _, _) => BOOTSTRAP_DOMAIN
    case Registration(_, _, _, _, _, _) => REGISTRATION_DOMAIN
    case Action(_, _, _, _, _, _, _) => ACTION_DOMAIN
    case ActionRequest(_, _, _, _, _, _, _, _) => ACTION_DOMAIN
  }

  lemma StartsWithDomain(m: Message)
    ensures |Texts(m)| >= 5 && Texts(m)[0] == Domain(m)
  {
  }

  /** Messages of different kinds never have the same bytes. */
  lemma DomainsSeparate(m: Message, n: Message)
    requires Domain(m) != Domain(n)
    ensures MessageBytes(m) != MessageBytes(n)
  {
    StartsWithDomain(m);
    StartsWithDomain(n);
    if MessageBytes(m) == MessageBytes(n) { UniquelyDecodable(Texts(m), Texts(n)); }
  }

  lemma {:induction false} ItemsLength(items: seq<EnvelopeItem>)
    ensures |ItemsTexts(items)| == 5 * |items|
  {
    if items != [] { ItemsLength(items[1..]); }
  }

  lemma SameItem(a: EnvelopeItem, b: EnvelopeItem)
    requires ItemTexts(a) == ItemTexts(b)
    ensures a == b
  {
    var s, t := ItemTexts(a), ItemTexts(b);
    assert s[0] == t[0] && s[1] == t[1] && s[2] == t[2] && s[3] == t[3] && s[4] == t[4];
    DecimalIsInjective(a.envelope.version, b.envelope.version);
  }

  lemma {:induction false} SameItems(a: seq<EnvelopeItem>, b: seq<EnvelopeItem>)
    requires ItemsTexts(a) == ItemsTexts(b)
    ensures a == b
  {
    ItemsLength(a);
    ItemsLength(b);
    if a != [] {
      assert ItemsTexts(a)[..5] == ItemTexts(a[0]) && ItemsTexts(a)[5..] == ItemsTexts(a[1..]);
      assert ItemsTexts(b)[..5] == ItemTexts(b[0]) && ItemsTexts(b)[5..] == ItemsTexts(b[1..]);
      SameItem(a[0], b[0]);
      SameItems(a[1..], b[1..]);
      assert a == [a[0]] + a[1..] && b == [b[0]] + b[1..];
    }
  }

  lemma SameRevocation(m: Message, n: Message)
    requires m.Revocation? && n.Revocation? && Texts(m) == Texts(n)
    ensures m == n
  {
    var s, t := Texts(m), Texts(n);
    assert s[10..] == ItemsTexts(m.envelopes) && t[10..] == ItemsTexts(n.envelopes);
    SameItems(m.envelopes, n.envelopes);
    assert s[1] == t[1] && s[2] == t[2] && s[3] == t[3] && s[4] == t[4] && s[5] == t[5] && s[6] == t[6] && s[7] == t[7] && s[8] == t[8];
    DecimalIsInjective(m.previousGeneration, n.previousGeneration);
    DecimalIsInjective(m.newGeneration, n.newGeneration);
  }

  lemma SameApproval(m: Message, n: Message)
    requires m.Approval? && n.Approval? && Texts(m) == Texts(n)
    ensures m == n
  {
    var s, t := Texts(m), Texts(n);
    assert s[1] == t[1] && s[2] == t[2] && s[3] == t[3] && s[4] == t[4] && s[5] == t[5] && s[6] == t[6];
    assert s[7] == t[7] && s[8] == t[8] && s[9] == t[9] && s[10] == t[10] && s[11] == t[11];
    DecimalIsInjective(m.generation, n.generation);
    DecimalIsInjective(m.envelope.version, n.envelope.version);
    DecimalIsInjective(m.createdAt, n.createdAt);
  }

  lemma SameBootstrap(m: Message, n: Message)
    requires m.Bootstrap? && n.Bootstrap? && Texts(m) == Texts(n)
    ensures m == n
  {
    var s, t := Texts(m), Texts(n);
    assert s[1] == t[1] && s[2] == t[2] && s[3] == t[3] && s[4] == t[4] && s[5] == t[5];
    assert s[6] == t[6] && s[7] == t[7] && s[8] == t[8] && s[9] == t[9];
    DecimalIsInjective(m.generation, n.generation);
    DecimalIsInjective(m.envelope.version, n.envelope.version);
  }

  lemma SameAction(m: Message, n: Message)
    requires (m.Action? && n.Action?) || (m.ActionRequest? && n.ActionRequest?)
    requires Texts(m) == Texts(n)
    ensures m == n
  {
    var s, t := Texts(m), Texts(n);
    assert s[1] == t[1] && s[2] == t[2] && s[3] == t[3] && s[4] == t[4] && s[5] == t[5] && s[6] == t[6] && s[7] == t[7];
    DecimalIsInjective(m.createdAt, n.createdAt);
    if m.ActionRequest? { assert s[8] == t[8]; }
  }

  lemma SamePlain(m: Message, n: Message)
    requires (m.PendingRevocation? && n.PendingRevocation?) || (m.Registration? && n.Registration?)
    requires Texts(m) == Texts(n)
    ensures m == n
  {
    var s, t := Texts(m), Texts(n);
    assert s[1] == t[1] && s[2] == t[2] && s[3] == t[3] && s[4] == t[4];
    if m.Registration? { assert s[5] == t[5] && s[6] == t[6]; }
  }

  lemma DomainsDiffer()
    ensures |REVOCATION_DOMAIN| == 28 && |PENDING_REVOCATION_DOMAIN| == 36 && |APPROVAL_DOMAIN| == 26
    ensures |BOOTSTRAP_DOMAIN| == 31 && |REGISTRATION_DOMAIN| == 30 && |ACTION_DOMAIN| == 27
  {
  }

  /** The two uses of one domain differ in how many texts they list. */
  lemma SameKind(m: Message, n: Message)
    requires Texts(m) == Texts(n)
    ensures Domain(m) == Domain(n) && (m.Action? <==> n.Action?)
  {
    StartsWithDomain(m);
    StartsWithDomain(n);
    DomainsDiffer();
  }

  /** The signed bytes determine the kind of the message and every field of it, the envelope
      list with its length and order included. */
  lemma BytesDetermineMessage(m: Message, n: Message)
    requires MessageBytes(m) == MessageBytes(n)
    ensures m == n
  {
    UniquelyDecodable(Texts(m), Texts(n));
    SameKind(m, n);
    DomainsDiffer();
    match m
    case Revocation(_, _, _, _, _, _, _, _, _) => SameRevocation(m, n);
    case PendingRevocation(_, _, _, _) => SamePlain(m, n);
    case Approval(_, _, _, _, _, _, _, _) => SameApproval(m, n);
    case Bootstrap(_, _, _, _, _, _) => SameBootstrap(m, n);
    case Registration(_, _, _, _, _, _) => SamePlain(m, n);
    case Action(_, _, _, _, _, _, _) => SameAction(m, n);
    case ActionRequest(_, _, _, _, _, _, _, _) => SameAction(m, n);
  }
}
