/** The client's side of the signed messages: it writes its fields one after the other into
    a buffer, and what it signs is what the worker encodes and checks. */
module ClientProofs {
  import opened Wrappers
  import opened CanonicalEncoding
  import opened ProofLayouts
  import opened RevocationRequest

  method PushField(message: string, value: string) returns (longer: string)
    ensures longer == message + Field(value)
  {
    longer := message + Decimal(|value|);
    longer := longer + ":";
    longer := longer + value;
    assert longer == message + (Decimal(|value|) + ":" + value);
  }

  lemma {:induction false} CanonicalOfTwo(front: seq<string>, back: seq<string>)
    ensures Canonical(front + back) == Canonical(front) + Canonical(back)
  {
    if front == [] {
      assert front + back == back;
    } else {
      assert (front + back)[1..] == front[1..] + back;
      CanonicalOfTwo(front[1..], back);
    }
  }

  lemma CanonicalOfOne(text: string)
    ensures Canonical([text]) == Field(text)
  {
    assert Canonical([text]) == Field(text) + Canonical([]);
  }

  method PushFields(message: string, values: seq<string>) returns (longer: string)
    ensures longer == message + Canonical(values)
  {
    longer := message;
    var i := 0;
    while i < |values|
      invariant i <= |values| && longer == message + Canonical(values[..i])
    {
      assert values[..i + 1] == values[..i] + [values[i]];
      CanonicalOfTwo(values[..i], [values[i]]);
      CanonicalOfOne(values[i]);
      longer := PushField(longer, values[i]);
      i := i + 1;
    }
    assert values[..i] == values;
  }

  lemma {:induction false} ItemsOfTwo(front: seq<EnvelopeItem>, last: EnvelopeItem)
    ensures ItemsTexts(front + [last]) == ItemsTexts(front) + ItemTexts(last)
  {
    if front == [] {
      assert front + [last] == [last];
      assert ItemsTexts([last]) == ItemTexts(last) + ItemsTexts([]);
    } else {
      assert (front + [last])[1..] == front[1..] + [last];
      ItemsOfTwo(front[1..], last);
    }
  }

  ghost predicate HasPushed(message: string, longer: string, items: seq<EnvelopeItem>, i: nat)
    requires i <= |items|
  {
    longer == message + Canonical(ItemsTexts(items[..i]))
  }

  lemma NoItemYet(message: string, items: seq<EnvelopeItem>)
    ensures HasPushed(message, message, items, 0)
  {
    assert items[..0] == [];
  }

  lemma OneMoreItem(message: string, longer: string, items: seq<EnvelopeItem>, i: nat)
    requires i < |items| && HasPushed(message, longer, items, i)
    ensures HasPushed(message, longer + Canonical(ItemTexts(items[i])), items, i + 1)
  {
    assert items[..i + 1] == items[..i] + [items[i]];
    ItemsOfTwo(items[..i], items[i]);
    CanonicalOfTwo(ItemsTexts(items[..i]), ItemTexts(items[i]));
  }

  method PushItem(message: string, item: EnvelopeItem) returns (longer: string)
    ensures longer == message + Canonical(ItemTexts(item))
  {
    var e := item.envelope;
    longer := PushFields(message, [item.recipient, Decimal(e.version), e.suite, e.encappedKey, e.ciphertext]);
  }

  method PushItems(message: string, items: seq<EnvelopeItem>) returns (longer: string)
    ensures longer == message + Canonical(ItemsTexts(items))
  {
    longer := message;
    NoItemYet(message, items);
    for i := 0 to |items|
      invariant HasPushed(message, longer, items, i)
    {
      OneMoreItem(message, longer, items, i);
      longer := PushItem(longer, items[i]);
    }
    assert items[..|items|] == items;
  }

  // ---------------------------------------------------------------- the five messages

  method RegistrationProof(device: string, publicKey: string, wrappingKey: string, name: string, platform: string, idem: string)
    returns (message: string)
    ensures message == MessageBytes(Registration(device, publicKey, wrappingKey, name, platform, idem))
  {
    message := PushFields("", ["elydora-device-registration-v2", device, publicKey, wrappingKey, name, platform, idem]);
  }

  method BootstrapProof(user: string, device: string, keyId: string, generation: nat, e: WrappedKey, idem: string)
    returns (message: string)
    ensures message == MessageBytes(Bootstrap(user, device, keyId, generation, e, idem))
  {
    message := PushFields("", ["elydora-sync-vault-bootstrap-v2", user, device, keyId, Decimal(generation),
                               Decimal(e.version), e.suite, e.encappedKey, e.ciphertext, idem]);
  }

  method ApprovalProof(user: string, approver: string, device: string, keyId: string, generation: nat, e: WrappedKey,
                       idem: string, createdAt: nat)
    returns (message: string)
    ensures message == MessageBytes(Approval(user, approver, device, keyId, generation, e, idem, createdAt))
  {
    message := PushFields("", ["elydora-device-approval-v2", user, approver, device, keyId, Decimal(generation),
                               Decimal(e.version), e.suite, e.encappedKey, e.ciphertext, idem, Decimal(createdAt)]);
  }

  method PendingRevocationProof(user: string, approver: string, target: string, idem: string) returns (message: string)
    ensures message == MessageBytes(PendingRevocation(user, approver, target, idem))
  {
    message := PushFields("", ["elydora-pending-device-revocation-v2", user, approver, target, idem]);
  }

  method RevocationProof(user: string, approver: string, target: string, previousKey: string, previousGeneration: nat,
                         newKey: string, newGeneration: nat, items: seq<EnvelopeItem>, idem: string)
    returns (message: string)
    ensures message == MessageBytes(Revocation(user, approver, target, previousKey, previousGeneration, newKey,
                                               newGeneration, idem, items))
  {
    var fields := ["elydora-device-revocation-v2", user, approver, target, previousKey, Decimal(previousGeneration),
                   newKey, Decimal(newGeneration), idem, Decimal(|items|)];
    message := PushFields("", fields);
    message := PushItems(message, items);
    CanonicalOfTwo(fields, ItemsTexts(items));
  }

  lemma CanonicalOfFive(a: string, b: string, c: string, d: string, e: string)
    ensures Canonical([a, b, c, d, e]) == Field(a) + Field(b) + Field(c) + Field(d) + Field(e)
  {
    CanonicalOfTwo([a, b, c, d], [e]);
    CanonicalOfTwo([a, b, c], [d]);
    CanonicalOfTwo([a, b], [c]);
    CanonicalOfTwo([a], [b]);
    assert [a, b, c, d, e] == [a, b, c, d] + [e] && [a, b, c, d] == [a, b, c] + [d];
    assert [a, b, c] == [a, b] + [c] && [a, b] == [a] + [b];
    CanonicalOfOne(a);
    CanonicalOfOne(b);
    CanonicalOfOne(c);
    CanonicalOfOne(d);
    CanonicalOfOne(e);
  }

  lemma SmallDecimals()
    ensures Decimal(7) == "7" && Decimal(9) == "9" && Decimal(22) == "22" && Decimal(36) == "36"
  {
  }

  /** The bytes that the tests of the client and of the worker agree on. */
  lemma PendingRevocationVector()
    ensures MessageBytes(PendingRevocation("user-01", "device-01", "device-02", "device-revocation-0001")) ==
            ("36" + ":" + "elydora-pending-device-revocation-v2") + ("7" + ":" + "user-01") + ("9" + ":" + "device-01")
            + ("9" + ":" + "device-02") + ("22" + ":" + "device-revocation-0001")
  {
    CanonicalOfFive(PENDING_REVOCATION_DOMAIN, "user-01", "device-01", "device-02", "device-revocation-0001");
    SmallDecimals();
    DomainsDiffer();
  }

  // ---------------------------------------------------------------- sorting before signing

  /** A sort that keeps equal recipients next to each other. */
  predicate Ordered(items: seq<EnvelopeItem>) {
    forall i, j :: 0 <= i < j < |items| ==> !Less(items[j].recipient, items[i].recipient)
  }

  lemma NotLessIsTransitive(a: string, b: string, c: string)
    requires !Less(b, a) && !Less(c, b)
    ensures !Less(c, a)
  {
    LessIsTotal(a, b);
    LessIsTotal(b, c);
    if Less(c, a) {
      if b != c { LessIsTransitive(b, c, a); }
    }
  }

  lemma OrderedCons(x: EnvelopeItem, items: seq<EnvelopeItem>)
    requires Ordered(items) && (items != [] ==> !Less(items[0].recipient, x.recipient))
    ensures Ordered([x] + items)
  {
    forall j | 0 <= j < |items|
      ensures !Less(items[j].recipient, x.recipient)
    {
      if j > 0 { NotLessIsTransitive(x.recipient, items[0].recipient, items[j].recipient); }
    }
  }

  lemma {:induction false} InsertOrders(x: EnvelopeItem, items: seq<EnvelopeItem>)
    requires Ordered(items)
    ensures Ordered(Insert(x, items))
  {
    if items == [] {
    } else if Less(x.recipient, items[0].recipient) {
      LessIsTotal(x.recipient, items[0].recipient);
      OrderedCons(x, items);
    } else {
      InsertOrders(x, items[1..]);
      assert Insert(x, items[1..])[0] == x || (|items| > 1 && Insert(x, items[1..])[0] == items[1]);
      OrderedCons(items[0], Insert(x, items[1..]));
    }
  }

  lemma {:induction false} SortOrders(items: seq<EnvelopeItem>)
    ensures Ordered(SortItems(items))
  {
    if items != [] {
      SortOrders(items[1..]);
      InsertOrders(items[0], SortItems(items[1..]));
    }
  }

  /** Once sorted, a recipient is named twice only by two neighbours. */
  lemma NeighboursDecide(items: seq<EnvelopeItem>)
    requires Ordered(items)
    ensures DistinctRecipients(items) <==> forall i :: 0 <= i < |items| - 1 ==> items[i].recipient != items[i + 1].recipient
  {
    if forall i :: 0 <= i < |items| - 1 ==> items[i].recipient != items[i + 1].recipient {
      forall i, j | 0 <= i < j < |items|
        ensures items[i].recipient != items[j].recipient
      {
        LessIsTotal(items[i].recipient, items[i + 1].recipient);
        assert Less(items[i].recipient, items[i + 1].recipient);
        if j > i + 1 { assert !Less(items[j].recipient, items[i + 1].recipient); }
      }
    }
  }

  lemma SortedAlike(items: seq<EnvelopeItem>)
    ensures Recipients(SortItems(items)) == Recipients(items) && |SortItems(items)| == |items|
    ensures DistinctRecipients(SortItems(items)) <==> DistinctRecipients(items)
  {
    SortKeeps(items);
    SameItemsSameRecipients(SortItems(items), items);
    DistinctByCount(items);
    DistinctByCount(SortItems(items));
  }

  /** The client sorts first and then compares neighbours; the worker keeps a set of those it
      has seen and sorts last.  They accept the same lists and come to the same one. */
  method ValidateAndSort(items: seq<EnvelopeItem>, target: string) returns (r: Option<seq<EnvelopeItem>>)
    ensures r == ParseEnvelopes(items, target)
    ensures r.Some? ==> ParseEnvelopes(r.value, target) == r
  {
    if items == [] || |items| > 128 { return None; }
    var i := 0;
    while i < |items|
      invariant i <= |items| && forall j :: 0 <= j < i ==> items[j].recipient != target
    {
      if items[i].recipient == target {
        RefusedPrefix(items, i, target);
        return None;
      }
      i := i + 1;
    }
    var sorted := SortItems(items);
    SortOrders(items);
    NeighboursDecide(sorted);
    SortedAlike(items);
    i := 0;
    while i + 1 < |sorted|
      invariant i < |sorted| && forall j :: 0 <= j < i ==> sorted[j].recipient != sorted[j + 1].recipient
    {
      if sorted[i].recipient == sorted[i + 1].recipient { return None; }
      i := i + 1;
    }
    SortKeeps(items);
    OrderDoesNotMatter(items, sorted, target);
    r := Some(sorted);
  }

  /** A rotation request as the client sends it: whatever the order of its envelopes, the list
      it sends is the one the worker parses it to, and the bytes it signs are those the worker
      checks the signature against. */
  method ApprovedRotation(user: string, approver: string, target: string, previousKey: string, previousGeneration: nat,
                          newKey: string, newGeneration: nat, items: seq<EnvelopeItem>, idem: string)
    returns (request: Option<seq<EnvelopeItem>>, message: string)
    ensures request.Some? <==> 1 <= |items| <= 128 && target !in RevocationRequest.Recipients(items) && DistinctRecipients(items)
    ensures request.Some? ==>
              && multiset(request.value) == multiset(items) && ParseEnvelopes(request.value, target) == request
              && message == MessageBytes(Revocation(user, approver, target, previousKey, previousGeneration, newKey,
                                                    newGeneration, idem, ParseEnvelopes(request.value, target).value))
  {
    message := "";
    request := ValidateAndSort(items, target);
    if request.Some? {
      SortKeeps(items);
      message := RevocationProof(user, approver, target, previousKey, previousGeneration, newKey, newGeneration,
                                 request.value, idem);
    }
  }
}
