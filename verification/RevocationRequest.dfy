/** Parsing the envelopes of a rotation request, and comparing them with the devices that
    stay. */
module RevocationRequest {
  import opened Wrappers
  import opened ProofLayouts

  /** JavaScript's `<` on strings, by code unit. */
  predicate Less(a: string, b: string) {
    b != [] && (a == [] || a[0] < b[0] || (a[0] == b[0] && Less(a[1..], b[1..])))
  }

  lemma {:induction false} LessIsTotal(a: string, b: string)
    ensures a == b || Less(a, b) || Less(b, a)
    ensures !(Less(a, b) && Less(b, a)) && !Less(a, a)
  {
    if a != [] && b != [] && a[0] == b[0] {
      LessIsTotal(a[1..], b[1..]);
      assert a == [a[0]] + a[1..] && b == [b[0]] + b[1..];
    }
    if a != [] { LessIsTotal(a[1..], a[1..]); }
  }

  lemma {:induction false} LessIsTransitive(a: string, b: string, c: string)
    requires Less(a, b) && Less(b, c)
    ensures Less(a, c)
  {
    if a != [] && a[0] == b[0] && b[0] == c[0] { LessIsTransitive(a[1..], b[1..], c[1..]); }
  }

  predicate Sorted(items: seq<EnvelopeItem>) {
    forall i, j :: 0 <= i < j < |items| ==> Less(items[i].recipient, items[j].recipient)
  }

  predicate DistinctRecipients(items: seq<EnvelopeItem>) {
    forall i, j :: 0 <= i < j < |items| ==> items[i].recipient != items[j].recipient
  }

  function Recipients(items: seq<EnvelopeItem>): set<string> {
    set i | 0 <= i < |items| :: items[i].recipient
  }

  // ---------------------------------------------------------------- sorting by recipient

  function Insert(x: EnvelopeItem, items: seq<EnvelopeItem>): seq<EnvelopeItem> {
    if items == [] || Less(x.recipient, items[0].recipient) then [x] + items
    else [items[0]] + Insert(x, items[1..])
  }

  function SortItems(items: seq<EnvelopeItem>): seq<EnvelopeItem> {
    if items == [] then [] else Insert(items[0], SortItems(items[1..]))
  }

  lemma {:induction false} InsertKeeps(x: EnvelopeItem, items: seq<EnvelopeItem>)
    ensures multiset(Insert(x, items)) == multiset(items) + multiset{x}
  {
    if items != [] && !Less(x.recipient, items[0].recipient) {
      InsertKeeps(x, items[1..]);
      assert items == [items[0]] + items[1..];
    }
  }

  lemma {:induction false} SortKeeps(items: seq<EnvelopeItem>)
    ensures multiset(SortItems(items)) == multiset(items)
  {
    if items != [] {
      SortKeeps(items[1..]);
      InsertKeeps(items[0], SortItems(items[1..]));
      assert items == [items[0]] + items[1..];
    }
  }

  lemma SortedTail(items: seq<EnvelopeItem>)
    requires items != [] && Sorted(items)
    ensures Sorted(items[1..])
    ensures forall y :: y in items[1..] ==> Less(items[0].recipient, y.recipient)
  {
  }

  lemma SortedCons(x: EnvelopeItem, items: seq<EnvelopeItem>)
    requires Sorted(items) && forall y :: y in items ==> Less(x.recipient, y.recipient)
    ensures Sorted([x] + items)
  {
  }

  lemma {:induction false} InsertSorts(x: EnvelopeItem, items: seq<EnvelopeItem>)
    requires Sorted(items) && forall y :: y in items ==> y.recipient != x.recipient
    ensures Sorted(Insert(x, items))
  {
    if items == [] {
    } else if Less(x.recipient, items[0].recipient) {
      SortedTail(items);
      forall y | y in items
        ensures Less(x.recipient, y.recipient)
      {
        if y != items[0] { LessIsTransitive(x.recipient, items[0].recipient, y.recipient); }
      }
      SortedCons(x, items);
    } else {
      SortedTail(items);
      InsertSorts(x, items[1..]);
      InsertKeeps(x, items[1..]);
      LessIsTotal(x.recipient, items[0].recipient);
      forall y | y in Insert(x, items[1..])
        ensures Less(items[0].recipient, y.recipient)
      {
        assert y in multiset(Insert(x, items[1..]));
      }
      SortedCons(items[0], Insert(x, items[1..]));
    }
  }

  lemma {:induction false} SortSorts(items: seq<EnvelopeItem>)
    requires DistinctRecipients(items)
    ensures Sorted(SortItems(items))
  {
    if items != [] {
      SortSorts(items[1..]);
      SortKeeps(items[1..]);
      forall y | y in SortItems(items[1..])
        ensures y.recipient != items[0].recipient
      {
        assert y in multiset(items[1..]);
      }
      InsertSorts(items[0], SortItems(items[1..]));
    }
  }

  lemma SameFirstItem(a: seq<EnvelopeItem>, b: seq<EnvelopeItem>)
    requires a != [] && b != [] && Sorted(a) && Sorted(b) && a[0] in b && b[0] in a
    ensures a[0] == b[0]
  {
    var i :| 0 <= i < |b| && b[i] == a[0];
    var j :| 0 <= j < |a| && a[j] == b[0];
    LessIsTotal(a[0].recipient, b[0].recipient);
  }

  lemma TailHolds(a: seq<EnvelopeItem>)
    requires a != []
    ensures multiset(a[1..]) == multiset(a) - multiset{a[0]}
  {
    assert a == [a[0]] + a[1..];
  }

  /** A sorted list is determined by what it holds, so any way of sorting gives the same. */
  lemma {:induction false} SortedIsUnique(a: seq<EnvelopeItem>, b: seq<EnvelopeItem>)
    requires Sorted(a) && Sorted(b) && multiset(a) == multiset(b)
    ensures a == b
  {
    assert |multiset(a)| == |a| && |multiset(b)| == |b|;
    if a != [] {
      assert a[0] in multiset(b) && b[0] in multiset(a);
      SameFirstItem(a, b);
      TailHolds(a);
      TailHolds(b);
      SortedIsUnique(a[1..], b[1..]);
      assert a == [a[0]] + a[1..] && b == [b[0]] + b[1..];
    }
  }

  // ---------------------------------------------------------------- parsing

  predicate Acceptable(items: seq<EnvelopeItem>, target: string) {
    && 1 <= |items| <= MAX_ROTATION_ENVELOPES
    && target !in Recipients(items)
    && DistinctRecipients(items)
  }

  /** The loop refuses the revoked device and a recipient named twice; then the list is
      sorted in place. */
  method RevocationEnvelopes(items: seq<EnvelopeItem>, target: string) returns (r: Option<seq<EnvelopeItem>>)
    ensures r.Some? <==> 1 <= |items| <= 128 && target !in Recipients(items) && DistinctRecipients(items)
    ensures r.Some? ==> Sorted(r.value) && multiset(r.value) == multiset(items)
    ensures r == ParseEnvelopes(items, target)
  {
    if |items| < 1 || |items| > MAX_ROTATION_ENVELOPES { return None; }
    var seen: set<string> := {};
    var i := 0;
    while i < |items|
      invariant i <= |items| && seen == Recipients(items[..i])
      invariant target !in seen && DistinctRecipients(items[..i])
    {
      var recipient := items[i].recipient;
      if recipient == target || recipient in seen {
        RefusedPrefix(items, i, target);
        return None;
      }
      assert Recipients(items[..i + 1]) == seen + {recipient};
      seen := seen + {recipient};
      i := i + 1;
    }
    assert items[..i] == items;
    SortSorts(items);
    SortKeeps(items);
    r := Some(SortItems(items));
  }

  lemma RefusedPrefix(items: seq<EnvelopeItem>, i: nat, target: string)
    requires i < |items| && (items[i].recipient == target || items[i].recipient in Recipients(items[..i]))
    ensures !Acceptable(items, target)
  {
    assert items[i].recipient in Recipients(items);
    if items[i].recipient in Recipients(items[..i]) {
      var j :| 0 <= j < i && items[..i][j].recipient == items[i].recipient;
      assert items[j].recipient == items[i].recipient;
    }
  }

  function ParseEnvelopes(items: seq<EnvelopeItem>, target: string): Option<seq<EnvelopeItem>> {
    if Acceptable(items, target) then Some(SortItems(items)) else None
  }

  lemma {:induction false} DistinctByCount(items: seq<EnvelopeItem>)
    ensures |Recipients(items)| <= |items|
    ensures DistinctRecipients(items) <==> |Recipients(items)| == |items|
  {
    if items == [] {
      assert Recipients(items) == {};
    } else {
      var front, last := items[..|items| - 1], items[|items| - 1];
      DistinctByCount(front);
      OneMoreRecipient(front, last);
      assert items == front + [last];
    }
  }

  lemma OneMoreRecipient(front: seq<EnvelopeItem>, last: EnvelopeItem)
    ensures Recipients(front + [last]) == Recipients(front) + {last.recipient}
    ensures DistinctRecipients(front + [last]) <==> DistinctRecipients(front) && last.recipient !in Recipients(front)
  {
    var items := front + [last];
    assert forall i :: 0 <= i < |front| ==> items[i] == front[i];
    assert items[|front|] == last;
    forall r
      ensures r in Recipients(items) <==> r in Recipients(front) || r == last.recipient
    {
      if r in Recipients(front) {
        var i :| 0 <= i < |front| && front[i].recipient == r;
        assert items[i].recipient == r;
      }
    }
    if DistinctRecipients(items) {
      forall i, j | 0 <= i < j < |front|
        ensures front[i].recipient != front[j].recipient
      {
        assert items[i].recipient != items[j].recipient;
      }
    }
  }

  lemma SameItemsSameRecipients(a: seq<EnvelopeItem>, b: seq<EnvelopeItem>)
    requires multiset(a) == multiset(b)
    ensures Recipients(a) == Recipients(b) && |a| == |b|
  {
    forall r
      ensures r in Recipients(a) <==> r in Recipients(b)
    {
      if r in Recipients(a) {
        var i :| 0 <= i < |a| && a[i].recipient == r;
        assert a[i] in multiset(b);
      }
      if r in Recipients(b) {
        var i :| 0 <= i < |b| && b[i].recipient == r;
        assert b[i] in multiset(a);
      }
    }
    assert |multiset(a)| == |a| && |multiset(b)| == |b|;
  }

  /** The order in which a client lists the envelopes does not matter: the request is parsed
      to the same list, or refused, and so the signed bytes are the same. */
  lemma OrderDoesNotMatter(a: seq<EnvelopeItem>, b: seq<EnvelopeItem>, target: string)
    requires multiset(a) == multiset(b)
    ensures ParseEnvelopes(a, target) == ParseEnvelopes(b, target)
  {
    SameItemsSameRecipients(a, b);
    DistinctByCount(a);
    DistinctByCount(b);
    if Acceptable(a, target) {
      SortSorts(a);
      SortSorts(b);
      SortKeeps(a);
      SortKeeps(b);
      SortedIsUnique(SortItems(a), SortItems(b));
    }
  }

  /** Conversely, two accepted requests with the same signed bytes list the same envelopes. */
  lemma SameBytesSameEnvelopes(a: seq<EnvelopeItem>, b: seq<EnvelopeItem>, target: string, m: Message)
    requires m.Revocation? && Acceptable(a, target) && Acceptable(b, target)
    ensures MessageBytes(m.(envelopes := SortItems(a))) == MessageBytes(m.(envelopes := SortItems(b)))
            <==> multiset(a) == multiset(b)
  {
    SortKeeps(a);
    SortKeeps(b);
    if MessageBytes(m.(envelopes := SortItems(a))) == MessageBytes(m.(envelopes := SortItems(b))) {
      BytesDetermineMessage(m.(envelopes := SortItems(a)), m.(envelopes := SortItems(b)));
    }
    if multiset(a) == multiset(b) { OrderDoesNotMatter(a, b, target); }
  }

  // ---------------------------------------------------------------- the recipients

  function IdSet(ids: seq<string>): set<string> {
    set id | id in ids
  }

  predicate SortedIds(ids: seq<string>) {
    forall i, j :: 0 <= i < j < |ids| ==> Less(ids[i], ids[j])
  }

  /** The element-wise comparison with the sorted devices that remain. */
  method ExactRecipients(envelopes: seq<EnvelopeItem>, expected: seq<string>) returns (exact: bool)
    requires Sorted(envelopes) && SortedIds(expected)
    ensures exact <==> Recipients(envelopes) == IdSet(expected)
  {
    exact := |envelopes| == |expected|;
    var i := 0;
    while exact && i < |expected|
      invariant i <= |expected| && (exact ==> |envelopes| == |expected|)
      invariant exact ==> forall j :: 0 <= j < i ==> envelopes[j].recipient == expected[j]
      invariant !exact ==> |envelopes| != |expected| || exists j :: 0 <= j < |expected| && envelopes[j].recipient != expected[j]
      decreases |expected| - i, exact
    {
      if envelopes[i].recipient != expected[i] { exact := false; } else { i := i + 1; }
    }
    SortedListsAgree(envelopes, expected);
  }

  predicate ElementWise(envelopes: seq<EnvelopeItem>, expected: seq<string>) {
    |envelopes| == |expected| && forall i :: 0 <= i < |expected| ==> envelopes[i].recipient == expected[i]
  }

  lemma {:induction false} SortedListsAgree(envelopes: seq<EnvelopeItem>, expected: seq<string>)
    requires Sorted(envelopes) && SortedIds(expected)
    ensures ElementWise(envelopes, expected) <==> Recipients(envelopes) == IdSet(expected)
    decreases |envelopes|
  {
    var ids := IdSet(expected);
    if ElementWise(envelopes, expected) {
      forall r
        ensures r in Recipients(envelopes) <==> r in ids
      {
        if r in ids {
          var i :| 0 <= i < |expected| && expected[i] == r;
          assert envelopes[i].recipient == r;
        }
      }
    }
    if Recipients(envelopes) == ids {
      if envelopes == [] {
        NonEmptyHasIds(expected);
      } else {
        SameFirst(envelopes, expected);
        SameRest(envelopes, expected);
        SortedListsAgree(envelopes[1..], expected[1..]);
        forall i | 0 <= i < |expected|
          ensures |envelopes| == |expected| && envelopes[i].recipient == expected[i]
        {
          if i > 0 { assert envelopes[1..][i - 1] == envelopes[i] && expected[1..][i - 1] == expected[i]; }
        }
      }
    }
  }

  lemma NonEmptyHasIds(expected: seq<string>)
    ensures expected != [] ==> IdSet(expected) != {}
  {
    if expected != [] { assert expected[0] in IdSet(expected); }
  }

  lemma SameFirst(envelopes: seq<EnvelopeItem>, expected: seq<string>)
    requires envelopes != [] && Sorted(envelopes) && SortedIds(expected)
    requires Recipients(envelopes) == IdSet(expected)
    ensures expected != [] && envelopes[0].recipient == expected[0]
  {
    var ids := IdSet(expected);
    assert envelopes[0].recipient in ids;
    assert expected[0] in ids;
    var i :| 0 <= i < |envelopes| && envelopes[i].recipient == expected[0];
    var j :| 0 <= j < |expected| && expected[j] == envelopes[0].recipient;
    LessIsTotal(envelopes[0].recipient, expected[0]);
  }

  lemma SameRest(envelopes: seq<EnvelopeItem>, expected: seq<string>)
    requires envelopes != [] && expected != [] && Sorted(envelopes) && SortedIds(expected)
    requires Recipients(envelopes) == IdSet(expected) && envelopes[0].recipient == expected[0]
    ensures Sorted(envelopes[1..]) && SortedIds(expected[1..])
    ensures Recipients(envelopes[1..]) == IdSet(expected[1..])
  {
    var first := expected[0];
    LessIsTotal(first, first);
    forall r
      ensures r in Recipients(envelopes[1..]) <==> r in Recipients(envelopes) && r != first
    {
      if r in Recipients(envelopes[1..]) {
        var i :| 0 <= i < |envelopes| - 1 && envelopes[1..][i].recipient == r;
        assert envelopes[i + 1].recipient == r && Less(envelopes[0].recipient, envelopes[i + 1].recipient);
      }
      if r in Recipients(envelopes) && r != first {
        var i :| 0 <= i < |envelopes| && envelopes[i].recipient == r;
        assert envelopes[1..][i - 1].recipient == r;
      }
    }
    forall r
      ensures r in expected[1..] <==> r in expected && r != first
    {
      assert expected == [first] + expected[1..];
      if r in expected[1..] {
        var i :| 0 <= i < |expected| - 1 && expected[1..][i] == r;
        assert Less(expected[0], expected[i + 1]);
      }
    }
  }
}
