/** The presented IOSurfaces that the hardware rendering context holds until their consumer
    is done with them. */
module PresentedSurfaces {
  import opened Wrappers

  type SurfaceId = nat

  datatype Held = Held(id: SurfaceId, acknowledged: bool)

  /** One look at a held surface, with what the system said of its use at that moment. */
  datatype Look = Look(surface: Held, inUse: bool)

  /** A surface handed back, with the look that let it go and the surface current then. */
  datatype Return = Return(look: Look, current: Option<SurfaceId>)

  function ReturnedIds(handedBack: seq<Return>): seq<SurfaceId> {
    seq(|handedBack|, i requires 0 <= i < |handedBack| => handedBack[i].look.surface.id)
  }

  function Ids(held: seq<Held>): seq<SurfaceId> {
    seq(|held|, i requires 0 <= i < |held| => held[i].id)
  }

  predicate Distinct(held: seq<Held>) {
    forall i, j :: 0 <= i < j < |held| ==> held[i].id != held[j].id
  }

  predicate HoldsId(held: seq<Held>, id: SurfaceId) {
    exists i :: 0 <= i < |held| && held[i].id == id
  }

  predicate Recyclable(look: Look, current: Option<SurfaceId>) {
    look.surface.acknowledged && Some(look.surface.id) != current && !look.inUse
  }

  /** The surfaces seen that may go, or those that stay. */
  function Sorted(looks: seq<Look>, current: Option<SurfaceId>, recyclable: bool): seq<Held> {
    if looks == [] then []
    else
      var last := looks[|looks| - 1];
      Sorted(looks[..|looks| - 1], current, recyclable)
        + if Recyclable(last, current) == recyclable then [last.surface] else []
  }

  function Seen(looks: seq<Look>): seq<Held> {
    seq(|looks|, i requires 0 <= i < |looks| => looks[i].surface)
  }

  function Marked(held: seq<Held>, ids: set<SurfaceId>): seq<Held> {
    seq(|held|, i requires 0 <= i < |held| =>
      if held[i].id in ids then held[i].(acknowledged := true) else held[i])
  }

  /** `Vec::swap_remove`: the last element takes the place of the removed one. */
  function SwapRemove<T>(s: seq<T>, index: nat): seq<T>
    requires index < |s|
  {
    var n := |s| - 1;
    if index == n then s[..n] else s[..n][index := s[n]]
  }

  lemma SwapRemoveTail<T>(s: seq<T>, index: nat)
    requires index < |s|
    ensures |SwapRemove(s, index)| == |s| - 1 && SwapRemove(s, index)[..index] == s[..index]
    ensures SwapRemove(s, index)[index..] == if index == |s| - 1 then [] else [s[|s| - 1]] + s[index + 1..|s| - 1]
  {
  }

  lemma FirstOfRest<T>(s: seq<T>, index: nat)
    requires index < |s|
    ensures s[index..] == [s[index]] + s[index + 1..]
  {
  }

  lemma TailInParts<T>(s: seq<T>, index: nat)
    requires index < |s| - 1
    ensures s[index..] == [s[index]] + s[index + 1..|s| - 1] + [s[|s| - 1]]
  {
  }

  lemma LastTakesPlace<T>(x: T, mid: seq<T>, last: T)
    ensures multiset([x] + mid + [last]) == multiset([last] + mid) + multiset{x}
  {
    assert [x] + mid + [last] == [x] + (mid + [last]);
  }

  lemma SwapRemoveKeepsRest<T>(s: seq<T>, index: nat)
    requires index < |s|
    ensures multiset(s[index..]) == multiset(SwapRemove(s, index)[index..]) + multiset{s[index]}
  {
    SwapRemoveTail(s, index);
    var n := |s| - 1;
    if index < n {
      TailInParts(s, index);
      LastTakesPlace(s[index], s[index + 1..n], s[n]);
    } else {
      assert s[index..] == [s[index]];
    }
  }

  lemma SwapRemoveKeepsAll<T>(s: seq<T>, index: nat)
    requires index < |s|
    ensures multiset(s) == multiset(SwapRemove(s, index)) + multiset{s[index]}
  {
    SwapRemoveTail(s, index);
    SwapRemoveKeepsRest(s, index);
    assert s == s[..index] + s[index..];
    assert SwapRemove(s, index) == s[..index] + SwapRemove(s, index)[index..];
  }

  lemma SwapRemoveKeepsOthers(held: seq<Held>, index: nat)
    requires index < |held| && Distinct(held)
    ensures Distinct(SwapRemove(held, index))
    ensures forall id :: id != held[index].id && HoldsId(held, id) ==> HoldsId(SwapRemove(held, index), id)
    ensures multiset(Ids(held)) == multiset(Ids(SwapRemove(held, index))) + multiset{held[index].id}
  {
    var after := SwapRemove(held, index);
    forall id | id != held[index].id && HoldsId(held, id)
      ensures HoldsId(after, id)
    {
      var i :| 0 <= i < |held| && held[i].id == id;
      assert after[if i == |held| - 1 then index else i].id == id;
    }
    assert Ids(after) == SwapRemove(Ids(held), index);
    SwapRemoveKeepsAll(Ids(held), index);
  }

  lemma OneMoreLook(looks: seq<Look>, look: Look, current: Option<SurfaceId>)
    ensures Seen(looks + [look]) == Seen(looks) + [look.surface]
    ensures var go, stay := Sorted(looks, current, true), Sorted(looks, current, false);
            && Sorted(looks + [look], current, true) == (if Recyclable(look, current) then go + [look.surface] else go)
            && Sorted(looks + [look], current, false) == (if Recyclable(look, current) then stay else stay + [look.surface])
  {
    assert (looks + [look])[..|looks|] == looks;
  }

  lemma IdsOf(held: seq<Held>, h: Held)
    ensures multiset(Ids(held + [h])) == multiset(Ids(held)) + multiset{h.id}
  {
    assert Ids(held + [h]) == Ids(held) + [h.id];
  }

  lemma RecycledSoFar(looks: seq<Look>, look: Look, current: Option<SurfaceId>)
    ensures multiset(Ids(Sorted(looks + [look], current, true))) ==
            multiset(Ids(Sorted(looks, current, true))) + if Recyclable(look, current) then multiset{look.surface.id} else multiset{}
  {
    OneMoreLook(looks, look, current);
    IdsOf(Sorted(looks, current, true), look.surface);
  }

  /** How far the loop has come: what it kept is in front, what it has not seen behind. */
  ghost predicate LoopOk(start: seq<Held>, held: seq<Held>, index: nat, looks: seq<Look>, current: Option<SurfaceId>) {
    && index <= |held|
    && held[..index] == Sorted(looks, current, false)
    && multiset(Seen(looks)) + multiset(held[index..]) == multiset(start)
  }

  lemma LoopStep(start: seq<Held>, held: seq<Held>, index: nat, looks: seq<Look>, current: Option<SurfaceId>, look: Look)
    requires LoopOk(start, held, index, looks, current) && index < |held| && look.surface == held[index]
    ensures if Recyclable(look, current) then LoopOk(start, SwapRemove(held, index), index, looks + [look], current)
            else LoopOk(start, held, index + 1, looks + [look], current)
  {
    OneMoreLook(looks, look, current);
    FirstOfRest(held, index);
    if Recyclable(look, current) {
      SwapRemoveTail(held, index);
      SwapRemoveKeepsRest(held, index);
    } else {
      assert held[..index + 1] == held[..index] + [held[index]];
    }
  }

  lemma LoopEnds(start: seq<Held>, held: seq<Held>, looks: seq<Look>, current: Option<SurfaceId>)
    requires LoopOk(start, held, |held|, looks, current)
    ensures held == Sorted(looks, current, false) && multiset(Seen(looks)) == multiset(start)
  {
    assert held[..|held|] == held && held[|held|..] == [];
  }

  /** The surfaces handed back are these, and each was finished when it was let go. */
  ghost predicate ReturnsOk(handedBack: seq<Return>, recycled: multiset<SurfaceId>) {
    && recycled == multiset(ReturnedIds(handedBack))
    && (forall i :: 0 <= i < |handedBack| ==> Recyclable(handedBack[i].look, handedBack[i].current))
  }

  lemma OneMoreReturn(handedBack: seq<Return>, recycled: multiset<SurfaceId>, look: Look, current: Option<SurfaceId>)
    requires ReturnsOk(handedBack, recycled) && Recyclable(look, current)
    ensures ReturnsOk(handedBack + [Return(look, current)], recycled + multiset{look.surface.id})
  {
    assert ReturnedIds(handedBack + [Return(look, current)]) == ReturnedIds(handedBack) + [look.surface.id];
  }

  lemma ReturnsSplit(earlier: seq<Return>, later: seq<Return>, was: multiset<SurfaceId>, recycled: multiset<SurfaceId>)
    requires earlier <= later && ReturnsOk(earlier, was) && ReturnsOk(later, recycled)
    ensures recycled == was + multiset(ReturnedIds(later[|earlier|..]))
  {
    assert ReturnedIds(later) == ReturnedIds(earlier) + ReturnedIds(later[|earlier|..]);
  }

  /** Each surface is held once, the current one is held, and none is lost. */
  ghost predicate SurfacesOk(held: seq<Held>, current: Option<SurfaceId>, captured: multiset<SurfaceId>,
                             recycled: multiset<SurfaceId>, destroyed: multiset<SurfaceId>) {
    && Distinct(held)
    && (current.Some? ==> HoldsId(held, current.value))
    && captured == multiset(Ids(held)) + recycled + destroyed
  }

  lemma RemovingKeepsSurfaces(held: seq<Held>, current: Option<SurfaceId>, captured: multiset<SurfaceId>,
                              recycled: multiset<SurfaceId>, destroyed: multiset<SurfaceId>, index: nat)
    requires SurfacesOk(held, current, captured, recycled, destroyed)
    requires index < |held| && Some(held[index].id) != current
    ensures SurfacesOk(SwapRemove(held, index), current, captured, recycled + multiset{held[index].id}, destroyed)
  {
    SwapRemoveKeepsOthers(held, index);
  }

  lemma CapturingKeepsSurfaces(held: seq<Held>, current: Option<SurfaceId>, captured: multiset<SurfaceId>,
                               recycled: multiset<SurfaceId>, destroyed: multiset<SurfaceId>, id: SurfaceId)
    requires SurfacesOk(held, current, captured, recycled, destroyed) && !HoldsId(held, id)
    ensures SurfacesOk(held + [Held(id, false)], Some(id), captured + multiset{id}, recycled, destroyed)
  {
    IdsOf(held, Held(id, false));
    assert (held + [Held(id, false)])[|held|].id == id;
    assert forall i :: 0 <= i < |held| ==> held[i].id != id;
  }

  lemma MarkingKeepsSurfaces(held: seq<Held>, current: Option<SurfaceId>, captured: multiset<SurfaceId>,
                             recycled: multiset<SurfaceId>, destroyed: multiset<SurfaceId>, ids: set<SurfaceId>)
    requires SurfacesOk(held, current, captured, recycled, destroyed)
    ensures SurfacesOk(Marked(held, ids), current, captured, recycled, destroyed)
  {
    MarkingKeepsIds(held, ids);
  }

  /** One call to the context. */
  datatype Call = Presenting | Acknowledging(ids: set<SurfaceId>) | Resizing(width: nat, height: nat)

  class Context {
    var held: seq<Held>
    var current: Option<SurfaceId>
    var size: (nat, nat)

    /** Every surface ever captured, handed back to the swap chain, or destroyed. */
    ghost var captured: multiset<SurfaceId>
    ghost var recycled: multiset<SurfaceId>
    ghost var destroyed: multiset<SurfaceId>
    /** How each surface handed back was let go. */
    ghost var handedBack: seq<Return>

    constructor (size: (nat, nat))
      ensures Valid() && held == [] && current == None && this.size == size
    {
      this.size := size;
      held, current := [], None;
      captured, recycled, destroyed, handedBack := multiset{}, multiset{}, multiset{}, [];
      assert ReturnedIds([]) == [];
    }

    /** A surface is held once, the current one is held, none is lost, and each one handed
        back was acknowledged, not current and not in use when it was let go. */
    ghost predicate Valid()
      reads this
    {
      && SurfacesOk(held, current, captured, recycled, destroyed)
      && ReturnsOk(handedBack, recycled)
    }

    method SwapRemoveAt(index: nat, ghost look: Look)
      requires Valid() && index < |held| && look.surface == held[index] && Recyclable(look, current)
      modifies this`held, this`recycled, this`handedBack
      ensures Valid() && held == SwapRemove(old(held), index) && handedBack == old(handedBack) + [Return(look, current)]
      ensures recycled == old(recycled) + multiset{old(held)[index].id}
    {
      RemovingKeepsSurfaces(held, current, captured, recycled, destroyed, index);
      recycled := recycled + multiset{held[index].id};
      handedBack := handedBack + [Return(look, current)];
      OneMoreReturn(old(handedBack), old(recycled), look, current);
      held := SwapRemove(held, index);
    }

    /** One turn of the loop: the surface goes, and the last one takes its place, or the loop
        moves on. */
    method LookAt(index: nat, ghost start: seq<Held>, ghost looks: seq<Look>) returns (next: nat, ghost look: Look)
      requires Valid() && index < |held| && LoopOk(start, held, index, looks, current)
      modifies this`held, this`recycled, this`handedBack
      ensures Valid() && old(handedBack) <= handedBack && LoopOk(start, held, next, looks + [look], current)
      ensures recycled == old(recycled) + if Recyclable(look, current) then multiset{look.surface.id} else multiset{}
      ensures |held| - next < |old(held)| - index
    {
      var surface := held[index];
      var inUse: bool := *;
      look := Look(surface, inUse);
      LoopStep(start, held, index, looks, current, look);
      if surface.acknowledged && Some(surface.id) != current && !inUse {
        SwapRemoveAt(index, look);
        next := index;
      } else {
        next := index + 1;
      }
    }

    /** The loop looks at each held surface exactly once and hands back exactly those that
        were acknowledged, are not current and were not in use when looked at. */
    method RecycleAcknowledged() returns (ghost looks: seq<Look>)
      requires Valid()
      modifies this`held, this`recycled, this`handedBack
      ensures Valid() && old(handedBack) <= handedBack
      ensures multiset(Seen(looks)) == multiset(old(held))
      ensures held == Sorted(looks, current, false)
      ensures recycled == old(recycled) + multiset(Ids(Sorted(looks, current, true)))
    {
      looks := [];
      var index: nat := 0;
      assert held[..0] == [] && held[0..] == held;
      while index < |held|
        invariant Valid() && old(handedBack) <= handedBack && LoopOk(old(held), held, index, looks, current)
        invariant recycled == old(recycled) + multiset(Ids(Sorted(looks, current, true)))
        decreases |held| - index
      {
        ghost var look;
        index, look := LookAt(index, old(held), looks);
        RecycledSoFar(looks, look, current);
        looks := looks + [look];
      }
      LoopEnds(old(held), held, looks, current);
    }

    method MarkAcknowledged(ids: set<SurfaceId>)
      requires Valid()
      modifies this`held
      ensures Valid() && held == Marked(old(held), ids)
    {
      MarkingKeepsSurfaces(held, current, captured, recycled, destroyed, ids);
      var i := 0;
      while i < |held|
        invariant i <= |held| == |old(held)|
        invariant forall j :: 0 <= j < |held| ==> held[j] == if j < i then Marked(old(held), ids)[j] else old(held)[j]
      {
        if held[i].id in ids { held := held[i := held[i].(acknowledged := true)]; }
        i := i + 1;
      }
      assert held == Marked(old(held), ids);
    }

    /** A report from the app: the surfaces it names are marked, then the loop runs. */
    method Acknowledge(ids: set<SurfaceId>) returns (ghost looks: seq<Look>)
      requires Valid()
      modifies this`held, this`recycled, this`handedBack
      ensures Valid() && old(handedBack) <= handedBack
      ensures multiset(Seen(looks)) == multiset(Marked(old(held), ids))
      ensures held == Sorted(looks, current, false)
      ensures recycled == old(recycled) + multiset(Ids(Sorted(looks, current, true)))
    {
      MarkAcknowledged(ids);
      looks := RecycleAcknowledged();
    }

    /** The swap chain hands over a surface that it owns, so none that is held. */
    method Capture()
      requires Valid()
      modifies this`held, this`current, this`captured
      ensures Valid()
      ensures held == old(held) + (if current.Some? then [Held(current.value, false)] else [])
      ensures current.Some? ==> !HoldsId(old(held), current.value)
      ensures captured == old(captured) + (if current.Some? then multiset{current.value} else multiset{})
    {
      var pending: bool := *;
      if !pending {
        assert held == held + [];
        current := None;
        return;
      }
      FreshIdExists(held);
      var id :| !HoldsId(held, id);
      CapturingKeepsSurfaces(held, current, captured, recycled, destroyed, id);
      held := held + [Held(id, false)];
      captured := captured + multiset{id};
      current := Some(id);
    }

    /** What follows a swap that went through. */
    method CaptureNext() returns (ghost after: seq<Look>)
      requires Valid()
      modifies this`held, this`current, this`recycled, this`captured, this`handedBack
      ensures Valid() && old(handedBack) <= handedBack
      ensures multiset(Seen(after)) == multiset(old(held) + if current.Some? then [Held(current.value, false)] else [])
      ensures held == Sorted(after, current, false)
      ensures recycled == old(recycled) + multiset(Ids(Sorted(after, current, true)))
    {
      Capture();
      after := RecycleAcknowledged();
    }

    /** A failed swap leaves no current surface, but recycles nothing under it either. */
    method Present() returns (ghost before: seq<Look>, ghost after: seq<Look>, swapped: bool)
      requires Valid()
      modifies this`held, this`current, this`recycled, this`captured, this`handedBack
      ensures Valid() && old(handedBack) <= handedBack
      ensures multiset(Seen(before)) == multiset(old(held))
      ensures !swapped ==> current == None && after == [] && held == Sorted(before, old(current), false)
      ensures swapped ==>
                && multiset(Seen(after)) == multiset(Sorted(before, old(current), false)
                     + if current.Some? then [Held(current.value, false)] else [])
                && held == Sorted(after, current, false)
      ensures recycled == old(recycled) + multiset(Ids(Sorted(before, old(current), true)))
                          + multiset(Ids(Sorted(after, current, true)))
    {
      before := RecycleAcknowledged();
      after := [];
      current := None;
      swapped := *;
      if swapped {
        after := CaptureNext();
      }
    }

    method DestroyHeld()
      requires Valid()
      modifies this`held, this`current, this`destroyed
      ensures Valid() && held == [] && current == None
      ensures destroyed == old(destroyed) + multiset(Ids(old(held)))
    {
      current := None;
      destroyed := destroyed + multiset(Ids(held));
      held := [];
      assert Ids(held) == [];
    }

    /** The size changes only if the swap chain follows; the surfaces go either way. */
    method Resize(width: nat, height: nat)
      requires Valid()
      modifies this`held, this`current, this`destroyed, this`size
      ensures Valid()
      ensures if old(size) == (width, height) || width == 0 || height == 0
              then held == old(held) && current == old(current) && size == old(size) && destroyed == old(destroyed)
              else held == [] && current == None && (size == old(size) || size == (width, height))
                   && destroyed == old(destroyed) + multiset(Ids(old(held)))
    {
      if size == (width, height) || width == 0 || height == 0 { return; }
      DestroyHeld();
      var resized: bool := *;
      if resized { size := (width, height); }
    }

    // -------------------------------------------------------------- any sequence of calls

    method Answer(call: Call)
      requires Valid()
      modifies this
      ensures Valid() && old(handedBack) <= handedBack
    {
      match call {
        case Presenting => ghost var before, after; var swapped; before, after, swapped := Present();
        case Acknowledging(ids) => ghost var looks := Acknowledge(ids);
        case Resizing(width, height) => Resize(width, height);
      }
    }

    /** Over any sequence of calls the current surface stays held, no surface is held twice or
        lost, and each one handed back on the way was acknowledged, not current and not in
        use at that moment. */
    method NeverRecycledEarly(calls: seq<Call>)
      requires Valid()
      modifies this
      ensures Valid() && old(handedBack) <= handedBack
      ensures recycled == old(recycled) + multiset(ReturnedIds(handedBack[|old(handedBack)|..]))
      ensures forall i :: |old(handedBack)| <= i < |handedBack| ==>
                var r := handedBack[i];
                r.look.surface.acknowledged && Some(r.look.surface.id) != r.current && !r.look.inUse
    {
      var i := 0;
      while i < |calls|
        invariant i <= |calls| && Valid() && old(handedBack) <= handedBack
      {
        Answer(calls[i]);
        i := i + 1;
      }
      ReturnsSplit(old(handedBack), handedBack, old(recycled), recycled);
    }
  }

  lemma MarkingKeepsIds(held: seq<Held>, ids: set<SurfaceId>)
    requires Distinct(held)
    ensures Ids(Marked(held, ids)) == Ids(held) && Distinct(Marked(held, ids))
    ensures forall id :: HoldsId(held, id) ==> HoldsId(Marked(held, ids), id)
  {
    forall id | HoldsId(held, id)
      ensures HoldsId(Marked(held, ids), id)
    {
      var i :| 0 <= i < |held| && held[i].id == id;
      assert Marked(held, ids)[i].id == id;
    }
  }

  lemma {:induction false} IdBound(held: seq<Held>) returns (bound: nat)
    ensures forall i :: 0 <= i < |held| ==> held[i].id < bound
  {
    bound := 0;
    if held != [] {
      var rest := IdBound(held[1..]);
      bound := if held[0].id < rest then rest else held[0].id + 1;
      assert forall i :: 1 <= i < |held| ==> held[i] == held[1..][i - 1];
    }
  }

  lemma FreshIdExists(held: seq<Held>)
    ensures exists id :: !HoldsId(held, id)
  {
    var bound := IdBound(held);
    assert !HoldsId(held, bound);
  }

  lemma OneMoreOf(held: seq<Held>, h: Held)
    ensures multiset(held + [h]) == multiset(held) + multiset{h}
  {
  }

  /** Each surface looked at either stays or goes. */
  lemma {:induction false} NothingIsLost(looks: seq<Look>, current: Option<SurfaceId>)
    ensures multiset(Sorted(looks, current, true)) + multiset(Sorted(looks, current, false)) == multiset(Seen(looks))
  {
    if looks != [] {
      var front, last := looks[..|looks| - 1], looks[|looks| - 1];
      NothingIsLost(front, current);
      assert looks == front + [last];
      OneMoreLook(front, last, current);
      OneMoreOf(Seen(front), last.surface);
      OneMoreOf(Sorted(front, current, true), last.surface);
      OneMoreOf(Sorted(front, current, false), last.surface);
    }
  }

  /** Exactly the finished surfaces go: acknowledged, not current, not in use when looked at. */
  lemma {:induction false} OnlyFinishedSurfacesGo(looks: seq<Look>, current: Option<SurfaceId>, h: Held)
    ensures h in Sorted(looks, current, true) <==> h.acknowledged && Some(h.id) != current && Look(h, false) in looks
    ensures h in Sorted(looks, current, false) <==>
              Look(h, true) in looks || (Look(h, false) in looks && (!h.acknowledged || Some(h.id) == current))
  {
    if looks != [] {
      var front, last := looks[..|looks| - 1], looks[|looks| - 1];
      OnlyFinishedSurfacesGo(front, current, h);
      assert looks == front + [last];
      OneMoreLook(front, last, current);
    }
  }
}
