/**
  The object-picker popup: it lists the chip-capable items, remembers which one was picked,
  and passes the pick on when Next is pressed.
*/
module Popup {
  import opened Common

  /** An item stays in the list unless its `hasChip` is an explicit `false`. */
  predicate ChipCapable(it: Item) {
    it.hasChip != Some(false)
  }

  function CapableMarks(items: seq<Item>): (r: seq<bool>)
    ensures |r| == |items| && forall i :: 0 <= i < |items| ==> (r[i] <==> ChipCapable(items[i]))
  {
    seq(|items|, i requires 0 <= i < |items| => ChipCapable(items[i]))
  }

  /** The items offered for picking, in the given order. */
  function CapableItems(items: seq<Item>): seq<Item> {
    Kept(items, CapableMarks(items))
  }

  /** Exactly the chip-capable items are offered, each offered item is one of the given ones,
      and none is left out. */
  lemma CapableItemsMembers(items: seq<Item>)
    ensures |CapableItems(items)| <= |items|
    ensures forall it :: it in CapableItems(items) <==> it in items && ChipCapable(it)
  {
    var m := CapableMarks(items);
    KeptMembers(items, m);
    forall it | it in items && ChipCapable(it)
      ensures it in CapableItems(items)
    {
      var i :| 0 <= i < |items| && items[i] == it;
      assert m[i];
    }
  }

  /** A call to the parent's `onSelect` or `onNext`: the item and its position in the list. */
  datatype Choice = Choice(item: Item, index: nat)

  /** What the open popup shows: the list, which entry is marked as picked, and whether Next
      is disabled. */
  datatype View = View(shown: seq<Item>, picked: seq<bool>, nextDisabled: bool)

  class ChipPopup {
    var open: bool
    var pickedIdx: Option<nat>
    const items: seq<Item>

    /** A pick always points into the offered list. */
    ghost predicate Valid()
      reads this
    {
      pickedIdx.Some? ==> pickedIdx.value < |CapableItems(items)|
    }

    constructor (items: seq<Item>, open: bool)
      ensures Valid() && this.items == items && this.open == open && pickedIdx == None
    {
      this.items := items;
      this.open := open;
      pickedIdx := None;
    }

    /** The parent opens or closes the popup. The pick lives in a state hook that is declared
        before the early return, so it survives a close and a reopen. */
    method SetOpen(b: bool)
      requires Valid()
      modifies this
      ensures Valid() && open == b && pickedIdx == old(pickedIdx)
    {
      open := b;
    }

    /** Tapping entry `idx` picks it and reports it to `onSelect`. */
    method HandlePick(idx: nat) returns (selected: Choice)
      requires Valid() && open && idx < |CapableItems(items)|
      modifies this
      ensures Valid() && open && pickedIdx == Some(idx)
      ensures selected == Choice(CapableItems(items)[idx], idx)
    {
      pickedIdx := Some(idx);
      selected := Choice(CapableItems(items)[idx], idx);
    }

    /** Next: nothing without a pick; otherwise one call to `onNext` with the picked item. */
    method HandleNext() returns (next: Option<Choice>)
      requires Valid() && open
      ensures next.None? <==> pickedIdx.None?
      ensures next.Some? ==> next.value.index == pickedIdx.value
      ensures next.Some? ==> next.value.item == CapableItems(items)[pickedIdx.value]
      ensures next.Some? ==> ChipCapable(next.value.item) && next.value.item in items
    {
      if pickedIdx == None {
        return None;
      }
      CapableItemsMembers(items);
      var idx := pickedIdx.value;
      next := Some(Choice(CapableItems(items)[idx], idx));
    }

    /** What is rendered: nothing while closed. */
    function Render(): (v: Option<View>)
      reads this
      ensures v.None? <==> !open
      ensures v.Some? ==> v.value.shown == CapableItems(items) && |v.value.picked| == |v.value.shown|
      ensures v.Some? ==> (v.value.nextDisabled <==> pickedIdx.None?)
      ensures v.Some? ==> forall i :: 0 <= i < |v.value.picked| ==> (v.value.picked[i] <==> pickedIdx == Some(i))
    {
      if !open then None
      else
        var shown, picked := CapableItems(items), pickedIdx;
        Some(View(shown, seq(|shown|, i requires 0 <= i < |shown| => picked == Some(i)), picked == None))
    }
  }

  /** At most one entry is marked as picked, and exactly one once something is picked. */
  lemma AtMostOnePicked(p: ChipPopup)
    requires p.Valid() && p.open
    ensures CountTrue(p.Render().value.picked) <= 1
    ensures p.pickedIdx.Some? ==> CountTrue(p.Render().value.picked) == 1
  {
    var marks := p.Render().value.picked;
    match p.pickedIdx
    case None =>
      CountTrueAtMostOne(marks, |marks|);
    case Some(j) =>
      CountTrueAtMostOne(marks, j);
  }
}
