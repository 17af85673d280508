/**
  The opening quiz: twenty objects to mark as "has a chip", a Check button that reveals which
  marks were right, and the button that opens the object-picker popup.
*/
module MainFirst {
  import opened Common
  import opened Popup

  function Items(): seq<Item> {
    [
      Item("Phone", Some(true)),
      Item("Laptop", Some(true)),
      Item("Smartwatch", Some(true)),
      Item("Game console", Some(true)),
      Item("Robot toy", Some(true)),
      Item("Satellite", Some(true)),
      Item("Smart car", Some(true)),
      Item("Drone", Some(true)),
      Item("Smart speaker", Some(true)),
      Item("Camera", Some(true)),
      Item("Microwave", Some(true)),
      Item("Washer", Some(true)),
      Item("TV", Some(true)),
      Item("Traffic light", Some(true)),
      Item("Credit card", Some(true)),
      Item("Calculator", Some(true)),
      Item("Remote", Some(true)),
      Item("E-scooter", Some(true)),
      Item("Teddy bear", Some(false)),
      Item("Football", Some(false))
    ]
  }

  /** Twenty items; only the last two, the teddy bear and the football, have no chip. */
  lemma ItemsFacts()
    ensures |Items()| == 20
    ensures forall i :: 0 <= i < 18 ==> Items()[i].hasChip == Some(true)
    ensures Items()[18] == Item("Teddy bear", Some(false)) && Items()[19] == Item("Football", Some(false))
  {
  }

  /** Position-wise `hasChip` of the items. */
  function ChipMarks(items: seq<Item>): (r: seq<bool>)
    ensures |r| == |items| && forall i :: 0 <= i < |items| ==> (r[i] <==> HasChip(items[i]))
  {
    seq(|items|, i requires 0 <= i < |items| => HasChip(items[i]))
  }

  function Names(items: seq<Item>): (r: seq<string>)
    ensures |r| == |items| && forall i :: 0 <= i < |items| ==> r[i] == items[i].name
  {
    seq(|items|, i requires 0 <= i < |items| => items[i].name)
  }

  /** The names of the selected items that have a chip, in item order. */
  function CorrectMarkedNames(items: seq<Item>, selected: seq<bool>): seq<string>
    requires |selected| == |items|
  {
    Names(Kept(items, AndMarks(selected, ChipMarks(items))))
  }

  /** The names of the selected items that have no chip, in item order. */
  function WrongMarkedNames(items: seq<Item>, selected: seq<bool>): seq<string>
    requires |selected| == |items|
  {
    Names(Kept(items, AndNotMarks(selected, ChipMarks(items))))
  }

  /** Every marked item is reported exactly once, as correct or as wrong. */
  lemma MarkedNamesPartition(items: seq<Item>, selected: seq<bool>)
    requires |selected| == |items|
    ensures |CorrectMarkedNames(items, selected)| + |WrongMarkedNames(items, selected)| == CountTrue(selected)
  {
    CountTrueSplit(selected, ChipMarks(items));
  }

  /** The names of the kept items are exactly the names at the marked positions. */
  lemma NamesOfKept(items: seq<Item>, marks: seq<bool>)
    requires |marks| == |items|
    ensures forall i :: 0 <= i < |items| && marks[i] ==> items[i].name in Names(Kept(items, marks))
    ensures forall n :: n in Names(Kept(items, marks)) ==>
      exists i :: 0 <= i < |items| && marks[i] && items[i].name == n
  {
    var ix := TrueIndices(marks);
    var names := Names(Kept(items, marks));
    assert forall k :: 0 <= k < |names| ==> names[k] == items[ix[k]].name;
    forall i | 0 <= i < |items| && marks[i]
      ensures items[i].name in names
    {
      var k :| 0 <= k < |ix| && ix[k] == i;
      assert names[k] == items[i].name;
    }
    forall n | n in names
      ensures exists i :: 0 <= i < |items| && marks[i] && items[i].name == n
    {
      var k :| 0 <= k < |names| && names[k] == n;
      assert marks[ix[k]] && items[ix[k]].name == n;
    }
  }

  /** The correct list names exactly the selected items with a chip. */
  lemma CorrectNamesMembers(items: seq<Item>, selected: seq<bool>)
    requires |selected| == |items|
    ensures forall i :: 0 <= i < |items| && selected[i] && HasChip(items[i]) ==>
      items[i].name in CorrectMarkedNames(items, selected)
    ensures forall n :: n in CorrectMarkedNames(items, selected) ==>
      exists i :: 0 <= i < |items| && selected[i] && HasChip(items[i]) && items[i].name == n
  {
    var good := AndMarks(selected, ChipMarks(items));
    NamesOfKept(items, good);
    forall n | n in CorrectMarkedNames(items, selected)
      ensures exists i :: 0 <= i < |items| && selected[i] && HasChip(items[i]) && items[i].name == n
    {
      var i :| 0 <= i < |items| && good[i] && items[i].name == n;
    }
  }

  /** The wrong list names exactly the selected items without a chip. */
  lemma WrongNamesMembers(items: seq<Item>, selected: seq<bool>)
    requires |selected| == |items|
    ensures forall i :: 0 <= i < |items| && selected[i] && !HasChip(items[i]) ==>
      items[i].name in WrongMarkedNames(items, selected)
    ensures forall n :: n in WrongMarkedNames(items, selected) ==>
      exists i :: 0 <= i < |items| && selected[i] && !HasChip(items[i]) && items[i].name == n
  {
    var bad := AndNotMarks(selected, ChipMarks(items));
    NamesOfKept(items, bad);
    forall n | n in WrongMarkedNames(items, selected)
      ensures exists i :: 0 <= i < |items| && selected[i] && !HasChip(items[i]) && items[i].name == n
    {
      var i :| 0 <= i < |items| && bad[i] && items[i].name == n;
    }
  }

  /** An item's bubble turns red only after Check, when it is marked and has no chip. */
  predicate IsWrong(showResult: bool, isOn: bool, it: Item) {
    showResult && isOn && !HasChip(it)
  }

  /** With the quiz's items only the teddy bear and the football can ever be shown as wrong,
      and each of them is, once marked and checked. */
  lemma OnlyTwoCanBeWrong(showResult: bool, selected: seq<bool>)
    requires |selected| == |Items()|
    ensures forall i :: 0 <= i < |Items()| ==>
      (IsWrong(showResult, selected[i], Items()[i]) <==> showResult && selected[i] && 18 <= i)
    ensures forall i :: 0 <= i < |Items()| && IsWrong(showResult, selected[i], Items()[i]) ==>
      Items()[i].name == "Teddy bear" || Items()[i].name == "Football"
  {
    ItemsFacts();
  }

  /** A red bubble's name is always in the listed wrong picks. */
  lemma WrongBubbleListed(items: seq<Item>, selected: seq<bool>, showResult: bool, i: nat)
    requires |selected| == |items| && i < |items|
    requires IsWrong(showResult, selected[i], items[i])
    ensures items[i].name in WrongMarkedNames(items, selected)
  {
    WrongNamesMembers(items, selected);
  }

  /** The popup offers eighteen of the quiz's items: all but the teddy bear and the football. */
  lemma PopupOffersEighteen()
    ensures |CapableItems(Items())| == 18
    ensures Item("Teddy bear", Some(false)) !in CapableItems(Items())
    ensures Item("Football", Some(false)) !in CapableItems(Items())
  {
    var m := CapableMarks(Items());
    ItemsFacts();
    assert m == seq(20, i => i < 18);
    CountTrueFirst(18, 20);
    CapableItemsMembers(Items());
  }

  /** A row whose first `k` of `n` marks are set counts `k`. */
  lemma {:induction false} CountTrueFirst(k: nat, n: nat)
    requires k <= n
    ensures CountTrue(seq(n, i => i < k)) == k
    decreases n
  {
    if n > 0 {
      if k == n {
        CountTrueFirst(k - 1, n - 1);
        assert seq(n, i => i < k)[..n - 1] == seq(n - 1, i => i < k - 1);
      } else {
        CountTrueFirst(k, n - 1);
        assert seq(n, i => i < k)[..n - 1] == seq(n - 1, i => i < k);
      }
    }
  }

  /** Toggling flips one mark, so toggling the same mark twice restores the selection. */
  lemma ToggleTwice(selected: seq<bool>, idx: nat)
    requires idx < |selected|
    ensures selected[idx := !selected[idx]][idx := !selected[idx := !selected[idx]][idx]] == selected
  {
  }

  /** The quiz screen's state. The popup instance lives as long as the screen: its pick is
      kept between openings. */
  class MainFirstScreen {
    var selected: seq<bool>
    var showResult: bool
    var showPopup: bool
    const popup: ChipPopup

    ghost predicate Valid()
      reads this, popup
    {
      |selected| == |Items()| && popup.items == Items() && popup.open == showPopup && popup.Valid()
    }

    constructor ()
      ensures Valid() && fresh(popup)
      ensures selected == seq(|Items()|, _ => false) && CountTrue(selected) == 0
      ensures !showResult && !showPopup && popup.pickedIdx == None
    {
      CountTrueExtremes(seq(|Items()|, _ => false));
      selected := seq(|Items()|, _ => false);
      showResult := false;
      showPopup := false;
      popup := new ChipPopup(Items(), false);
    }

    /** Tapping item `idx` flips its mark and no other, moving the count by one. */
    method Toggle(idx: nat)
      requires Valid() && idx < |selected|
      modifies this
      ensures Valid()
      ensures |selected| == |old(selected)| && selected[idx] == !old(selected)[idx]
      ensures forall j :: 0 <= j < |selected| && j != idx ==> selected[j] == old(selected)[j]
      ensures CountTrue(selected) == CountTrue(old(selected)) + (if old(selected)[idx] then -1 else 1)
      ensures showResult == old(showResult) && showPopup == old(showPopup)
    {
      CountTrueFlip(selected, idx);
      selected := selected[idx := !selected[idx]];
    }

    /** Check: the results are shown from now on. */
    method Check()
      requires Valid()
      modifies this
      ensures Valid() && showResult
      ensures selected == old(selected) && showPopup == old(showPopup)
    {
      showResult := true;
    }

    method OpenPopup()
      requires Valid()
      modifies this, popup
      ensures Valid() && showPopup && popup.pickedIdx == old(popup.pickedIdx)
      ensures selected == old(selected) && showResult == old(showResult)
    {
      showPopup := true;
      popup.SetOpen(true);
    }

    /** The popup's close button and backdrop. */
    method ClosePopup()
      requires Valid()
      modifies this, popup
      ensures Valid() && !showPopup && popup.pickedIdx == old(popup.pickedIdx)
      ensures selected == old(selected) && showResult == old(showResult)
    {
      showPopup := false;
      popup.SetOpen(false);
    }

    /** Picking an object in the popup; the parent's `onSelect` only logs it. */
    method PickInPopup(idx: nat)
      requires Valid() && showPopup && idx < |CapableItems(Items())|
      modifies popup
      ensures Valid() && popup.pickedIdx == Some(idx)
    {
      var _ := popup.HandlePick(idx);
    }

    /** The popup's Next: with a pick, the popup closes and the steps are started (when the
        screen was given a way to start them); without one nothing happens. */
    method NextInPopup(canStartSteps: bool) returns (startedSteps: bool)
      requires Valid() && showPopup
      modifies this, popup
      ensures Valid()
      ensures showPopup <==> old(popup.pickedIdx).None?
      ensures startedSteps <==> old(popup.pickedIdx).Some? && canStartSteps
      ensures popup.pickedIdx == old(popup.pickedIdx)
      ensures selected == old(selected) && showResult == old(showResult)
    {
      var next := popup.HandleNext();
      startedSteps := false;
      if next.Some? {
        showPopup := false;
        popup.SetOpen(false);
        startedSteps := canStartSteps;
      }
    }
  }
}
