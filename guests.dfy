/** The guest picker of the booking form: a popup with "+" and "-" buttons
    for the number of guests and of children. The buttons change pending
    counts shown in the popup; "apply" copies them into the booking field
    and into the form's hidden inputs, and closes the popup. */
module Guests {

  class GuestPicker {
    /** The pending counts, changed by the buttons. */
    var guestCount: int
    var childrenCount: int
    /** The numbers shown inside the popup. */
    var popupGuestText: int
    var popupChildrenText: int
    /** The numbers shown in the booking field. */
    var fieldGuestText: int
    var fieldChildrenText: int
    /** The hidden form inputs that the booking request submits. */
    var inputGuest: int
    var inputChildren: int
    /** Whether the popup is displayed. */
    var popupOpen: bool

    /** At least one guest, never a negative number of children, and the
        popup always shows the pending counts. */
    ghost predicate Valid()
      reads this
    {
      && guestCount >= 1
      && childrenCount >= 0
      && popupGuestText == guestCount
      && popupChildrenText == childrenCount
    }

    /** The page loads with the counts rendered by the booking form (one
        guest and no children by default) in the popup, the field and the
        hidden inputs alike, and the popup hidden. The pending counts are
        read from the popup. */
    constructor (guests: int, children: int)
      requires guests >= 1 && children >= 0
      ensures Valid()
      ensures guestCount == guests && childrenCount == children
      ensures fieldGuestText == guests && fieldChildrenText == children
      ensures inputGuest == guests && inputChildren == children
      ensures !popupOpen
    {
      guestCount, childrenCount := guests, children;
      popupGuestText, popupChildrenText := guests, children;
      fieldGuestText, fieldChildrenText := guests, children;
      inputGuest, inputChildren := guests, children;
      popupOpen := false;
    }

    /** A click on the booking field shows the popup and changes no count. */
    method Open()
      modifies this`popupOpen
      ensures popupOpen
    {
      popupOpen := true;
    }

    /** Shows the pending counts in the popup. */
    method UpdateDisplay()
      modifies this`popupGuestText, this`popupChildrenText
      ensures popupGuestText == guestCount && popupChildrenText == childrenCount
    {
      popupGuestText := guestCount;
      popupChildrenText := childrenCount;
    }

    /** A "+" button for `target`: one more guest for "guest", one more
        child for "children", nothing for any other target. The field and
        the hidden inputs keep their values. */
    method Increment(target: string)
      requires Valid()
      modifies this`guestCount, this`childrenCount, this`popupGuestText, this`popupChildrenText
      ensures Valid()
      ensures guestCount == old(guestCount) + (if target == "guest" then 1 else 0)
      ensures childrenCount == old(childrenCount) + (if target == "children" then 1 else 0)
      ensures inputGuest == old(inputGuest) && inputChildren == old(inputChildren)
    {
      if target == "guest" {
        guestCount := guestCount + 1;
      } else if target == "children" {
        childrenCount := childrenCount + 1;
      }
      UpdateDisplay();
    }

    /** A "-" button for `target`: one guest fewer for "guest" unless only
        one is left, one child fewer for "children" unless there are none,
        nothing for any other target. The field and the hidden inputs keep
        their values. */
    method Decrement(target: string)
      requires Valid()
      modifies this`guestCount, this`childrenCount, this`popupGuestText, this`popupChildrenText
      ensures Valid()
      ensures guestCount == if target == "guest" && old(guestCount) > 1 then old(guestCount) - 1 else old(guestCount)
      ensures childrenCount == if target == "children" && old(childrenCount) > 0 then old(childrenCount) - 1 else old(childrenCount)
      ensures inputGuest == old(inputGuest) && inputChildren == old(inputChildren)
    {
      if target == "guest" && guestCount > 1 {
        guestCount := guestCount - 1;
      } else if target == "children" && childrenCount > 0 {
        childrenCount := childrenCount - 1;
      }
      UpdateDisplay();
    }

    /** The "apply" button: the pending counts go into the booking field and
        the hidden inputs, the counts themselves stay, and the popup closes. */
    method Apply()
      requires Valid()
      modifies this`fieldGuestText, this`fieldChildrenText, this`inputGuest, this`inputChildren, this`popupOpen
      ensures Valid()
      ensures guestCount == old(guestCount) && childrenCount == old(childrenCount)
      ensures fieldGuestText == guestCount && fieldChildrenText == childrenCount
      ensures inputGuest == guestCount && inputChildren == childrenCount
      ensures !popupOpen
    {
      fieldGuestText := guestCount;
      fieldChildrenText := childrenCount;
      inputGuest := guestCount;
      inputChildren := childrenCount;
      popupOpen := false;
    }
  }

  /** A session on the picker: the submitted values change only on "apply",
      and the guest count cannot be pushed below one. */
  method PickerSession()
  {
    var picker := new GuestPicker(1, 0);
    picker.Open();
    picker.Decrement("guest");
    assert picker.guestCount == 1;
    picker.Increment("guest");
    picker.Increment("children");
    picker.Increment("pets");
    assert picker.guestCount == 2 && picker.childrenCount == 1;
    assert picker.inputGuest == 1 && picker.inputChildren == 0;
    picker.Apply();
    assert picker.inputGuest == 2 && picker.inputChildren == 1 && !picker.popupOpen;
    picker.Decrement("children");
    picker.Decrement("children");
    assert picker.childrenCount == 0 && picker.inputChildren == 1;
  }
}
