/** The emergency-contact editor of the client
    (client/src/components/EmergencyContactsManager.tsx): a local list of
    contacts, the form for a new one, the phone-number check it applies, and
    the hand-over of the list to the caller when it is saved. */
module ContactsManager {
  import opened Wrappers
  import opened Text

  /** A contact as the client keeps it. */
  datatype ClientContact = ClientContact(name: string, phone: string, relationship: string)

  const EmptyContact: ClientContact := ClientContact("", "", "")

  const RequiredError: string := "Name and phone number are required"
  const PhoneError: string := "Please enter a valid phone number (e.g., +1234567890)"
  const SavedMessage: string := "Emergency contacts saved successfully!"
  const SaveFallback: string := "Failed to save emergency contacts"

  // ---------------------------------------------------------------------
  // The phone check

  /** `phone.replace(/[\s-]/g, '')`: white space and hyphens removed. */
  function StripSeparators(s: string): (r: string)
    ensures |r| <= |s|
    ensures forall i :: 0 <= i < |r| ==> !IsSpace(r[i]) && r[i] != '-'
  {
    if s == [] then []
    else
      var last := s[|s| - 1];
      StripSeparators(s[..|s| - 1]) + (if IsSpace(last) || last == '-' then [] else [last])
  }

  lemma {:induction false} StripAppend(a: string, b: string)
    ensures StripSeparators(a + b) == StripSeparators(a) + StripSeparators(b)
    decreases |b|
  {
    if b == [] {
      assert a + b == a;
    } else {
      assert (a + b)[..|a + b| - 1] == a + b[..|b| - 1];
      StripAppend(a, b[..|b| - 1]);
    }
  }

  /** A text without separators is left as it is. */
  lemma {:induction false} StripKeepsPlain(s: string)
    requires forall i :: 0 <= i < |s| ==> !IsSpace(s[i]) && s[i] != '-'
    ensures StripSeparators(s) == s
  {
    if s != [] {
      StripKeepsPlain(s[..|s| - 1]);
    }
  }

  predicate IsDigit(c: char)
  {
    '0' <= c <= '9'
  }

  /** `/^\+?[1-9]\d{1,14}$/`: an optional plus, a non-zero digit, then one
      to fourteen more digits. */
  predicate MatchesPhonePattern(p: string)
  {
    DigitsPattern(WithoutPlus(p))
  }

  /** `\+?`: the text after an optional leading plus. */
  function WithoutPlus(p: string): string
  {
    if p != [] && p[0] == '+' then p[1..] else p
  }

  /** `[1-9]\d{1,14}`. */
  predicate DigitsPattern(digits: string)
  {
    && 2 <= |digits| <= 15
    && '1' <= digits[0] <= '9'
    && forall i :: 1 <= i < |digits| ==> IsDigit(digits[i])
  }

  /** The check `addContact` applies to the phone as typed: once the
      separators are gone, an accepted number has 2 to 16 characters (16
      only with the plus) and never starts with a zero. */
  predicate ValidPhone(phone: string)
    ensures ValidPhone(phone) ==> 2 <= |StripSeparators(phone)| <= 16
    ensures ValidPhone(phone) && StripSeparators(phone)[0] != '+' ==> |StripSeparators(phone)| <= 15
    ensures ValidPhone(phone) ==> StripSeparators(phone)[0] != '0'
  {
    MatchesPhonePattern(StripSeparators(phone))
  }

  /** Separators may be typed anywhere: inserting a space or a hyphen never
      changes whether a number is accepted. */
  lemma SeparatorsIgnored(a: string, b: string, c: char)
    requires IsSpace(c) || c == '-'
    ensures ValidPhone(a + [c] + b) == ValidPhone(a + b)
  {
    StripAppend(a + [c], b);
    StripAppend(a, [c]);
    StripAppend(a, b);
    assert [c][..0] == [];
    assert StripSeparators([c]) == [];
    assert StripSeparators(a + [c] + b) == StripSeparators(a + b);
  }

  /** An accepted number holds 2 to 15 digits, and nothing else but an
      optional leading plus. */
  lemma AcceptedNumbersAreShortDigitStrings(phone: string)
    requires ValidPhone(phone)
    ensures var digits := WithoutPlus(StripSeparators(phone));
      && 2 <= |digits| <= 15
      && forall i :: 0 <= i < |digits| ==> IsDigit(digits[i])
  {
    var digits := WithoutPlus(StripSeparators(phone));
    assert DigitsPattern(digits);
    assert IsDigit(digits[0]);
  }

  /** Digits and plus signs are not separators. */
  lemma StripKeepsNumbers(s: string)
    requires forall i :: 0 <= i < |s| ==> IsDigit(s[i]) || s[i] == '+'
    ensures StripSeparators(s) == s
  {
    StripKeepsPlain(s);
  }

  /** The example the error message gives is accepted. */
  lemma ExamplePhoneAccepted()
    ensures ValidPhone("+1234567890")
  {
    StripKeepsNumbers("+1234567890");
    var digits := "+1234567890"[1..];
    assert digits == "1234567890";
  }

  /** A leading zero is refused. */
  lemma LeadingZeroRefused()
    ensures !ValidPhone("0123456789")
  {
    StripKeepsNumbers("0123456789");
  }

  // ---------------------------------------------------------------------
  // Removing

  /** `xs.filter((_, i) => i !== index)`. */
  function WithoutIndex<T>(xs: seq<T>, index: int): seq<T>
  {
    if xs == [] then []
    else WithoutIndex(xs[..|xs| - 1], index) + (if |xs| - 1 == index then [] else [xs[|xs| - 1]])
  }

  /** The filter drops exactly the entry at `index`, keeping the order of
      the rest, and changes nothing when `index` is out of range. */
  lemma {:induction false} WithoutIndexSlices<T>(xs: seq<T>, index: int)
    ensures 0 <= index < |xs| ==> WithoutIndex(xs, index) == xs[..index] + xs[index + 1..]
    ensures !(0 <= index < |xs|) ==> WithoutIndex(xs, index) == xs
  {
    if xs != [] {
      var n := |xs| - 1;
      WithoutIndexSlices(xs[..n], index);
      if index == n {
        assert xs[..n] == xs[..index] + xs[index + 1..];
      } else if 0 <= index < n {
        assert xs[..n][..index] == xs[..index];
        assert xs[..n][index + 1..] + [xs[n]] == xs[index + 1..];
      } else {
        assert xs[..n] + [xs[n]] == xs;
      }
    }
  }

  // ---------------------------------------------------------------------
  // The component's state

  class EmergencyContactsManager {
    var localContacts: seq<ClientContact>
    var newContact: ClientContact
    var loading: bool
    var error: string
    var success: string
    var isAddingNew: bool

    /** The initial state: the given contacts, or none. */
    constructor (contacts: Option<seq<ClientContact>>)
      ensures localContacts == (if contacts.Some? then contacts.value else [])
      ensures newContact == EmptyContact && !loading && error == "" && success == "" && !isAddingNew
    {
      localContacts := if contacts.Some? then contacts.value else [];
      newContact := EmptyContact;
      loading := false;
      error := "";
      success := "";
      isAddingNew := false;
    }

    /** The "Add Emergency Contact" button opens the form. */
    method OpenForm()
      modifies this
      ensures isAddingNew
      ensures localContacts == old(localContacts) && newContact == old(newContact) && error == old(error)
      ensures success == old(success) && loading == old(loading)
    {
      isAddingNew := true;
    }

    /** Typing in the form replaces the contact being entered. */
    method Edit(input: ClientContact)
      modifies this
      ensures newContact == input
      ensures localContacts == old(localContacts) && error == old(error) && isAddingNew == old(isAddingNew)
      ensures success == old(success) && loading == old(loading)
    {
      newContact := input;
    }

    /** `addContact`: both fields are required, the phone must pass the
        check, and then the contact, as typed, goes to the end of the list
        and the form is reset and closed. */
    method AddContact()
      modifies this
      ensures success == old(success) && loading == old(loading)
      ensures old(newContact.name) == [] || old(newContact.phone) == [] ==>
        && error == RequiredError
        && localContacts == old(localContacts) && newContact == old(newContact) && isAddingNew == old(isAddingNew)
      ensures old(newContact.name) != [] && old(newContact.phone) != [] && !ValidPhone(old(newContact.phone)) ==>
        && error == PhoneError
        && localContacts == old(localContacts) && newContact == old(newContact) && isAddingNew == old(isAddingNew)
      ensures old(newContact.name) != [] && old(newContact.phone) != [] && ValidPhone(old(newContact.phone)) ==>
        && localContacts == old(localContacts) + [old(newContact)]
        && newContact == EmptyContact && error == "" && !isAddingNew
    {
      if newContact.name == [] || newContact.phone == [] {
        error := RequiredError;
        return;
      }
      if !ValidPhone(newContact.phone) {
        error := PhoneError;
        return;
      }
      localContacts := localContacts + [newContact];
      newContact := EmptyContact;
      error := "";
      isAddingNew := false;
    }

    /** `removeContact`: drops the entry at `index`. */
    method RemoveContact(index: int)
      modifies this
      ensures localContacts == WithoutIndex(old(localContacts), index)
      ensures newContact == old(newContact) && error == old(error) && isAddingNew == old(isAddingNew)
      ensures success == old(success) && loading == old(loading)
    {
      localContacts := WithoutIndex(localContacts, index);
    }

    /** The form's Cancel button: closes and resets the form and clears the
        error; the list is untouched. */
    method Cancel()
      modifies this
      ensures !isAddingNew && newContact == EmptyContact && error == ""
      ensures localContacts == old(localContacts) && success == old(success) && loading == old(loading)
    {
      isAddingNew := false;
      newContact := EmptyContact;
      error := "";
    }

    /** `saveContacts`: hands the list over unchanged and reports the
        outcome; a failure without a message gets the fixed fallback. The
        success message's clearing three seconds later is not modelled. */
    method SaveContacts(outcome: Result<()>) returns (sent: seq<ClientContact>)
      modifies this
      ensures sent == old(localContacts) && localContacts == old(localContacts)
      ensures !loading
      ensures outcome.Ok? ==> success == SavedMessage && error == ""
      ensures outcome.Err? ==> success == "" && error == (if outcome.message != [] then outcome.message else SaveFallback)
      ensures newContact == old(newContact) && isAddingNew == old(isAddingNew)
    {
      loading := true;
      error := "";
      success := "";
      sent := localContacts;
      if outcome.Ok? {
        success := SavedMessage;
      } else {
        error := if outcome.message != [] then outcome.message else SaveFallback;
      }
      loading := false;
    }
  }

  /** Adding a contact and then removing the last entry gives the list back. */
  lemma RemoveUndoesAdd(xs: seq<ClientContact>, c: ClientContact)
    ensures WithoutIndex(xs + [c], |xs|) == xs
  {
    WithoutIndexSlices(xs + [c], |xs|);
    assert (xs + [c])[..|xs|] == xs;
  }
}
