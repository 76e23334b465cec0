/**
 * The Update Subscriber Name modal: a single upper-case name input and a Save button.
 * Its callbacks (`onSave`, `toggle`, and the browser's `alert`) are returned as a list of
 * effects in the order the handler performs them.
 */
module CustomerModal {
  import opened Wrappers
  import opened Seqs
  import opened Text

  /** The characters `[^A-Z\s]` does not match. */
  predicate NameChar(c: char) {
    IsAsciiUpper(c) || IsJsWhitespace(c)
  }

  /** `value.toUpperCase().replace(/[^A-Z\s]/g, "")` */
  function SanitizeName(value: string): (r: string)
    ensures |r| <= |value|
    ensures forall i :: 0 <= i < |r| ==> NameChar(r[i])
  {
    Filter(Upper(value), NameChar)
  }

  /**
   * Every letter is kept upper-cased and every whitespace character kept, in their order;
   * digits, punctuation and other characters are dropped.
   */
  lemma SanitizeNameSpec(value: string, c: char)
    ensures multiset(SanitizeName(value))[c] == if NameChar(c) then multiset(Upper(value))[c] else 0
    ensures IsSubsequence(SanitizeName(value), Upper(value))
  {
    FilterCount(Upper(value), NameChar, c);
    FilterIsSubsequence(Upper(value), NameChar);
  }

  lemma UpperKeepsNameChars(s: string)
    requires forall i :: 0 <= i < |s| ==> NameChar(s[i])
    ensures Upper(s) == s
  {
  }

  /** Typing into an already sanitised field changes nothing. */
  lemma SanitizeNameIdempotent(value: string)
    ensures SanitizeName(SanitizeName(value)) == SanitizeName(value)
  {
    var r := SanitizeName(value);
    UpperKeepsNameChars(r);
    FilterAllKept(r, NameChar);
  }

  /** The part of the customer the modal passes on. */
  datatype Customer = Customer(id: string, subscriberId: string)

  datatype Effect =
    | Alert(message: string)
    | OnSave(subscriberId: string, newSubscriberName: string)
    | Toggle

  const EnterName := "Please enter a subscriber name."

  class NameModal {
    var newSubscriberName: string

    constructor()
      ensures newSubscriberName == ""
    {
      newSubscriberName := "";
    }

    /** The effect run when `isOpen` turns true. */
    method OnOpen()
      modifies this
      ensures newSubscriberName == ""
    {
      newSubscriberName := "";
    }

    /** `handleChange` */
    method HandleChange(value: string)
      modifies this
      ensures newSubscriberName == SanitizeName(value)
    {
      newSubscriberName := SanitizeName(value);
    }

    /**
     * `handleSave`: an empty name only raises the alert; otherwise the name is saved for
     * the customer's subscriber id when there is a customer, and the modal is toggled.
     */
    method HandleSave(customer: Option<Customer>) returns (effects: seq<Effect>)
      ensures newSubscriberName == "" ==> effects == [Alert(EnterName)]
      ensures newSubscriberName != "" && customer.Some? ==>
                effects == [OnSave(customer.value.subscriberId, newSubscriberName), Toggle]
      ensures newSubscriberName != "" && customer.None? ==> effects == [Toggle]
      ensures Toggle in effects <==> newSubscriberName != ""
    {
      if newSubscriberName == "" {
        return [Alert(EnterName)];
      }
      effects := [];
      if customer.Some? {
        effects := effects + [OnSave(customer.value.subscriberId, newSubscriberName)];
      }
      effects := effects + [Toggle];
    }
  }
}
