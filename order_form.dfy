/**
 * The storefront order form (`product/page.tsx`): the phone-number pattern
 * checked as the user types, and the submit that only checks for empty
 * fields before resetting the form.
 */
module OrderForm {
  import opened Wrappers

  datatype OrderField = Name | Phone | Wilaya | Commune | Delivery

  datatype OrderData = OrderData(name: string, phone: string, wilaya: string, commune: string, delivery: string)

  const EmptyOrder := OrderData("", "", "", "", "")
  const PhoneFormatMessage := "Please enter a valid phone number starting with 05, 06, or 07 followed by 8 digits"

  function FieldOf(d: OrderData, f: OrderField): string {
    match f
    case Name => d.name
    case Phone => d.phone
    case Wilaya => d.wilaya
    case Commune => d.commune
    case Delivery => d.delivery
  }

  /** `{ ...formData, [name]: value }`. */
  function WithField(d: OrderData, f: OrderField, v: string): (r: OrderData)
    ensures FieldOf(r, f) == v
    ensures forall g :: g != f ==> FieldOf(r, g) == FieldOf(d, g)
  {
    match f
    case Name => d.(name := v)
    case Phone => d.(phone := v)
    case Wilaya => d.(wilaya := v)
    case Commune => d.(commune := v)
    case Delivery => d.(delivery := v)
  }

  // ---------------------------------------------------------------------------
  // The phone pattern /^(05|06|07)[0-9]{8}$/

  predicate IsDigit(c: char) { '0' <= c <= '9' }

  /** `[0-9]{k}$`: exactly `k` digits and then the end of the input. */
  predicate DigitsToEnd(s: string, k: nat) {
    if k == 0 then s == []
    else s != [] && IsDigit(s[0]) && DigitsToEnd(s[1..], k - 1)
  }

  /** The pattern, matched left to right as the regular expression reads. */
  predicate PhoneMatches(s: string) {
    |s| >= 2 && s[..2] in {"05", "06", "07"} && DigitsToEnd(s[2..], 8)
  }

  lemma {:induction false} DigitsToEndCharacterized(s: string, k: nat)
    ensures DigitsToEnd(s, k) <==> |s| == k && forall i :: 0 <= i < |s| ==> IsDigit(s[i])
  {
    if k > 0 && s != [] {
      DigitsToEndCharacterized(s[1..], k - 1);
      if |s| == k && forall i :: 0 <= i < |s| ==> IsDigit(s[i]) {
        assert forall i :: 0 <= i < |s[1..]| ==> s[1..][i] == s[i + 1];
      }
    }
  }

  /** A phone number matches iff it has exactly 10 characters, starts with 05, 06 or 07, and the other 8 are digits. */
  lemma PhoneMatchesCharacterized(s: string)
    ensures PhoneMatches(s) <==>
      |s| == 10 && s[0] == '0' && s[1] in {'5', '6', '7'} && forall i :: 2 <= i < 10 ==> IsDigit(s[i])
  {
    if |s| >= 2 {
      DigitsToEndCharacterized(s[2..], 8);
      assert s[..2] == [s[0], s[1]];
      if |s| == 10 {
        assert forall i :: 2 <= i < 10 ==> s[2..][i - 2] == s[i];
      }
    }
  }

  /** The message a phone entry leaves in `errors.phone`: none (`''`) when it matches. */
  function PhoneError(value: string): (m: string)
    ensures m == "" <==> PhoneMatches(value)
    ensures m != "" ==> m == PhoneFormatMessage
  {
    if PhoneMatches(value) then "" else PhoneFormatMessage
  }

  // ---------------------------------------------------------------------------
  // Submit

  function RequiredMessage(f: OrderField): string {
    match f
    case Name => "Name is required"
    case Phone => "Phone number is required"
    case Wilaya => "Wilaya is required"
    case Commune => "Commune is required"
    case Delivery => "Delivery option is required"
  }

  /** `newErrors`: one message for each empty field, and nothing else. */
  function RequiredErrors(d: OrderData): (r: map<OrderField, string>)
    ensures forall f :: f in r <==> FieldOf(d, f) == ""
    ensures forall f :: f in r ==> r[f] == RequiredMessage(f)
  {
    var r0 := map[];
    var r1 := if d.name == "" then r0[Name := RequiredMessage(Name)] else r0;
    var r2 := if d.phone == "" then r1[Phone := RequiredMessage(Phone)] else r1;
    var r3 := if d.wilaya == "" then r2[Wilaya := RequiredMessage(Wilaya)] else r2;
    var r4 := if d.commune == "" then r3[Commune := RequiredMessage(Commune)] else r3;
    if d.delivery == "" then r4[Delivery := RequiredMessage(Delivery)] else r4
  }

  /**
   * Submit checks only for emptiness: every form whose five fields are
   * filled in passes, whether or not its phone number matches the pattern.
   */
  lemma SubmitIgnoresPhoneFormat(d: OrderData)
    requires d.name != "" && d.phone != "" && d.wilaya != "" && d.commune != "" && d.delivery != ""
    ensures RequiredErrors(d) == map[]
  {
    assert forall f :: f !in RequiredErrors(d);
  }

  /** A filled-in phone number that the pattern rejects, so the case above is not vacuous. */
  lemma FilledPhoneCanMismatch(phone: string)
    requires phone == "123"
    ensures phone != "" && !PhoneMatches(phone)
  {
    PhoneMatchesCharacterized(phone);
  }

  class OrderForm {
    var formData: OrderData
    var errors: map<OrderField, string>

    constructor ()
      ensures formData == EmptyOrder && errors == map[]
    {
      formData := EmptyOrder;
      errors := map[];
    }

    /** `handleInputChange`: set the field; a phone edit also sets its own error entry and keeps the others. */
    method HandleInputChange(field: OrderField, value: string)
      modifies this
      ensures formData == WithField(old(formData), field, value)
      ensures field == Phone ==> errors == old(errors)[Phone := PhoneError(value)]
      ensures field != Phone ==> errors == old(errors)
    {
      formData := WithField(formData, field, value);
      if field == Phone {
        if !PhoneMatches(value) {
          errors := errors[Phone := PhoneFormatMessage];
        } else {
          errors := errors[Phone := ""];
        }
      }
    }

    /**
     * `handleSubmit`: with an empty field, the errors become exactly the
     * missing-field messages and the form stays; otherwise the order is
     * taken, the form is reset and the errors cleared.
     */
    method HandleSubmit() returns (submitted: Option<OrderData>)
      modifies this
      ensures RequiredErrors(old(formData)) != map[] ==>
        submitted == None && formData == old(formData) && errors == RequiredErrors(old(formData))
      ensures RequiredErrors(old(formData)) == map[] ==>
        submitted == Some(old(formData)) && formData == EmptyOrder && errors == map[]
    {
      var newErrors := RequiredErrors(formData);
      if |newErrors| > 0 {
        errors := newErrors;
        return None;
      }
      submitted := Some(formData);
      formData := EmptyOrder;
      errors := map[];
    }
  }
}
