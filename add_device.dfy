/** The admin's "Add New Device" screen (src/screens/Admin/AddDeviceScreen.tsx):
    the pairing code typed by the admin is checked, then claimed for the
    signed-in user. The claim request and its answer are two events. */
module AddDevice {
  import opened Types
  import opened JsText

  const InvalidCodeAlert := Alert("Error", "Please enter a valid 6-digit code")
  const PairedAlert := Alert("Success", "Device paired successfully!")
  const PairFailedAlert := Alert("Error", "Failed to pair device. Check the code and try again.")

  /** What `handleClaim` does with the current input: reject the code, stop
      silently for want of a user, or claim the code for the user. */
  datatype ClaimStep = RejectCode(alert: Alert) | NoUser | Claim(code: string, userId: string)

  /** `code.length` counts UTF-16 code units, not characters. */
  function ClaimGuard(code: string, userId: Option<string>): (r: ClaimStep)
    // only the length is checked, not that the characters are digits
    ensures r.RejectCode? <==> Utf16Length(code) != 6
    ensures r.RejectCode? ==> r.alert == InvalidCodeAlert
    ensures r.NoUser? <==> Utf16Length(code) == 6 && !Truthy(userId)
    ensures r.Claim? ==> r.code == code && Some(r.userId) == userId && Truthy(userId)
  {
    if code == "" || Utf16Length(code) != 6 then RejectCode(InvalidCodeAlert)
    else if !Truthy(userId) then NoUser
    else Claim(code, userId.value)
  }

  /** Six characters are enough, digits or not. */
  lemma OnlyLengthIsChecked(userId: string)
    requires userId != ""
    ensures ClaimGuard("abc-de", Some(userId)) == Claim("abc-de", userId)
    ensures ClaimGuard("12345", Some(userId)).RejectCode?
  {
    Utf16LengthIsCountIffBasicPlane("abc-de");
    Utf16LengthIsCountIffBasicPlane("12345");
  }

  /** A character outside the Basic Multilingual Plane counts as two: three
      such characters pass the guard, and so does one followed by four
      digits, while one followed by five digits is rejected. */
  lemma SurrogatePairsCountTwice(userId: string)
    requires userId != ""
    ensures ClaimGuard("\U{1F600}\U{1F600}\U{1F600}", Some(userId)).Claim?
    ensures ClaimGuard("\U{1F600}1234", Some(userId)).Claim?
    ensures ClaimGuard("\U{1F600}12345", Some(userId)).RejectCode?
  {
    var e := "\U{1F600}";
    assert Utf16Length(e) == 2;
    Utf16LengthAppend(e, e);
    Utf16LengthAppend(e + e, e);
    assert e + e + e == "\U{1F600}\U{1F600}\U{1F600}";
    Utf16LengthIsCountIffBasicPlane("1234");
    Utf16LengthAppend(e, "1234");
    assert e + "1234" == "\U{1F600}1234";
    Utf16LengthIsCountIffBasicPlane("12345");
    Utf16LengthAppend(e, "12345");
    assert e + "12345" == "\U{1F600}12345";
  }

  class AddDeviceScreen {
    var code: string
    var loading: bool

    constructor ()
      ensures code == "" && !loading
    {
      code := "";
      loading := false;
    }

    /** The text field's change handler. */
    method EditCode(text: string)
      modifies this
      ensures code == text && loading == old(loading)
    {
      code := text;
    }

    /** The synchronous part of `handleClaim`: the guard, and `loading` set
        only when the claim request goes out. */
    method HandleClaim(userId: Option<string>) returns (step: ClaimStep)
      modifies this
      ensures step == ClaimGuard(code, userId) && code == old(code)
      ensures loading == (step.Claim? || old(loading))
      ensures step.RejectCode? || step.NoUser? ==> loading == old(loading)
    {
      step := ClaimGuard(code, userId);
      if step.Claim? {
        loading := true;
      }
    }

    /** The claim request settled: success or failure alert, and `loading`
        is reset in either case. */
    method ClaimSettled(succeeded: bool) returns (alert: Alert)
      modifies this
      ensures !loading && code == old(code)
      ensures alert == if succeeded then PairedAlert else PairFailedAlert
    {
      alert := if succeeded then PairedAlert else PairFailedAlert;
      loading := false;
    }
  }
}
