/**
 * The iOS client's user record (SafeZone/Models/User.swift) and its privacy mask of the phone
 * number: the first three and the last two characters stay visible around "***".
 */
module UserModel {
  import opened Common

  const Stars := "***"

  datatype User = User(id: string, phoneNumber: string, username: string, isVerified: bool, profileImageUrl: Option<string>)

  /** `String(phoneNumber.prefix(3)) + "***" + String(phoneNumber.suffix(2))`. */
  function MaskedPhone(phone: string): (r: string)
    ensures |r| == (if |phone| < 3 then |phone| else 3) + 3 + (if |phone| < 2 then |phone| else 2)
    ensures MatchAt(r, Stars, |FirstN(phone, 3)|)
  {
    var r := FirstN(phone, 3) + Stars + LastN(phone, 2);
    assert r[|FirstN(phone, 3)|..|FirstN(phone, 3)| + 3] == Stars;
    r
  }

  function Masked(u: User): string {
    MaskedPhone(u.phoneNumber)
  }

  /**
   * From five characters on, the mask keeps the first three and the last two in place and
   * hides exactly the `n - 5` in between: putting them back where the stars are gives the number.
   */
  lemma MaskHidesMiddle(phone: string)
    requires |phone| >= 5
    ensures var r := MaskedPhone(phone);
      && r[..3] == phone[..3]
      && r[6..] == phone[|phone| - 2..]
      && r[..3] + phone[3..|phone| - 2] + r[6..] == phone
      && |phone[3..|phone| - 2]| == |phone| - 5
  {
    var r := MaskedPhone(phone);
    assert r == phone[..3] + Stars + phone[|phone| - 2..];
    assert r[..3] == phone[..3];
    assert r[6..] == phone[|phone| - 2..];
    assert phone == phone[..3] + phone[3..|phone| - 2] + phone[|phone| - 2..];
  }

  /** Below five characters nothing is hidden: every character of the number is shown, before or after the stars. */
  lemma ShortNumberShown(phone: string)
    requires |phone| < 5
    ensures var r := MaskedPhone(phone);
      forall i :: 0 <= i < |phone| ==> (i < 3 && r[i] == phone[i]) || (i >= |phone| - 2 && r[|r| - (|phone| - i)] == phone[i])
  {
    var r := MaskedPhone(phone);
    var head := FirstN(phone, 3);
    var tail := LastN(phone, 2);
    assert r == head + Stars + tail;
    forall i | 0 <= i < |phone|
      ensures (i < 3 && r[i] == phone[i]) || (i >= |phone| - 2 && r[|r| - (|phone| - i)] == phone[i])
    {
      if i >= 3 {
        assert |phone| == 4 && i == 3;
        assert r[|r| - 1] == tail[1] == phone[3];
      }
    }
  }
}
