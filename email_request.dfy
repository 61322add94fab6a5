/** The email notification request: its parameter map and its recipient check. */
module EmailRequest {
  import opened Wrappers
  import opened JobData
  import opened Recipients

  /** The keys of `EmailConsumer.Property`. */
  const CcKey: string := "CC"
  const SubjectKey: string := "SUBJECT"

  /**
   * `EmailRequest.toMap`: the base request's map (`IMessageRequest.toMap`, given as `base`)
   * with CC mapped to the copy list and SUBJECT to the subject; every other entry kept.
   */
  function EmailToMap(base: Properties, cc: seq<string>, subject: string): (m: Properties)
    ensures m.Keys == base.Keys + {CcKey, SubjectKey}
    ensures m[CcKey] == StrListVal(cc) && m[SubjectKey] == StrVal(subject)
    ensures forall k :: k in base && k != CcKey && k != SubjectKey ==> m[k] == base[k]
  {
    base[CcKey := StrListVal(cc)][SubjectKey := StrVal(subject)]
  }

  /** `NotificationError.InvalidEmail`: the request's group and the rejected address. */
  datatype InvalidEmail = InvalidEmail(groupId: Uuid, email: string)

  /**
   * `verifyRecipients`: checks each recipient's target with `EmailValidator` (passed as
   * `isValidEmail`) in list order and throws for the first invalid one.
   */
  function VerifyRecipients(groupId: Uuid, recipients: seq<Recipient>, isValidEmail: string -> bool)
    : (r: Option<InvalidEmail>)
    ensures r.None? <==> forall i :: 0 <= i < |recipients| ==> isValidEmail(recipients[i].target)
    ensures r.Some? ==> exists i :: 0 <= i < |recipients| && FirstInvalid(recipients, isValidEmail, i)
                                    && r.value == InvalidEmail(groupId, recipients[i].target)
  {
    if recipients == [] then None
    else if !isValidEmail(recipients[0].target) then
      assert FirstInvalid(recipients, isValidEmail, 0);
      Some(InvalidEmail(groupId, recipients[0].target))
    else
      var r := VerifyRecipients(groupId, recipients[1..], isValidEmail);
      if r.Some? then
        var i :| 0 <= i < |recipients[1..]| && FirstInvalid(recipients[1..], isValidEmail, i)
                 && r.value == InvalidEmail(groupId, recipients[1..][i].target);
        assert FirstInvalid(recipients, isValidEmail, i + 1);
        r
      else
        assert forall i :: 1 <= i < |recipients| ==> recipients[i] == recipients[1..][i - 1];
        r
  }

  /** Recipient `i` is the first whose target the validator rejects. */
  predicate FirstInvalid(recipients: seq<Recipient>, isValidEmail: string -> bool, i: int) {
    && 0 <= i < |recipients|
    && !isValidEmail(recipients[i].target)
    && forall j :: 0 <= j < i ==> isValidEmail(recipients[j].target)
  }
}
