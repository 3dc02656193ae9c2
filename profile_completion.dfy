/** The profile completeness check (`useProfileCompletion`): which of the six required
    profile fields are missing, and the once-per-session prompt to fill them in. The
    browser's `sessionStorage` is the set of users already prompted. */
module ProfileCompletion {
  import opened Wrappers
  import opened Strings

  /** The required columns of a `profiles` row. */
  datatype ProfileRow = ProfileRow(
    fullName: Option<string>,
    phone: Option<string>,
    dateOfBirth: Option<string>,
    bloodGroup: Option<string>,
    emergencyContact: Option<string>,
    emergencyPhone: Option<string>)

  /** The six required fields. */
  datatype Field = FullName | Phone | DateOfBirth | BloodGroup | EmergencyContact | EmergencyPhone

  /** The required fields, in the order they are checked and listed. */
  const Required: seq<Field> := [FullName, Phone, DateOfBirth, BloodGroup, EmergencyContact, EmergencyPhone]

  function Position(f: Field): (i: nat)
    ensures i < 6 && Required[i] == f
  {
    match f
    case FullName => 0
    case Phone => 1
    case DateOfBirth => 2
    case BloodGroup => 3
    case EmergencyContact => 4
    case EmergencyPhone => 5
  }

  /** The label shown for a field. */
  function Label(f: Field): string {
    match f
    case FullName => "Full Name"
    case Phone => "Phone Number"
    case DateOfBirth => "Date of Birth"
    case BloodGroup => "Blood Group"
    case EmergencyContact => "Emergency Contact"
    case EmergencyPhone => "Emergency Phone"
  }

  function FieldValue(p: ProfileRow, f: Field): Option<string> {
    match f
    case FullName => p.fullName
    case Phone => p.phone
    case DateOfBirth => p.dateOfBirth
    case BloodGroup => p.bloodGroup
    case EmergencyContact => p.emergencyContact
    case EmergencyPhone => p.emergencyPhone
  }

  /** A field is missing when it is falsy or a string made of white space only, the
      strings that trim to "" (`TrimEmptyIffAllSpace`). */
  predicate IsMissing(p: ProfileRow, f: Field) {
    FieldValue(p, f).None? || AllSpace(FieldValue(p, f).value)
  }

  lemma IsMissingMeansBlank(p: ProfileRow, f: Field)
    ensures IsMissing(p, f) <==> FieldValue(p, f).None? || Trim(FieldValue(p, f).value) == ""
  {
    if FieldValue(p, f).Some? {
      TrimEmptyIffAllSpace(FieldValue(p, f).value);
    }
  }

  /** Whether each required field, in order, is missing. */
  function MissingFlags(p: ProfileRow): (flags: seq<bool>)
    ensures |flags| == 6 && forall f :: flags[Position(f)] == IsMissing(p, f)
  {
    [IsMissing(p, FullName), IsMissing(p, Phone), IsMissing(p, DateOfBirth),
     IsMissing(p, BloodGroup), IsMissing(p, EmergencyContact), IsMissing(p, EmergencyPhone)]
  }

  /** The fields among the first `n` required ones whose flag is set, in order. */
  function Flagged(flags: seq<bool>, n: nat): (m: seq<Field>)
    requires n <= 6 && |flags| == 6
    ensures |m| <= n
  {
    if n == 0 then []
    else Flagged(flags, n - 1) + (if flags[n - 1] then [Required[n - 1]] else [])
  }

  /** The missing fields of a profile; all six when there is no profile row. */
  function MissingFields(profile: Option<ProfileRow>): seq<Field> {
    match profile
    case None => Required
    case Some(p) => Flagged(MissingFlags(p), 6)
  }

  /** The fields appear in the order of `Required`. */
  predicate InRequiredOrder(m: seq<Field>) {
    forall i, j :: 0 <= i < j < |m| ==> Position(m[i]) < Position(m[j])
  }

  /** Among the first `n` fields, a field is listed iff its flag is set. */
  lemma {:induction false} FlaggedMembers(flags: seq<bool>, n: nat)
    requires n <= 6 && |flags| == 6
    ensures forall f :: f in Flagged(flags, n) <==> Position(f) < n && flags[Position(f)]
  {
    if n > 0 {
      FlaggedMembers(flags, n - 1);
      assert Position(Required[n - 1]) == n - 1;
    }
  }

  /** The list keeps the order of the required fields. */
  lemma {:induction false} FlaggedOrdered(flags: seq<bool>, n: nat)
    requires n <= 6 && |flags| == 6
    ensures forall f :: f in Flagged(flags, n) ==> Position(f) < n
    ensures InRequiredOrder(Flagged(flags, n))
  {
    if n > 0 {
      FlaggedOrdered(flags, n - 1);
      var prev := Flagged(flags, n - 1);
      var f := Required[n - 1];
      assert Position(f) == n - 1;
      var m := Flagged(flags, n);
      if flags[n - 1] {
        assert m == prev + [f];
        forall i, j | 0 <= i < j < |m| ensures Position(m[i]) < Position(m[j]) {
          if j < |prev| {
            assert m[i] == prev[i] && m[j] == prev[j];
          } else {
            assert m[j] == f;
            assert m[i] == prev[i] && prev[i] in prev;
          }
        }
      } else {
        assert m == prev;
      }
    }
  }

  lemma RequiredOrdered()
    ensures InRequiredOrder(Required)
  {
    forall i | 0 <= i < |Required| ensures Position(Required[i]) == i {
    }
  }

  /** A field is reported missing iff its value is falsy or blank; the report keeps
      the order of the required fields; with no profile row all six are reported. */
  lemma MissingFieldsMeans(profile: Option<ProfileRow>)
    ensures profile.None? ==> MissingFields(profile) == Required
    ensures profile.Some? ==> forall f :: f in MissingFields(profile) <==> IsMissing(profile.value, f)
    ensures InRequiredOrder(MissingFields(profile))
  {
    if profile.Some? {
      var flags := MissingFlags(profile.value);
      FlaggedMembers(flags, 6);
      FlaggedOrdered(flags, 6);
    } else {
      RequiredOrdered();
    }
  }

  function Labels(fields: seq<Field>): (r: seq<string>)
    ensures |r| == |fields| && forall k :: 0 <= k < |fields| ==> r[k] == Label(fields[k])
  {
    if fields == [] then [] else [Label(fields[0])] + Labels(fields[1..])
  }

  /** The prompt's text: the labels of the first three fields, then how many more. */
  function PromptText(missing: seq<Field>): (text: string)
    ensures |missing| <= 3 ==> text == "Please update your profile with: " + Join(Labels(missing), ", ") + "."
    ensures |missing| > 3 ==>
      text == "Please update your profile with: " + Join(Labels(missing[..3]), ", ")
        + " and " + IntToString(|missing| - 3) + " more fields."
  {
    var shown := if |missing| <= 3 then missing else missing[..3];
    "Please update your profile with: " + Join(Labels(shown), ", ")
    + (if |missing| > 3 then " and " + IntToString(|missing| - 3) + " more fields" else "") + "."
  }

  /** The reply of the `profiles` lookup; `Threw` is an exception out of the client. */
  datatype ProfileReply = Found(row: ProfileRow) | NoRow | FetchFailed | Threw

  /** The profile row was fetched: auth has settled on a user not yet prompted and the
      lookup succeeded. */
  predicate Fetched(authLoading: bool, user: Option<string>, reply: ProfileReply, prompted: set<string>) {
    !authLoading && user.Some? && user.value !in prompted && (reply.Found? || reply.NoRow?)
  }

  class CompletionCheck {
    var isComplete: bool
    var missingFields: seq<Field>
    var checking: bool
    var hasShownNotification: bool
    /** `sessionStorage`'s `profile_notification_<id>` keys, by user id. */
    var promptedThisSession: set<string>

    constructor (prompted: set<string>)
      ensures isComplete && missingFields == [] && checking && !hasShownNotification
      ensures promptedThisSession == prompted
    {
      isComplete, missingFields, checking := true, [], true;
      hasShownNotification := false;
      promptedThisSession := prompted;
    }

    /** `checkProfileCompletion`. Returns the prompt's text when the prompt is shown. */
    method Check(authLoading: bool, user: Option<string>, reply: ProfileReply) returns (prompt: Option<string>)
      modifies this
      ensures !checking
      ensures isComplete <==> missingFields == []
      ensures authLoading || user.None? ==> isComplete && prompt.None? && promptedThisSession == old(promptedThisSession)
      ensures user.Some? && user.value in old(promptedThisSession) ==> isComplete && prompt.None?
      ensures reply.FetchFailed? || reply.Threw? ==> isComplete && prompt.None?
      ensures !authLoading && user.Some? && user.value !in old(promptedThisSession) && (reply.Found? || reply.NoRow?) ==>
        missingFields == MissingFields(if reply.Found? then Some(reply.row) else None)
      ensures prompt.Some? <==> Fetched(authLoading, user, reply, old(promptedThisSession)) && !isComplete && !old(hasShownNotification)
      ensures prompt.Some? ==> prompt.value == PromptText(missingFields) && hasShownNotification
      ensures prompt.Some? ==> promptedThisSession == old(promptedThisSession) + {user.value}
      ensures prompt.None? ==> promptedThisSession == old(promptedThisSession) && hasShownNotification == old(hasShownNotification)
    {
      if authLoading || user.None? {
        isComplete, missingFields, checking := true, [], false;
        return None;
      }
      if user.value in promptedThisSession {
        isComplete, missingFields, checking := true, [], false;
        return None;
      }
      if reply.FetchFailed? || reply.Threw? {
        isComplete, missingFields, checking := true, [], false;
        return None;
      }
      var missing: seq<Field> := [];
      if reply.Found? {
        var flags := MissingFlags(reply.row);
        var k := 0;
        while k < 6
          invariant 0 <= k <= 6
          invariant missing == Flagged(flags, k)
        {
          if flags[k] {
            missing := missing + [Required[k]];
          }
          k := k + 1;
        }
      } else {
        missing := Required;
      }
      isComplete, missingFields, checking := |missing| == 0, missing, false;
      prompt := None;
      if !isComplete && !hasShownNotification {
        hasShownNotification := true;
        promptedThisSession := promptedThisSession + {user.value};
        prompt := Some(PromptText(missing));
      }
    }
  }
}
