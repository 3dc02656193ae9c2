/** The profile editing page (`ProfileEdit`): its form fields, the save handler and
    the avatar's initials. */
module ProfileEdit {
  import opened Wrappers
  import opened Strings
  import opened Store

  /** The issues of the page's schema in the order it reports them: the full name's
      first, then the phone's. The optional fields accept any string. */
  function SchemaIssues(fullName: string, phone: string): (issues: seq<string>)
    ensures "Name must be at least 2 characters" in issues <==> |fullName| < 2
    ensures "Phone must be at least 10 digits" in issues <==> |phone| < 10
    ensures |fullName| < 2 ==> issues[0] == "Name must be at least 2 characters"
    ensures |fullName| >= 2 && |phone| < 10 ==> issues == ["Phone must be at least 10 digits"]
    ensures issues == [] <==> |fullName| >= 2 && |phone| >= 10
  {
    (if |fullName| < 2 then ["Name must be at least 2 characters"] else [])
    + (if |phone| < 10 then ["Phone must be at least 10 digits"] else [])
  }

  /** A notice the page shows. */
  datatype Toast = Toast(destructive: bool, title: string, description: string)

  /** `fullName.split(" ").map(n => n[0])`: the first character of every word; an empty
      word gives `undefined`, which `join("")` writes as nothing. */
  function FirstLetters(words: seq<string>): (r: string)
    ensures |r| <= |words|
  {
    if words == [] then ""
    else (if words[0] == "" then "" else [words[0][0]]) + FirstLetters(words[1..])
  }

  /** The avatar's fallback text. */
  function Initials(fullName: string): (r: string)
    ensures |r| <= |Split(fullName, ' ')|
    ensures forall k :: 0 <= k < |r| ==> !('a' <= r[k] <= 'z')
  {
    ToUpperString(FirstLetters(Split(fullName, ' ')))
  }

  function Heads(words: seq<string>): (r: string)
    requires forall k :: 0 <= k < |words| ==> words[k] != ""
    ensures |r| == |words| && forall k :: 0 <= k < |words| ==> r[k] == words[k][0]
  {
    if words == [] then "" else [words[0][0]] + Heads(words[1..])
  }

  lemma {:induction false} FirstLettersOfWords(words: seq<string>)
    requires forall k :: 0 <= k < |words| ==> words[k] != ""
    ensures FirstLetters(words) == Heads(words)
  {
    if words != [] {
      FirstLettersOfWords(words[1..]);
    }
  }

  /** For words separated by single spaces the initials are the upper-cased first
      letters of the words, one per word and in order. */
  lemma InitialsOfWords(words: seq<string>)
    requires |words| >= 1
    requires forall k :: 0 <= k < |words| ==> words[k] != "" && ' ' !in words[k]
    ensures var r := Initials(Join(words, " "));
      |r| == |words| && forall k :: 0 <= k < |words| ==> r[k] == ToUpper(words[k][0])
  {
    SplitJoin(words, ' ');
    FirstLettersOfWords(words);
  }

  /** The signed-in user as `getUser` reports it. */
  datatype AuthUser = AuthUser(email: Option<string>, metadataFullName: Option<string>)

  class ProfileForm {
    var isLoading: bool
    var isSaving: bool
    var fullName: string
    var email: string
    var phone: string
    var address: string
    var emergencyContact: string
    var emergencyPhone: string

    constructor ()
      ensures !isLoading && !isSaving
      ensures fullName == "" && email == "" && phone == "" && address == ""
      ensures emergencyContact == "" && emergencyPhone == ""
    {
      isLoading, isSaving := false, false;
      fullName, email, phone, address := "", "", "", "";
      emergencyContact, emergencyPhone := "", "";
    }

    /** `loadUserData`: the e-mail and the name come from the signed-in user, `""` when
        missing; without a user the form is left as it is. */
    method LoadUserData(user: Option<AuthUser>)
      modifies this`isLoading, this`email, this`fullName
      ensures !isLoading
      ensures user.Some? ==> email == StringOr(user.value.email, "") && fullName == StringOr(user.value.metadataFullName, "")
      ensures user.None? ==> email == old(email) && fullName == old(fullName)
    {
      isLoading := true;
      if user.Some? {
        email := StringOr(user.value.email, "");
        fullName := StringOr(user.value.metadataFullName, "");
      }
      isLoading := false;
    }

    method SetFullName(v: string)
      modifies this`fullName
      ensures fullName == v
    {
      fullName := v;
    }

    method SetPhone(v: string)
      modifies this`phone
      ensures phone == v
    {
      phone := v;
    }

    method SetAddress(v: string)
      modifies this`address
      ensures address == v
    {
      address := v;
    }

    method SetEmergencyContact(v: string)
      modifies this`emergencyContact
      ensures emergencyContact == v
    {
      emergencyContact := v;
    }

    method SetEmergencyPhone(v: string)
      modifies this`emergencyPhone
      ensures emergencyPhone == v
    {
      emergencyPhone := v;
    }

    /** `handleSave`. The schema is checked first; only when it passes is the full name
        (and nothing else) sent to `updateUser`, whose error is `updateError`. The result
        is what was sent, the notice shown and where the page navigates to. */
    method HandleSave(updateError: Option<Thrown>) returns (sent: Option<string>, toast: Toast, navigateTo: Option<string>)
      modifies this`isSaving
      ensures !isSaving
      ensures var issues := SchemaIssues(fullName, phone);
        && (sent.Some? <==> issues == [])
        && (sent.Some? ==> sent.value == fullName)
        && (issues != [] ==> toast == Toast(true, "Validation error", issues[0]))
      ensures SchemaIssues(fullName, phone) == [] && updateError.Some? ==> toast == Toast(true, "Error", "Failed to update profile. Please try again.")
      ensures navigateTo.Some? <==> SchemaIssues(fullName, phone) == [] && updateError.None?
      ensures navigateTo.Some? ==> navigateTo.value == "/profile" && toast == Toast(false, "Success", "Profile updated successfully")
    {
      isSaving := true;
      var issues := SchemaIssues(fullName, phone);
      if issues != [] {
        sent, navigateTo := None, None;
        toast := Toast(true, "Validation error", issues[0]);
      } else {
        sent := Some(fullName);
        if updateError.Some? {
          navigateTo := None;
          toast := Toast(true, "Error", "Failed to update profile. Please try again.");
        } else {
          navigateTo := Some("/profile");
          toast := Toast(false, "Success", "Profile updated successfully");
        }
      }
      isSaving := false;
    }
  }
}
