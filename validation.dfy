/** The input schemas of the application as predicates and parse functions, and the two
    text helpers `sanitizeText` and `safeEncodeURIComponent`. A schema that trims parses
    to the trimmed text; `.optional().or(z.literal(""))` also admits an absent value and
    the raw empty string. The e-mail, UUID and date-parsing checks of the schema library
    are parameters. */
module Validation {
  import opened Wrappers
  import opened Strings

  /** `[\d\s-]`: an ASCII digit, white space or a hyphen. */
  predicate PhoneChar(c: char) {
    IsDigit(c) || IsSpace(c) || c == '-'
  }

  predicate PhoneBody(u: string) {
    10 <= |u| <= 15 && forall k :: 0 <= k < |u| ==> PhoneChar(u[k])
  }

  /** `/^[+]?[\d\s-]{10,15}$/`: an optional plus sign, then 10 to 15 class characters. */
  predicate MatchesPhonePattern(t: string) {
    PhoneBody(t) || (|t| >= 1 && t[0] == '+' && PhoneBody(t[1..]))
  }

  /** `phoneSchema`. An absent value and the raw empty string are accepted as they are;
      any other string is trimmed and must match the pattern. */
  function ParsePhone(v: Option<string>): (r: Result<Option<string>>)
    ensures r.Ok? <==> v.None? || v == Some("") || MatchesPhonePattern(Trim(v.value))
    ensures r.Err? ==> r.msg == "Invalid phone number"
    ensures r.Ok? && v.Some? ==> r.value == Some(Trim(v.value))
  {
    match v
    case None => Ok(None)
    case Some(s) =>
      if MatchesPhonePattern(Trim(s)) then Ok(Some(Trim(s)))
      else if s == "" then Ok(Some(""))
      else Err("Invalid phone number")
  }

  /** A phone made of white space only is rejected: it trims to "", which the pattern
      refuses, and it is not the literal "". */
  lemma BlankPhoneRejected(s: string)
    requires s != "" && AllSpace(s)
    ensures ParsePhone(Some(s)).Err?
  {
    TrimEmptyIffAllSpace(s);
  }

  /** `nameSchema`: the trimmed name has 2 to 100 characters. */
  function ParseName(s: string): (r: Result<string>)
    ensures r.Ok? <==> 2 <= |Trim(s)| <= 100
    ensures r.Ok? ==> r.value == Trim(s)
    ensures |Trim(s)| < 2 ==> r == Err("Name must be at least 2 characters")
    ensures |Trim(s)| > 100 ==> r == Err("Name must be less than 100 characters")
  {
    var t := Trim(s);
    if |t| < 2 then Err("Name must be at least 2 characters")
    else if |t| > 100 then Err("Name must be less than 100 characters")
    else Ok(t)
  }

  /** `passwordSchema`: 6 to 128 characters, not trimmed. */
  function ParsePassword(s: string): (r: Result<string>)
    ensures r.Ok? <==> 6 <= |s| <= 128
    ensures r.Ok? ==> r.value == s
    ensures |s| < 6 ==> r == Err("Password must be at least 6 characters")
    ensures |s| > 128 ==> r == Err("Password must be less than 128 characters")
  {
    if |s| < 6 then Err("Password must be at least 6 characters")
    else if |s| > 128 then Err("Password must be less than 128 characters")
    else Ok(s)
  }

  /** `emailSchema`: trimmed, a well-formed address (`isEmail`), at most 255 characters. */
  function ParseEmail(s: string, isEmail: string -> bool): (r: Result<string>)
    ensures r.Ok? <==> isEmail(Trim(s)) && |Trim(s)| <= 255
    ensures r.Ok? ==> r.value == Trim(s)
  {
    var t := Trim(s);
    if !isEmail(t) then Err("Invalid email address")
    else if |t| > 255 then Err("Email must be less than 255 characters")
    else Ok(t)
  }

  /** An optional trimmed text of at most `max` characters, or the literal "". */
  function ParseOptionalText(v: Option<string>, max: nat, message: string): (r: Result<Option<string>>)
    ensures r.Ok? <==> v.None? || |Trim(v.value)| <= max
    ensures r.Err? ==> r.msg == message
    ensures r.Ok? && v.Some? ==> r.value == Some(Trim(v.value))
  {
    match v
    case None => Ok(None)
    case Some(s) => if |Trim(s)| <= max then Ok(Some(Trim(s))) else Err(message)
  }

  /** `reviewSchema` for a whole-number rating. */
  predicate ReviewValid(rating: int, review: Option<string>) {
    1 <= rating <= 5 && ParseOptionalText(review, 2000, "Review must be less than 2000 characters").Ok?
  }

  lemma ReviewValidMeans(rating: int, review: Option<string>)
    ensures ReviewValid(rating, review) <==> 1 <= rating <= 5 && (review.None? || |Trim(review.value)| <= 2000)
  {
  }

  predicate IsAppointmentType(t: string) {
    t == "consultation" || t == "follow-up" || t == "emergency"
  }

  /** The eight ABO/Rh groups, or "" for none given. */
  predicate IsBloodGroup(g: string) {
    g in {"A+", "A-", "B+", "B-", "AB+", "AB-", "O+", "O-", ""}
  }

  /** One alternative of the hour group `([01]?[0-9]|2[0-3])`. */
  predicate HourAlternative(h: string) {
    || (|h| == 1 && IsDigit(h[0]))
    || (|h| == 2 && (h[0] == '0' || h[0] == '1') && IsDigit(h[1]))
    || (|h| == 2 && h[0] == '2' && '0' <= h[1] <= '3')
  }

  /** `[0-5][0-9]`. */
  predicate SixtyAlternative(m: string) {
    |m| == 2 && '0' <= m[0] <= '5' && IsDigit(m[1])
  }

  /** `:[0-5][0-9](:[0-5][0-9])?$`. */
  predicate TimeTail(r: string) {
    || (|r| == 3 && r[0] == ':' && SixtyAlternative(r[1..3]))
    || (|r| == 6 && r[0] == ':' && SixtyAlternative(r[1..3]) && r[3] == ':' && SixtyAlternative(r[4..6]))
  }

  /** `/^([01]?[0-9]|2[0-3]):[0-5][0-9](:[0-5][0-9])?$/`: the hour takes one or two
      characters, the rest must follow. */
  predicate MatchesTimePattern(s: string) {
    || (|s| >= 1 && HourAlternative(s[..1]) && TimeTail(s[1..]))
    || (|s| >= 2 && HourAlternative(s[..2]) && TimeTail(s[2..]))
  }

  predicate AllDigits(s: string) {
    forall k :: 0 <= k < |s| ==> IsDigit(s[k])
  }

  function DigitsValue(s: string): (n: nat)
    requires AllDigits(s)
  {
    if s == [] then 0 else DigitsValue(s[..|s| - 1]) * 10 + (s[|s| - 1] as int - '0' as int)
  }

  /** A clock time: colon-separated hour (one or two digits, at most 23), minutes and
      optionally seconds (two digits each, at most 59). */
  predicate IsClockTime(s: string) {
    var p := Split(s, ':');
    && (|p| == 2 || |p| == 3)
    && 1 <= |p[0]| <= 2 && AllDigits(p[0]) && DigitsValue(p[0]) <= 23
    && |p[1]| == 2 && AllDigits(p[1]) && DigitsValue(p[1]) <= 59
    && (|p| == 3 ==> |p[2]| == 2 && AllDigits(p[2]) && DigitsValue(p[2]) <= 59)
  }

  lemma OneDigitValue(s: string)
    requires |s| == 1 && AllDigits(s)
    ensures DigitsValue(s) == s[0] as int - '0' as int
  {
    assert s[..0] == [];
  }

  lemma TwoDigitsValue(s: string)
    requires |s| == 2 && AllDigits(s)
    ensures DigitsValue(s) == (s[0] as int - '0' as int) * 10 + (s[1] as int - '0' as int)
  {
    OneDigitValue(s[..1]);
  }

  lemma HourMeaning(h: string)
    ensures HourAlternative(h) <==> 1 <= |h| <= 2 && AllDigits(h) && DigitsValue(h) <= 23
  {
    if |h| == 2 && AllDigits(h) {
      TwoDigitsValue(h);
    } else if |h| == 1 && AllDigits(h) {
      OneDigitValue(h);
    }
  }

  lemma SixtyMeaning(m: string)
    ensures SixtyAlternative(m) <==> |m| == 2 && AllDigits(m) && DigitsValue(m) <= 59
  {
    if |m| == 2 && AllDigits(m) {
      TwoDigitsValue(m);
    }
  }

  /** Hour then `:mm` matches the pattern. */
  lemma ShortTimeMatches(h: string, m: string)
    requires HourAlternative(h) && SixtyAlternative(m)
    ensures MatchesTimePattern(h + [':'] + m)
  {
    var s := h + [':'] + m;
    assert s[..|h|] == h;
    assert s[|h|..] == [':'] + m;
    assert ([':'] + m)[1..3] == m;
  }

  /** Hour then `:mm:ss` matches the pattern. */
  lemma LongTimeMatches(h: string, m: string, sec: string)
    requires HourAlternative(h) && SixtyAlternative(m) && SixtyAlternative(sec)
    ensures MatchesTimePattern(h + [':'] + (m + [':'] + sec))
  {
    var s := h + [':'] + (m + [':'] + sec);
    var r := [':'] + (m + [':'] + sec);
    assert s[..|h|] == h;
    assert s[|h|..] == r;
    assert r[1..3] == m && r[3] == ':' && r[4..6] == sec;
  }

  /** A clock time matches the pattern, the hour taking its one or two characters. */
  lemma ClockTimeMatches(s: string)
    requires IsClockTime(s)
    ensures MatchesTimePattern(s)
  {
    var p := Split(s, ':');
    JoinSplit(s, ':');
    HourMeaning(p[0]);
    SixtyMeaning(p[1]);
    if |p| == 2 {
      assert s == p[0] + [':'] + p[1];
      ShortTimeMatches(p[0], p[1]);
    } else {
      SixtyMeaning(p[2]);
      assert p[1..][1..] == p[2..];
      assert Join(p[2..], [':']) == p[2];
      assert Join(p[1..], [':']) == p[1] + [':'] + p[2];
      assert s == p[0] + [':'] + (p[1] + [':'] + p[2]);
      LongTimeMatches(p[0], p[1], p[2]);
    }
  }

  /** Hour then `:mm`. */
  lemma ShortTimeIsClockTime(h: string, m: string)
    requires HourAlternative(h) && SixtyAlternative(m)
    ensures IsClockTime(h + [':'] + m)
  {
    HourMeaning(h);
    SixtyMeaning(m);
    SplitAfter(h, m, ':');
    SplitNone(m, ':');
  }

  /** Hour then `:mm:ss`. */
  lemma LongTimeIsClockTime(h: string, m: string, sec: string)
    requires HourAlternative(h) && SixtyAlternative(m) && SixtyAlternative(sec)
    ensures IsClockTime(h + [':'] + (m + [':'] + sec))
  {
    HourMeaning(h);
    SixtyMeaning(m);
    SixtyMeaning(sec);
    SplitAfter(h, m + [':'] + sec, ':');
    SplitAfter(m, sec, ':');
    SplitNone(sec, ':');
  }

  lemma MatchIsClockTime(s: string)
    requires MatchesTimePattern(s)
    ensures IsClockTime(s)
  {
    var i := if |s| >= 1 && HourAlternative(s[..1]) && TimeTail(s[1..]) then 1 else 2;
    var h, r := s[..i], s[i..];
    assert s == h + r;
    var m := r[1..3];
    if |r| == 3 {
      assert r == [':'] + m;
      assert s == h + [':'] + m;
      ShortTimeIsClockTime(h, m);
    } else {
      var sec := r[4..6];
      assert r == [':'] + (m + [':'] + sec);
      assert s == h + [':'] + (m + [':'] + sec);
      LongTimeIsClockTime(h, m, sec);
    }
  }

  /** The time pattern accepts exactly the clock times. */
  lemma TimePatternMeansClockTime(s: string)
    ensures MatchesTimePattern(s) <==> IsClockTime(s)
  {
    if IsClockTime(s) { ClockTimeMatches(s); }
    if MatchesTimePattern(s) { MatchIsClockTime(s); }
  }

  /** The booking form's fields as the schema reads them. */
  datatype BookingFields = BookingFields(
    doctorId: string,
    hospitalId: string,
    appointmentDate: string,
    appointmentTime: string,
    appointmentType: string,
    specialInstructions: Option<string>)

  /** `bookingSchema`; `isUuid` and `parsesAsDate` stand for the UUID check and
      `!isNaN(Date.parse(val))`. */
  predicate BookingValid(b: BookingFields, isUuid: string -> bool, parsesAsDate: string -> bool) {
    && isUuid(b.doctorId) && isUuid(b.hospitalId)
    && parsesAsDate(b.appointmentDate)
    && MatchesTimePattern(b.appointmentTime)
    && IsAppointmentType(b.appointmentType)
    && ParseOptionalText(b.specialInstructions, 1000, "Instructions must be less than 1000 characters").Ok?
  }

  /** What `bookingSchema` accepts, with the time regex read as a clock time: two ids
      that are UUIDs, a date that parses, a time `H:MM` or `H:MM:SS` within the day, one
      of the three appointment types, and instructions of at most 1000 characters after
      trimming. */
  lemma BookingValidMeans(b: BookingFields, isUuid: string -> bool, parsesAsDate: string -> bool)
    ensures BookingValid(b, isUuid, parsesAsDate) <==>
      && isUuid(b.doctorId) && isUuid(b.hospitalId)
      && parsesAsDate(b.appointmentDate)
      && IsClockTime(b.appointmentTime)
      && IsAppointmentType(b.appointmentType)
      && (b.specialInstructions.None? || |Trim(b.specialInstructions.value)| <= 1000)
  {
    TimePatternMeansClockTime(b.appointmentTime);
  }

  /** The full profile form as the schema reads it. */
  datatype ProfileFields = ProfileFields(
    fullName: Option<string>,
    phone: Option<string>,
    address: Option<string>,
    bloodGroup: Option<string>,
    allergies: Option<string>,
    medicalHistory: Option<string>,
    emergencyContact: Option<string>,
    emergencyPhone: Option<string>,
    insuranceProvider: Option<string>,
    insuranceNumber: Option<string>)

  /** `profileSchema`: every field is optional; the emergency contact may also be "". */
  predicate ProfileValid(p: ProfileFields) {
    && (p.fullName.None? || ParseName(p.fullName.value).Ok?)
    && ParsePhone(p.phone).Ok?
    && ParseOptionalText(p.address, 500, "Address must be less than 500 characters").Ok?
    && (p.bloodGroup.None? || IsBloodGroup(p.bloodGroup.value))
    && ParseOptionalText(p.allergies, 1000, "Allergies must be less than 1000 characters").Ok?
    && ParseOptionalText(p.medicalHistory, 5000, "Medical history must be less than 5000 characters").Ok?
    && (p.emergencyContact.None? || p.emergencyContact == Some("") || ParseName(p.emergencyContact.value).Ok?)
    && ParsePhone(p.emergencyPhone).Ok?
    && ParseOptionalText(p.insuranceProvider, 200, "Provider name must be less than 200 characters").Ok?
    && ParseOptionalText(p.insuranceNumber, 100, "Policy number must be less than 100 characters").Ok?
  }

  /** What `profileSchema` accepts, field by field, after trimming: a name of 2-100
      characters, phones that are empty or match the pattern, free texts within their
      limits, one of the blood groups, and an emergency contact that is "" or a name. */
  lemma ProfileValidMeans(p: ProfileFields)
    ensures ProfileValid(p) <==>
      && (p.fullName.None? || 2 <= |Trim(p.fullName.value)| <= 100)
      && (p.phone.None? || p.phone == Some("") || MatchesPhonePattern(Trim(p.phone.value)))
      && (p.address.None? || |Trim(p.address.value)| <= 500)
      && (p.bloodGroup.None? || IsBloodGroup(p.bloodGroup.value))
      && (p.allergies.None? || |Trim(p.allergies.value)| <= 1000)
      && (p.medicalHistory.None? || |Trim(p.medicalHistory.value)| <= 5000)
      && (p.emergencyContact.None? || p.emergencyContact == Some("") || 2 <= |Trim(p.emergencyContact.value)| <= 100)
      && (p.emergencyPhone.None? || p.emergencyPhone == Some("") || MatchesPhonePattern(Trim(p.emergencyPhone.value)))
      && (p.insuranceProvider.None? || |Trim(p.insuranceProvider.value)| <= 200)
      && (p.insuranceNumber.None? || |Trim(p.insuranceNumber.value)| <= 100)
  {
  }

  /** An empty form is valid. */
  lemma EmptyProfileValid()
    ensures ProfileValid(ProfileFields(None, None, None, None, None, None, None, None, None, None))
  {
  }

  /** `safeEncodeURIComponent`: `encode` (standing for `encodeURIComponent`) is applied to
      at most the first 500 characters of the trimmed value. */
  function SafeEncodeURIComponent(value: string, encode: string -> string): (r: string)
    ensures var t := Take(Trim(value), 500);
      r == encode(t) && |t| <= 500 && t == Trim(value)[..|t|]
  {
    encode(Take(Trim(value), 500))
  }

  /** `sanitizeText`: angle brackets removed, then trimmed, then cut to 10000 characters. */
  function SanitizeText(input: string): (r: string)
    ensures |r| <= 10000
    ensures NoAngles(r)
    ensures var t := Trim(StripAngles(input));
      |r| == (if |t| <= 10000 then |t| else 10000) && r == t[..|r|]
  {
    var stripped := StripAngles(input);
    TrimKeepsNoAngles(stripped);
    TakeKeepsNoAngles(Trim(stripped), 10000);
    Take(Trim(stripped), 10000)
  }

  /** Text already within the limit, trimmed and without angle brackets is left alone. */
  lemma SanitizeKeepsCleanText(s: string)
    requires |s| <= 10000 && IsTrimmed(s)
    requires forall k :: 0 <= k < |s| ==> s[k] != '<' && s[k] != '>'
    ensures SanitizeText(s) == s
  {
    StripAnglesNoop(s);
    TrimOfTrimmed(s);
  }

  /** The brackets go before the trim, so white space they enclosed is trimmed away. */
  lemma BracketsStrippedBeforeTrim()
    ensures SanitizeText("< x >") == "x"
  {
    StripSpacedX();
    TrimSpacedX();
  }

  /** The bracket-free text of `"< x >"`. */
  lemma StripSpacedX()
    ensures StripAngles("< x >") == " x "
  {
    var s := "< x >";
    assert s[1..] == " x >";
    assert " x >"[1..] == "x >";
    assert "x >"[1..] == " >";
    assert " >"[1..] == ">";
    assert ">"[1..] == [];
  }

  /** `" x "` trims to `"x"`. */
  lemma TrimSpacedX()
    ensures Trim(" x ") == "x"
  {
    assert IsSpace(' ') && !IsSpace('x');
    var t := " x ";
    assert t[0] == ' ' && t[1..] == "x ";
    var u := "x ";
    assert u[0] == 'x';
    assert TrimStart(t) == u;
    assert u[|u| - 1] == ' ' && u[..|u| - 1] == "x";
    assert TrimEnd("x") == "x";
    assert TrimEnd(u) == "x";
  }

  /** Sanitising twice is sanitising once when the cleaned text is within the limit. */
  lemma SanitizeIdempotentWithinLimit(s: string)
    requires |Trim(StripAngles(s))| <= 10000
    ensures SanitizeText(SanitizeText(s)) == SanitizeText(s)
  {
    var r := SanitizeText(s);
    assert r == Trim(StripAngles(s));
    SanitizeKeepsCleanText(r);
  }
}
