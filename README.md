# MediQ booking core, modelled in Dafny

MediQ is a hospital-appointment application. Patients search doctors and hospitals, book
and pay for a consultation, and rate it afterwards. Doctors work through a live queue of
the day's patients. This project models the decision and transformation logic of the
application and proves what that logic promises:

- the payment-confirmation edge function (`verify-razorpay-payment`): authentication, the
  gateway secret, the hex-encoded HMAC signature check, the token fallback and the inserts
  of the confirmed appointment and the completed payment;
- the notification edge function (`send-notification`): the service-call and user
  authorisation decision, the per-channel preference defaults, one log row per delivery
  attempt, the title-cased heading and HTML escaping;
- the appointment life cycle: creation, cancellation, the doctor's status patch, and the
  buttons that gate transitions on the dashboard and the detail page;
- the booking form, the validators and sanitisers, review creation, the payment join, and
  the receipt's escaped values;
- profile editing and the profile-completeness check;
- search suggestions and the keyboard-driven suggestion box, the rating dialog, and voice
  search;
- the base64url decoding of the push server key, user roles, and the role-based route.

The database is a `Database` class (`store.dfy`) whose fields are the tables the core
writes. Each operation modifies only the fields it writes. Everything outside the
repository's code is an input of the operation that depends on it:

- replies of the database client, RPCs and `auth.getUser`;
- the HMAC-SHA256 digest, and `encodeURIComponent`;
- date formatting, the zod e-mail and uuid checks;
- the browser's speech-recognition and notification APIs.

Each React component or hook whose state is changed by handlers is a class whose fields are
that state. Each handler is a method. Navigation, toasts and callbacks are returned as
values. Pure helpers are functions with named results, and lemmas relate them to an
independent meaning: a round trip, a characterisation or an invariant.

The model follows the code as written; in particular:

- The confirmation handler performs no idempotency check, and every error it raises,
  `Unauthorized` included, answers HTTP 500.
- `useCreateAppointment` ignores the error of the token RPC and falls back to token 1. The
  confirmation handler aborts on that error instead.
- Cancelling and status updates write unconditionally. Transitions are gated only by the
  buttons the pages offer.
- The review sanitiser trims and truncates before it strips angle brackets, so `"< >"`
  becomes `" "` (`Reviews.SpaceInsideBracketsKept`).
- Enter in the suggestion box sends the untrimmed query to `onSearch`. Submitting the form
  sends the trimmed one.

## Model

| member | source | states |
|---|---|---|
| Strings.TrimIsInfix | src/lib/validation.ts:110-115 | `trim` returns the part of the string between its leading and its trailing white space, and everything dropped is white space. |
| Strings.TrimEmptyIffAllSpace | src/lib/validation.ts:29-34 | Trimming yields the empty string exactly when the string is all white space. |
| Strings.TrimIdempotent | src/lib/validation.ts:110-115 | Trimming twice equals trimming once. |
| Strings.Take | src/lib/validation.ts:105-107 | `slice(0, n)` is the prefix of length min(n, length). |
| Strings.StripAngles | src/lib/validation.ts:110-112 | `replace(/[<>]/g, "")` leaves no angle bracket and keeps every other character with its multiplicity. |
| Strings.StripAnglesConcat | src/lib/validation.ts:110-112 | Stripping a concatenation strips each part, so the kept characters stay in their order. |
| Strings.StripAnglesAppend | src/lib/validation.ts:110-112 | Appending a character appends it to the stripped text, unless it is an angle bracket. |
| Strings.StripAnglesNoop | src/lib/validation.ts:110-112 | Text without angle brackets is left unchanged. |
| Strings.SplitHead | src/pages/Booking.tsx:70 | `split(sep)[0]` is the longest separator-free prefix, and the character after it is the separator. |
| Strings.JoinSplit | supabase/functions/send-notification/index.ts:281 | Joining the parts of a split with the same separator restores the string. |
| Strings.SplitJoin | supabase/functions/send-notification/index.ts:281 | Splitting a join of separator-free parts restores the parts. |
| Strings.ToUpperString | src/pages/ProfileEdit.tsx:141 | Upper-casing keeps the length and maps every character through ASCII `toUpperCase`. |
| Strings.NatToString | supabase/functions/send-notification/index.ts:261 | `String(n)` of a non-negative number is digits without a leading zero, whose decimal value is n. |
| Strings.IntToString | supabase/functions/send-notification/index.ts:261 | `String(n)` is non-empty and made of digits, starts with a minus exactly for negative values, has no leading zero after the minus, and denotes n again. |
| HtmlEscape.EscapeHasNoMarkup | supabase/functions/send-notification/index.ts:296-305 | The escaped text holds no raw `<`, `>`, `"` or `'`. |
| HtmlEscape.EscapeIdentity | supabase/functions/send-notification/index.ts:296-305 | Text without the five special characters is unchanged. |
| HtmlEscape.EscapeChangesSpecials | supabase/functions/send-notification/index.ts:296-305 | Text containing a special character is changed. |
| HtmlEscape.EscapeAppend | src/components/payments/ReceiptModal.tsx:21-30 | Escaping distributes over concatenation. |
| HtmlEscape.UnescapeEscape | src/components/payments/ReceiptModal.tsx:21-30 | Decoding the five entities restores the original text, so nothing is lost. |
| HtmlEscape.EscapeInjective | src/components/payments/ReceiptModal.tsx:21-30 | Different texts escape differently. |
| Hex.ToBase16 | supabase/functions/verify-razorpay-payment/index.ts:62 | `toString(16)` is non-empty lower-case hexadecimal. |
| Hex.PadStart | supabase/functions/verify-razorpay-payment/index.ts:62 | `padStart` keeps the string as a suffix, fills the front with the pad character, and reaches the width. |
| Hex.ByteToHexDigits | supabase/functions/verify-razorpay-payment/index.ts:61-63 | Each byte renders as exactly two digits, high nibble first. |
| Hex.HexEncodeLength | supabase/functions/verify-razorpay-payment/index.ts:61-63 | The encoding is lower-case hex with two characters per byte. |
| Hex.HexEncodeAt | supabase/functions/verify-razorpay-payment/index.ts:61-63 | Characters 2i and 2i+1 are the nibbles of byte i. |
| Hex.HexRoundTrip | supabase/functions/verify-razorpay-payment/index.ts:61-63 | Decoding the encoding gives back the bytes. |
| Hex.HexEncodeInjective | supabase/functions/verify-razorpay-payment/index.ts:61-65 | Two digests render alike only when they are equal. |
| Store.ParseStatus | src/integrations/supabase/types.ts:28 | A status name parses to a status with that name, and to `Other` exactly for unknown names. |
| Store.ParseStatusName | src/integrations/supabase/types.ts:28 | Printing and parsing a known status round-trips. |
| Store.ThrownMessage | supabase/functions/verify-razorpay-payment/index.ts:160 | The message of an `Error`, or "Unknown error occurred" otherwise. |
| Store.WithStatus | src/hooks/useAppointments.tsx:108-115 | An update by id changes only that row's status and keeps the keys. |
| Store.WithStatusKeyed | src/hooks/useAppointments.tsx:108-115 | A status update keeps every row stored under its own id. |
| Store.WithStatusIdempotent | src/hooks/useAppointments.tsx:108-115 | Repeating the same status update changes nothing more. |
| Store.Database.constructor | src/integrations/supabase/types.ts:17-62 | The tables start empty. |
| Appointments.AppointmentsOfUser | src/hooks/useAppointments.tsx:21-38 | Throws "User ID is required" without a user id, and the query's error when it fails. Otherwise returns exactly the user's appointments. |
| Appointments.AppointmentById | src/hooks/useAppointments.tsx:40-57 | Throws without an id, with the query's own error when the query fails, and with the `.single()` error when no row matches; otherwise returns the row stored under that id. |
| Appointments.ScheduledRow | src/hooks/useAppointments.tsx:80-87 | The inserted row is `scheduled` and owned by the user. Its token is the RPC value, or 1 when that is null or 0. The other fields are copied from the input. |
| Appointments.CreateAppointment | src/hooks/useAppointments.tsx:63-93 | Without a user it throws and writes nothing. A failed insert writes nothing. Otherwise exactly the scheduled row is added, and it is then found by id and by user. |
| Appointments.CancelAppointment | src/hooks/useAppointments.tsx:104-115 | On success only the given row becomes `cancelled`, whatever its prior status. On error nothing changes. |
| DoctorQueue.QueueArguments | src/hooks/useDoctorQueue.tsx:5-16 | Throws "Doctor ID required" without an id. The date defaults to today. |
| DoctorQueue.DoctorByEmail | src/hooks/useDoctorQueue.tsx:58-73 | Throws without an e-mail, and with the query's own error when the query fails. Otherwise it returns null exactly when no doctor has the e-mail, and an error exactly when `maybeSingle` finds several; otherwise it returns a doctor with that e-mail. |
| DoctorQueue.BuildStatusPatch | src/hooks/useDoctorQueue.tsx:37-39 | The patch always holds the status. It holds the follow-up date and the notes exactly when they are truthy. |
| DoctorQueue.ApplyPatch | src/hooks/useDoctorQueue.tsx:41-44 | Writes the patched columns and keeps every other column. |
| DoctorQueue.ApplyPatchIdempotent | src/hooks/useDoctorQueue.tsx:41-44 | Applying a patch twice equals applying it once. |
| DoctorQueue.StatusOnlyPatch | src/hooks/useDoctorQueue.tsx:37-44 | A patch without date or notes changes only the status. |
| DoctorQueue.UpdateConsultationStatus | src/hooks/useDoctorQueue.tsx:26-47 | On success only the row with the id is patched, without any check of its current status. On error nothing changes. |
| DoctorDashboard.ActionFor | src/pages/DoctorDashboard.tsx:136-151 | Start exactly for scheduled or confirmed, Complete exactly for in consultation, no action otherwise. |
| DoctorDashboard.ViewItem | src/pages/DoctorDashboard.tsx:102-135 | The priority badge shows exactly for token type `priority`. The patient name falls back to "Unknown". |
| DoctorDashboard.ViewQueue | src/pages/DoctorDashboard.tsx:86-101 | Loading, the empty state, or one entry per queue item in order. |
| DoctorDashboard.Dashboard.constructor | src/pages/DoctorDashboard.tsx:35-37 | No dialog, empty follow-up date and notes. |
| DoctorDashboard.Dashboard.OpenComplete | src/pages/DoctorDashboard.tsx:147 | Selects the appointment for the completion dialog. |
| DoctorDashboard.Dashboard.CloseDialog | src/pages/DoctorDashboard.tsx:162 | Clears the selection. |
| DoctorDashboard.Dashboard.SetFollowUpDate | src/pages/DoctorDashboard.tsx:182 | Sets the follow-up date. |
| DoctorDashboard.Dashboard.SetConsultationNotes | src/pages/DoctorDashboard.tsx:172 | Sets the notes. |
| DoctorDashboard.Dashboard.HandleStart | src/pages/DoctorDashboard.tsx:39-41 | Requests `in_consultation` for that appointment only. |
| DoctorDashboard.Dashboard.HandleComplete | src/pages/DoctorDashboard.tsx:43-60 | Does nothing without a selection. Otherwise it requests `completed` and passes the date and notes only when non-empty. After success the selection, date and notes are reset. |
| AppointmentDetail.ShouldFetch | src/pages/AppointmentDetail.tsx:48-52 | Fetches exactly when a user is signed in and the route id is non-empty. |
| AppointmentDetail.CanCancel | src/pages/AppointmentDetail.tsx:315 | Cancel is offered exactly for scheduled or confirmed, never for any other status. |
| AppointmentDetail.DetailPage.constructor | src/pages/AppointmentDetail.tsx:45-46 | Starts loading, not cancelling, nothing fetched, so it renders "Loading...". |
| AppointmentDetail.DetailPage.Render | src/pages/AppointmentDetail.tsx:145-192 | Loading, or "not found" unless the appointment, doctor and hospital are all loaded. The token and queue position show only when truthy, and what shows is the appointment's own `token_number` and `queue_position`. Cancel is offered exactly for scheduled or confirmed. |
| AppointmentDetail.DetailPage.FetchDetails | src/pages/AppointmentDetail.tsx:54-92 | Loading ends. Details are complete exactly when all three fetches found their row. |
| AppointmentDetail.DetailPage.LoadDetails | src/pages/AppointmentDetail.tsx:48-52 | Fetches exactly when the guard holds. Otherwise the page is unchanged and renders as before. |
| AppointmentDetail.OpenWithoutIds | src/pages/AppointmentDetail.tsx:45-52 | A new page without a user or an id stays on "Loading...". |
| AppointmentDetail.DetailPage.HandleCancel | src/pages/AppointmentDetail.tsx:94-119 | On success the row becomes `cancelled` and the page goes to /appointments. On error nothing changes. The cancelling flag is false afterwards on both paths. |
| AppointmentDetail.LoadedPageOffersCancel | src/pages/AppointmentDetail.tsx:315 | A fully loaded page shows details and offers cancel exactly for scheduled or confirmed. |
| Booking.DatePart | src/pages/Booking.tsx:70 | The part of the ISO string before the first 'T'. |
| Booking.BookingForm.constructor | src/pages/Booking.tsx:24-27 | No date or time, type `consultation`, no instructions. |
| Booking.BookingForm.SelectDate | src/pages/Booking.tsx:141 | Sets the date. |
| Booking.BookingForm.SelectSlot | src/pages/Booking.tsx:165-171 | A booked slot leaves the time unchanged. A free slot sets the time to its slot time. This is one step of `LastFreeTime`. |
| Booking.BookingForm.SelectType | src/pages/Booking.tsx:187 | Sets the appointment type. |
| Booking.BookingForm.SetInstructions | src/pages/Booking.tsx:213 | Sets the instructions. |
| Booking.BookingForm.ProceedDisabled | src/pages/Booking.tsx:231 | The proceed button is enabled exactly when a date and a time are chosen. |
| Booking.BookingForm.HandleBooking | src/pages/Booking.tsx:46-78 | Redirects to /auth exactly without a user, doctor or hospital. Otherwise it reports incomplete information exactly when the proceed button is disabled. Otherwise the booking data carries the doctor's fee, the hospital id and the date part. |
| Booking.OnlyFreeSlotsSelected | src/pages/Booking.tsx:170-171 | After any sequence of slot clicks, the selected time is the initial one or that of a free slot that was clicked. |
| PaymentVerification.FirstBar | supabase/functions/verify-razorpay-payment/index.ts:47 | In the signed message, the order id is followed by the first bar. |
| PaymentVerification.SignedMessageInjective | supabase/functions/verify-razorpay-payment/index.ts:47 | The order id, a bar and the payment id determine both ids when the order id has no bar. |
| PaymentVerification.ExpectedSignature | supabase/functions/verify-razorpay-payment/index.ts:47-63 | Lower-case hex of twice the digest length that decodes to the HMAC of the signed message. |
| PaymentVerification.MatchingSignatureIsDigest | supabase/functions/verify-razorpay-payment/index.ts:65-68 | A matching signature is the hex of the digest. |
| PaymentVerification.MalformedSignatureRejected | supabase/functions/verify-razorpay-payment/index.ts:65-68 | An absent or non-hex signature never matches. |
| PaymentVerification.TokenOrOne | supabase/functions/verify-razorpay-payment/index.ts:73-84 | The RPC token, or 1 when it is null or 0, and never 0. |
| PaymentVerification.ConfirmedRow | supabase/functions/verify-razorpay-payment/index.ts:87-106 | The inserted appointment is `confirmed`, owned by the caller, and copies the booking fields. |
| PaymentVerification.CompletedPayment | supabase/functions/verify-razorpay-payment/index.ts:116-135 | The amount is the fee or 0, with INR, `completed`, `razorpay`, and the gateway ids and signature. |
| PaymentVerification.VerifyPayment | supabase/functions/verify-razorpay-payment/index.ts:10-165 | OPTIONS answers the preflight. A missing header or user, a missing secret, or a signature that does not match each answer 500 and write nothing. An RPC error aborts before the insert. On success exactly the confirmed appointment is added, then the completed payment unless its insert fails; the notice never changes the success response. |
| PaymentVerification.NoticeBodyAsWritten | supabase/functions/verify-razorpay-payment/index.ts:138-145 | The notice body carries exactly the keys `userId`, `type` and `appointmentId`. |
| PaymentVerification.NoticeRefusedAsWritten | supabase/functions/verify-razorpay-payment/index.ts:138-145 | The notification function reads no `user_id` from that body, so it refuses the user's call. |
| PaymentVerification.NoticeBody | supabase/functions/send-notification/index.ts:40-47 | The corrected body carries `user_id`, `type` and `appointment_id`. |
| PaymentVerification.NoticeAccepted | supabase/functions/send-notification/index.ts:84-90 | With the corrected body, the caller's own notice is authorised as a user call. |
| SendNotification.RequestUserId | supabase/functions/send-notification/index.ts:40-47 | The body's `user_id`, present exactly when the key is. |
| SendNotification.Authorize | supabase/functions/send-notification/index.ts:53-93 | A service call exactly when the secret matches. A user call exactly when the token is valid and its user equals `user_id`. Otherwise 401 for a missing header or an invalid token, and 403 for another user. |
| SendNotification.EmailEnabled | supabase/functions/send-notification/index.ts:108-119 | True without preferences, otherwise the stored flag. |
| SendNotification.PushEnabled | supabase/functions/send-notification/index.ts:178 | True without preferences, otherwise the stored flag. |
| SendNotification.EmailLog | supabase/functions/send-notification/index.ts:123-175 | One e-mail row, `sent` or `failed` with "Email delivery failed". |
| SendNotification.PushRecords | supabase/functions/send-notification/index.ts:179-208 | One `push` row and one result per subscription. |
| SendNotification.Capitalize | supabase/functions/send-notification/index.ts:281 | Upper-cases the first character and keeps the rest. |
| SendNotification.CapitalizeAll | supabase/functions/send-notification/index.ts:281 | Capitalises every word, in order. |
| SendNotification.HeadingAt | supabase/functions/send-notification/index.ts:281 | The heading has the type's length. Each `_` becomes a space, the character after a `_` or at the start is upper-cased, and the others are kept. |
| SendNotification.RowsFor | supabase/functions/send-notification/index.ts:255-261 | Each row is one of the listed lines and shows that line's value. |
| SendNotification.RowsForComplete | supabase/functions/send-notification/index.ts:255-261 | Every listed line with a truthy field has a row. |
| SendNotification.RowsForOrdered | supabase/functions/send-notification/index.ts:255-261 | Rows keep the order of the lines. |
| SendNotification.DetailRows | supabase/functions/send-notification/index.ts:250-264 | At most seven rows: Patient, Doctor, Hospital, Date, Time, Type and Token Number, in that order, each at most once. A line is present exactly when its field is truthy. It shows the escaped field, the date as `toLocaleDateString` gives it, and the token after `#`. |
| SendNotification.EmailTemplate | supabase/functions/send-notification/index.ts:229-293 | The heading and message are escaped. There are no rows without details, and the detail rows when details are given. |
| SendNotification.ShownSafe | supabase/functions/send-notification/index.ts:255-261 | No line's value contains raw markup characters. |
| SendNotification.EmailTemplateSafe | supabase/functions/send-notification/index.ts:229-293 | No interpolated value of the e-mail contains raw markup characters. |
| SendNotification.ExpectedLogs | supabase/functions/send-notification/index.ts:120-208 | One e-mail row when e-mail is wanted, then one push row per subscription when push is enabled. |
| SendNotification.ExpectedResults | supabase/functions/send-notification/index.ts:120-208 | One result entry per log row, on the same channel. |
| SendNotification.DisabledChannelsWriteNothing | supabase/functions/send-notification/index.ts:119 | With both channels disabled, no log row is written. |
| SendNotification.NoPreferencesMeansAllChannels | supabase/functions/send-notification/index.ts:108-119 | Without preferences and with a recipient, one e-mail row plus one per subscription. |
| SendNotification.Deliver | supabase/functions/send-notification/index.ts:119-208 | Appends exactly the expected log rows and returns the expected results. |
| SendNotification.HandleNotification | supabase/functions/send-notification/index.ts:26-226 | OPTIONS is a preflight. A rejected call writes nothing. A default preferences row is inserted when none exists. Delivery appends the expected rows. A bad body answers 500. |
| Validation.ParseEmail | src/lib/validation.ts:5-9 | Accepted exactly when the trimmed text is an e-mail of at most 255 characters. |
| Validation.ParsePhone | src/lib/validation.ts:11-16 | Accepted exactly when absent, empty, or, after trimming, an optional `+` followed by 10-15 digits, spaces or dashes. |
| Validation.BlankPhoneRejected | src/lib/validation.ts:11-16 | A non-empty white-space phone is rejected: it is trimmed to "" before the pattern. |
| Validation.ParseName | src/lib/validation.ts:18-22 | Valid exactly when the trimmed length is 2 to 100, with each bound's message. |
| Validation.ParsePassword | src/lib/validation.ts:24-27 | Valid exactly when the length is 6 to 128, with each bound's message. |
| Validation.ParseOptionalText | src/lib/validation.ts:29-34 | An optional trimmed text is valid exactly when absent or within its maximum. |
| Validation.ReviewValidMeans | src/lib/validation.ts:36-47 | Valid exactly when the rating is 1 to 5 and the trimmed review has at most 2000 characters. |
| Validation.HourMeaning | src/lib/validation.ts:55-59 | The hour alternative matches exactly the one- or two-digit values 0-23. |
| Validation.SixtyMeaning | src/lib/validation.ts:55-59 | The minute and second alternative matches exactly the two-digit values 00-59. |
| Validation.ClockTimeMatches | src/lib/validation.ts:55-59 | Every clock time matches the pattern. |
| Validation.MatchIsClockTime | src/lib/validation.ts:55-59 | Everything the pattern matches is a clock time. |
| Validation.ShortTimeIsClockTime | src/lib/validation.ts:55-59 | `H:MM` is a clock time. |
| Validation.LongTimeIsClockTime | src/lib/validation.ts:55-59 | `H:MM:SS` is a clock time. |
| Validation.TimePatternMeansClockTime | src/lib/validation.ts:55-59 | A time is accepted exactly when it is hour 0-23, a colon, minutes 00-59, and optionally a colon and seconds 00-59. |
| Validation.BookingValidMeans | src/lib/validation.ts:49-62 | A booking is accepted exactly when both ids are UUIDs, the date parses, the time is a clock time within the day, the type is one of the three, and the trimmed instructions have at most 1000 characters. |
| Validation.ProfileValidMeans | src/lib/validation.ts:64-102 | A profile is accepted exactly when every present field meets its own rule after trimming: name length, phone pattern, text limits, blood group, and an emergency contact that is "" or a name. |
| Validation.EmptyProfileValid | src/lib/validation.ts:64-102 | A profile with every field absent is valid. |
| Validation.SafeEncodeURIComponent | src/lib/validation.ts:105-107 | Encodes at most the first 500 characters of the trimmed input. |
| Validation.SanitizeText | src/lib/validation.ts:110-115 | The result is the input with its angle brackets removed, then trimmed, then cut to its first 10000 characters; so it has no angle brackets and at most 10000 characters. |
| Validation.BracketsStrippedBeforeTrim | src/lib/validation.ts:110-115 | Brackets are removed before trimming, so the white space they enclosed is trimmed: `"< x >"` becomes `"x"`. |
| Validation.SanitizeKeepsCleanText | src/lib/validation.ts:110-115 | Clean, trimmed text within the limit is unchanged. |
| Validation.SanitizeIdempotentWithinLimit | src/lib/validation.ts:110-115 | Sanitising twice equals sanitising once when the cleaned text is within the limit. |
| Reviews.Matching | src/hooks/useReviews.tsx:21-59 | Exactly the public fields of the reviews of the doctor or hospital. |
| Reviews.ReviewsOf | src/hooks/useReviews.tsx:21-59 | Throws without an id, and the query's error when it fails. Otherwise returns the matching reviews. |
| Reviews.SanitizeReview | src/hooks/useReviews.tsx:80-83 | A present review is trimmed, cut to 2000 characters and stripped of angle brackets; the result is null exactly when that text is empty, and that text otherwise. An absent review gives null. |
| Reviews.BlankReviewIsNull | src/hooks/useReviews.tsx:80-91 | A blank review is stored as null. |
| Reviews.SpaceInsideBracketsKept | src/hooks/useReviews.tsx:80-83 | `"< >"` is stored as `" "`, because brackets are stripped after trimming. |
| Reviews.CleanReviewKept | src/hooks/useReviews.tsx:80-91 | A clean, trimmed review within the limit is stored unchanged. |
| Reviews.ReviewRow | src/hooks/useReviews.tsx:87-93 | The row is owned by the user, keeps the rating, and holds the sanitised review. |
| Reviews.InvalidatedKey | src/hooks/useReviews.tsx:100-103 | The doctor key exactly when a doctor id was given, else the hospital key. |
| Reviews.CreateReview | src/hooks/useReviews.tsx:65-98 | Throws without a user, or for a rating outside 1-5, and writes nothing then. Otherwise exactly the row is appended. |
| Payments.Distinct | src/hooks/usePayments.tsx:54 | The same ids without duplicates. |
| Payments.AppointmentIds | src/hooks/usePayments.tsx:54 | The payments' appointment ids, in order. |
| Payments.AppointmentQueryIds | src/hooks/usePayments.tsx:54 | The queried ids are exactly the payments' appointment ids, each once. |
| Payments.DoctorIds | src/hooks/usePayments.tsx:65 | Each doctor id of the appointments, exactly once. |
| Payments.HospitalIds | src/hooks/usePayments.tsx:66 | Each hospital id of the appointments, exactly once. |
| Payments.FindAppointment | src/hooks/usePayments.tsx:79 | Found exactly when some row has the id, and then it is the first such row. |
| Payments.FindById | src/hooks/usePayments.tsx:80-81 | The doctor or hospital lookup: found exactly when some row has the id, and then it is such a row. |
| Payments.Summary | src/hooks/usePayments.tsx:85-92 | The appointment's fields, with its doctor and hospital attached exactly when found. |
| Payments.Enrich | src/hooks/usePayments.tsx:78-94 | The payment is unchanged. The appointment is attached exactly when one has its id. |
| Payments.EnrichAll | src/hooks/usePayments.tsx:78-94 | Same length and order as the payments. |
| Payments.RowsOr | src/hooks/usePayments.tsx:74-75 | The fetched rows, or none on error. |
| Payments.PaymentsOf | src/hooks/usePayments.tsx:37-99 | An empty list without a user or payments. An error when a fetch fails. Otherwise the enriched payments in order. |
| Payments.PaymentById | src/hooks/usePayments.tsx:102-149 | Null without an id or a row. Otherwise the enriched payment, whose appointment is undefined when missing. |
| Payments.EnrichJoinsQueried | src/hooks/usePayments.tsx:65-81 | An attached doctor or hospital has an id from the deduplicated id lists. |
| Payments.JoinedRowsWereQueried | src/hooks/usePayments.tsx:54-81 | Every joined appointment, doctor and hospital of a listed payment has an id that the queries asked for. |
| Payments.ListAgreesWithLookup | src/hooks/usePayments.tsx:78-94 | The list entry of a payment equals its enrichment. |
| Receipt.SafeString | src/components/payments/ReceiptModal.tsx:33-35 | The escaped value, or the escaped fallback for an empty or absent value. |
| Receipt.NotApplicableIsPlain | src/components/payments/ReceiptModal.tsx:33-35 | "N/A" escapes to itself. |
| Receipt.TransactionId | src/components/payments/ReceiptModal.tsx:44 | The gateway payment id, else the first 8 characters of the payment id. |
| Receipt.AppointmentDay | src/components/payments/ReceiptModal.tsx:50-52 | The escaped formatted day, or "N/A". |
| Receipt.TokenLabel | src/components/payments/ReceiptModal.tsx:53-55 | "#" and the token when truthy, else "#N/A". |
| Receipt.PrefixedNoMarkup | src/components/payments/ReceiptModal.tsx:53-55 | Joining safe texts stays safe. |
| Receipt.BuildSafeValues | src/components/payments/ReceiptModal.tsx:43-57 | Each value is escaped or falls back as the source says. The doctor's name, the specialization and the hospital's name are escaped when present and non-empty, and "N/A" otherwise, in every appointment case. |
| Receipt.SafeValuesHaveNoMarkup | src/components/payments/ReceiptModal.tsx:43-57 | None of the values holds a raw markup character. |
| Receipt.ReceiptPieces | src/components/payments/ReceiptModal.tsx:204-374 | The success badge appears exactly when the payment is completed. Every interpolated piece is one of the safe values. |
| Receipt.PiecesOfSafeValuesSafe | src/components/payments/ReceiptModal.tsx:204-374 | Every interpolated piece of a page built from safe values is free of markup. |
| Receipt.RenderAppend | src/components/payments/ReceiptModal.tsx:204-374 | Writing out two runs of pieces is writing out each in turn. |
| Receipt.RenderFramed | src/components/payments/ReceiptModal.tsx:204-374 | A run between two fixed pieces is written between their texts. |
| Receipt.ReceiptHtml | src/components/payments/ReceiptModal.tsx:204-374 | The page is the doctype head, then the body, then the footer that closes the document; what the body shows is stated by `Receipt.ReceiptPieces` and `Receipt.ReceiptPageSafe`. |
| Receipt.ReceiptPageSafe | src/components/payments/ReceiptModal.tsx:64 | The generated receipt interpolates no raw markup, and shows the badge exactly for completed payments. |
| Receipt.Modal | src/components/payments/ReceiptModal.tsx:40 | A null payment renders nothing; otherwise the receipt of the safe values. |
| ProfileEdit.SchemaIssues | src/pages/ProfileEdit.tsx:15-21 | A name shorter than 2 and a phone shorter than 10 each give their message, the name's first. There is no issue otherwise. |
| ProfileEdit.Initials | src/pages/ProfileEdit.tsx:141 | At most one letter per space-separated word, none of them lower-case. |
| ProfileEdit.FirstLettersOfWords | src/pages/ProfileEdit.tsx:141 | `map(n => n[0]).join("")` is the first letter of each word. |
| ProfileEdit.InitialsOfWords | src/pages/ProfileEdit.tsx:141 | The initials of space-separated words are their upper-cased first letters. |
| ProfileEdit.ProfileForm.constructor | src/pages/ProfileEdit.tsx:26-35 | Empty fields; not loading or saving. |
| ProfileEdit.ProfileForm.LoadUserData | src/pages/ProfileEdit.tsx:45-59 | Copies the user's e-mail and metadata name, and loading ends. |
| ProfileEdit.ProfileForm.SetFullName | src/pages/ProfileEdit.tsx:165 | Sets the name. |
| ProfileEdit.ProfileForm.SetPhone | src/pages/ProfileEdit.tsx:185 | Sets the phone. |
| ProfileEdit.ProfileForm.SetAddress | src/pages/ProfileEdit.tsx:194 | Sets the address. |
| ProfileEdit.ProfileForm.SetEmergencyContact | src/pages/ProfileEdit.tsx:216 | Sets the emergency contact. |
| ProfileEdit.ProfileForm.SetEmergencyPhone | src/pages/ProfileEdit.tsx:226 | Sets the emergency phone. |
| ProfileEdit.ProfileForm.HandleSave | src/pages/ProfileEdit.tsx:61-105 | A validation failure shows the first message and sends nothing. Otherwise only the full name is sent, and the page goes to /profile exactly on success. Saving is false afterwards on every path. |
| ProfileCompletion.Position | src/hooks/useProfileCompletion.tsx:51-58 | Each field's place in the required order. |
| ProfileCompletion.IsMissingMeansBlank | src/hooks/useProfileCompletion.tsx:65 | Missing exactly when absent or blank after trimming. |
| ProfileCompletion.MissingFlags | src/hooks/useProfileCompletion.tsx:62-68 | One flag per required field, true exactly when it is missing. |
| ProfileCompletion.FlaggedMembers | src/hooks/useProfileCompletion.tsx:62-68 | The collected fields are exactly the flagged ones. |
| ProfileCompletion.FlaggedOrdered | src/hooks/useProfileCompletion.tsx:62-68 | The collected fields keep the required order. |
| ProfileCompletion.RequiredOrdered | src/hooks/useProfileCompletion.tsx:51-58 | The six required fields are in order. |
| ProfileCompletion.MissingFieldsMeans | src/hooks/useProfileCompletion.tsx:51-72 | Without a row, all six are missing. Otherwise exactly the missing fields are listed, in the required order. |
| ProfileCompletion.Labels | src/hooks/useProfileCompletion.tsx:51-58 | The label of each field, in order. |
| ProfileCompletion.PromptText | src/hooks/useProfileCompletion.tsx:89 | Lists the labels of up to three missing fields, then "and n more fields" for the rest. |
| ProfileCompletion.CompletionCheck.constructor | src/hooks/useProfileCompletion.tsx:17-22 | Complete, with nothing missing, while checking. |
| ProfileCompletion.CompletionCheck.Check | src/hooks/useProfileCompletion.tsx:24-105 | Complete while auth loads, without a user, or on any error. Otherwise it lists the missing fields, and is complete exactly when none are. The prompt is at most once per user per session. |
| SearchSuggestions.DoctorSearch | src/hooks/useSearchSuggestions.tsx:53-57 | At most 5 doctors, from offset 0. |
| SearchSuggestions.HospitalSearch | src/hooks/useSearchSuggestions.tsx:70-74 | At most 4 hospitals, from offset 0. |
| SearchSuggestions.ShouldFetch | src/hooks/useSearchSuggestions.tsx:47 | Fetches exactly when enabled with at least two trimmed characters, so never for a shorter query. |
| SearchSuggestions.BlankQueryNeverFetches | src/hooks/useSearchSuggestions.tsx:47 | A blank query never fetches. |
| SearchSuggestions.Doctors | src/hooks/useSearchSuggestions.tsx:85-92 | One doctor suggestion per row, in order. |
| SearchSuggestions.Hospitals | src/hooks/useSearchSuggestions.tsx:94-100 | One hospital suggestion per row, in order. |
| SearchSuggestions.Merge | src/hooks/useSearchSuggestions.tsx:84-104 | Doctors then hospitals, cut to at most 8. |
| SearchSuggestions.DoctorsFirst | src/hooks/useSearchSuggestions.tsx:103 | No hospital precedes a doctor. |
| SearchSuggestions.WithinLimitsKeepsDoctors | src/hooks/useSearchSuggestions.tsx:103 | Within the request limits, all doctors are kept, first and in order, and at most one hospital is cut. |
| SearchSuggestions.SuggestionStatus | src/hooks/useSearchSuggestions.tsx:106-114 | Loading only while fetching. Empty exactly when fetching, loaded and without suggestions. |
| SearchBox.SuggestionPath | src/components/search/SearchSuggestions.tsx:58-62 | /doctor/ or /hospital/ followed by the id. |
| SearchBox.StepStaysInRange | src/components/search/SearchSuggestions.tsx:71-75 | An arrow key lands in range, and wraps at either end. |
| SearchBox.DownThenUp | src/components/search/SearchSuggestions.tsx:71-75 | Down then up returns to the index when it did not wrap. |
| SearchBox.SearchBoxState.constructor | src/components/search/SearchSuggestions.tsx:21-23 | Empty query, closed, nothing highlighted. |
| SearchBox.SearchBoxState.SuggestionsChanged | src/components/search/SearchSuggestions.tsx:45-47 | New suggestions reset the highlight. |
| SearchBox.SearchBoxState.HandleInputChange | src/components/search/SearchSuggestions.tsx:49-53 | Open exactly when the trimmed input has at least two characters. |
| SearchBox.SearchBoxState.HandleFocus | src/components/search/SearchSuggestions.tsx:122 | Focus reopens for a query of two or more trimmed characters. |
| SearchBox.SearchBoxState.HandleSuggestionClick | src/components/search/SearchSuggestions.tsx:55-63 | Closes, clears the query and opens the suggestion's page. |
| SearchBox.SearchBoxState.HandleMouseEnter | src/components/search/SearchSuggestions.tsx:174 | Hovering highlights that suggestion. |
| SearchBox.SearchBoxState.HandleKeyDown | src/components/search/SearchSuggestions.tsx:65-91 | No effect when closed or empty. Arrows move with wrap-around. Enter selects the highlighted suggestion or searches. Escape closes. |
| SearchBox.SearchBoxState.ShowDropdown | src/components/search/SearchSuggestions.tsx:109 | Shown only while open. Once open, shown exactly while loading, empty, or with suggestions. |
| SearchBox.SearchBoxState.HandleClear | src/components/search/SearchSuggestions.tsx:93-97 | Clears the query and closes. |
| SearchBox.SearchBoxState.HandleClickOutside | src/components/search/SearchSuggestions.tsx:33-42 | Closes. |
| SearchBox.SearchBoxState.HandleSearchSubmit | src/components/search/SearchSuggestions.tsx:99-107 | Nothing for a blank query. Otherwise the trimmed query goes to `onSearch` or the search page, and the dropdown closes. |
| RatingDialog.RatingLabel | src/components/ratings/RatingDialog.tsx:86-93 | Ratings 1 to 5 read Poor, Fair, Good, Very Good and Excellent. Any other rating has no label. |
| RatingDialog.LabelShownOnlyForStars | src/components/ratings/RatingDialog.tsx:86-93 | A label exists exactly for ratings 1 to 5. |
| RatingDialog.RatingState.constructor | src/components/ratings/RatingDialog.tsx:30-32 | No rating, no hover, empty review. |
| RatingDialog.RatingState.DisplayRating | src/components/ratings/RatingDialog.tsx:48 | The hovered value when non-zero, else the rating. |
| RatingDialog.RatingState.FilledStars | src/components/ratings/RatingDialog.tsx:63-82 | Of the five stars drawn, exactly the displayed rating's number are filled, and no filled star follows an empty one. |
| RatingDialog.RatingState.SubmitDisabled | src/components/ratings/RatingDialog.tsx:126 | Submit is enabled exactly with a rating and while not submitting. |
| RatingDialog.RatingState.Click | src/components/ratings/RatingDialog.tsx:67 | Sets the rating. |
| RatingDialog.RatingState.MouseEnter | src/components/ratings/RatingDialog.tsx:68 | Sets the hovered value. |
| RatingDialog.RatingState.MouseLeave | src/components/ratings/RatingDialog.tsx:69 | Resets the hovered value to 0. |
| RatingDialog.RatingState.SetReview | src/components/ratings/RatingDialog.tsx:105-107 | Keeps at most 500 characters. |
| RatingDialog.RatingState.HandleSubmit | src/components/ratings/RatingDialog.tsx:34-40 | Does nothing while the rating is 0. Otherwise it submits the rating and review, and resets both after a completed submit. |
| RatingDialog.RatingState.HandleSkip | src/components/ratings/RatingDialog.tsx:42-46 | Resets both and closes. |
| VoiceSearch.AllFinalNoInterim | src/hooks/useVoiceSearch.tsx:88-95 | When all results are final, the interim text is empty. |
| VoiceSearch.CollectedLengths | src/hooks/useVoiceSearch.tsx:88-95 | The final and interim texts together contain every transcript once. |
| VoiceSearch.ErrorMessage | src/hooks/useVoiceSearch.tsx:106-128 | No message exactly for "aborted". Unknown codes give the generic message. |
| VoiceSearch.KnownErrorMessages | src/hooks/useVoiceSearch.tsx:109-121 | The four known codes give their own messages. |
| VoiceSearch.VoiceSearchState.constructor | src/hooks/useVoiceSearch.tsx:55-58 | Not listening, with no transcript and no error. |
| VoiceSearch.VoiceSearchState.OnStart | src/hooks/useVoiceSearch.tsx:75-78 | Listening, with the error cleared. |
| VoiceSearch.VoiceSearchState.OnEnd | src/hooks/useVoiceSearch.tsx:80-82 | Not listening. |
| VoiceSearch.VoiceSearchState.OnResult | src/hooks/useVoiceSearch.tsx:84-104 | Shows the in-order final text if non-empty, else the interim text. `onResult` gets the trimmed final text, only when it is non-empty. |
| VoiceSearch.VoiceSearchState.OnError | src/hooks/useVoiceSearch.tsx:106-133 | "aborted" only stops listening. Other codes set the error, stop, and report the same message. |
| VoiceSearch.VoiceSearchState.StartListening | src/hooks/useVoiceSearch.tsx:142-158 | Unsupported sets the error without starting. Otherwise it clears the transcript and error and starts. |
| VoiceSearch.VoiceSearchState.StopListening | src/hooks/useVoiceSearch.tsx:160-164 | Stops the recogniser when there is one. |
| VoiceSearch.VoiceSearchState.ToggleListening | src/hooks/useVoiceSearch.tsx:166-172 | Stops when listening, starts otherwise. |
| PushNotifications.Padding | src/contexts/NotificationContext.tsx:132 | (4 − len mod 4) mod 4 `=` characters, bringing the length to a multiple of 4. |
| PushNotifications.FromUrlSafe | src/contexts/NotificationContext.tsx:133 | Every `-` becomes `+` and every `_` becomes `/`, and no `-` or `_` remains. |
| PushNotifications.DecodeEncode | src/contexts/NotificationContext.tsx:134 | The decoder of section 4 of RFC 4648 inverts its encoder. |
| PushNotifications.EncodeLength | src/contexts/NotificationContext.tsx:132-134 | Four characters per started group of three bytes. |
| PushNotifications.EncodeNoUrlChars | src/contexts/NotificationContext.tsx:133 | Standard base64 holds no `-` or `_`. |
| PushNotifications.EncodeTail | src/contexts/NotificationContext.tsx:132 | The encoding ends in its padding. |
| PushNotifications.PaddingRestores | src/contexts/NotificationContext.tsx:132 | The computed padding restores removed padding. |
| PushNotifications.UrlKeyRoundTrip | src/contexts/NotificationContext.tsx:131-140 | An unpadded base64url key (section 5 of RFC 4648) decodes to its bytes. |
| PushNotifications.UrlBase64ToUint8Array | src/contexts/NotificationContext.tsx:131-140 | The new array holds exactly the decoded bytes, and there is none when `atob` would throw. |
| PushNotifications.PushContext.constructor | src/contexts/NotificationContext.tsx:17 | Push starts disabled. |
| PushNotifications.PushContext.CheckPushPermission | src/contexts/NotificationContext.tsx:25-29 | Enabled exactly when the permission is "granted", if the API exists. |
| PushNotifications.PushContext.RequestPushPermission | src/contexts/NotificationContext.tsx:70-110 | Without support, it shows an error and asks nothing. A denial shows an error. A grant enables push and decodes the key. |
| UserRoles.RolesOf | src/hooks/useUserRole.tsx:26-29 | The rows' roles, in order. |
| UserRoles.RolesOfMembers | src/hooks/useUserRole.tsx:26-29 | A role is listed exactly when some row has it. |
| UserRoles.RoleState.constructor | src/hooks/useUserRole.tsx:9-10 | No roles, loading. |
| UserRoles.RoleState.Refresh | src/hooks/useUserRole.tsx:12-33 | Nothing while auth loads. No user gives no roles. A fetch gives the rows' roles. An error keeps them. Loading ends. |
| UserRoles.RoleState.HasRole | src/hooks/useUserRole.tsx:35 | True exactly when some fetched row carries the role. |
| UserRoles.RoleState.IsAdmin | src/hooks/useUserRole.tsx:36 | True exactly when `admin` is held. |
| UserRoles.RoleState.IsDoctor | src/hooks/useUserRole.tsx:37 | True exactly when `doctor` is held. |
| UserRoles.RoleState.IsPatient | src/hooks/useUserRole.tsx:38 | True exactly when `patient` is held. |
| UserRoles.RoleState.ReportedLoading | src/hooks/useUserRole.tsx:40 | Loading whenever auth loads. |
| RoleBasedRoute.HasAccess | src/components/auth/RoleBasedRoute.tsx:25 | Access exactly when some allowed role is held. |
| RoleBasedRoute.Decide | src/components/auth/RoleBasedRoute.tsx:13-30 | The spinner exactly while loading, then /auth exactly without a user. The children exactly with access, otherwise a redirect to /. |
| RoleBasedRoute.EmptyAllowedDenies | src/components/auth/RoleBasedRoute.tsx:25 | An empty allowed list never grants access. |
| RoleBasedRoute.AllowedRoleAdmits | src/components/auth/RoleBasedRoute.tsx:25 | A held allowed role admits a signed-in user. |
| RoleBasedRoute.AuthLoadingShowsSpinner | src/components/auth/RoleBasedRoute.tsx:13-19 | While auth loads, the route shows only the spinner. |

## Left out

- HMAC-SHA256 (`crypto.subtle`) is a function parameter. Only the hex rendering and the
  comparison are modelled. The comparison is a plain `!==`, so it is not constant-time.
- The bodies of the database functions `get_next_token_number`, `get_doctor_queue`,
  `search_doctors` and `search_hospitals` are not part of this model. Their replies are
  inputs, so token uniqueness and gaplessness are not stated.
- The database client, `auth.getUser`, the Resend e-mail API and the web-push sending are
  replies passed to the operations. Row ids the database generates are inputs too. The
  e-mail body's HTML styling is left out.
- Concurrency between simultaneous bookings belongs to the database and is left out. So are
  the react-query caching, invalidation and refetch intervals; `Reviews.InvalidatedKey`
  only names the key.
- Ordering by `created_at` and `appointment_date`, and the joined columns of the select
  queries, are not modelled. `Appointments.AppointmentsOfUser`, `Reviews.ReviewsOf` and
  `Payments.PaymentsOf` state membership or payment order only.
- Dates, clocks and number formatting are left out: `new Date`, `toISOString` for today,
  `format`, `toLocaleDateString`, `toFixed(2)` and the search debounce timer are opaque
  strings or parameters.
- Browser APIs are inputs or reported flags: SpeechRecognition, the Notification API,
  service workers, `window.open`, printing and downloads. `sessionStorage` is a set of
  user ids. The realtime notification channel of `NotificationContext.tsx` is left out.
- `atob` is modelled by the decoder of section 4 of RFC 4648. Unlike `atob`, it rejects
  white space instead of skipping it, and it requires padding.
- `PushNotifications.PushContext.RequestPushPermission`: the service-worker registration,
  the subscription and its save are abstracted into the flag `setupFails`. A key that does
  not decode is returned as `None`, after `pushEnabled` is already set, as in the source;
  either case shows the toast "Failed to enable push notifications".
- Zod's e-mail, uuid and `Date.parse` checks are function parameters of the validators.
- `PaymentVerification.VerifyPayment`: a body that is not JSON, or one without
  `appointmentData` (`verify-razorpay-payment/index.ts:31-36, 73-75`), throws into the 500
  path in the source. The model's request is always well-formed, so that path is not
  modelled.
- Strings are sequences of Unicode scalar values. JavaScript's `length`, `slice` and zod's
  `min`/`max` count UTF-16 code units instead. For text with characters outside the Basic
  Multilingual Plane (emoji, for instance), the limits 2/100, 128, 255, 500, 2000 and 10000
  and the cut of `Take` can differ from the source.
- Upper-casing is ASCII-only; JavaScript's full Unicode case mapping is not modelled.
- Role values are taken as valid `app_role` values, since the column is an enum.
- ProfileEdit's medical history, allergies and insurance fields (`ProfileEdit.tsx:36-39,
  246-286`) are never saved, and are left out.
- The receipt's style sheet and fixed layout text are summarised as fixed pieces.
- `RatingDialog.RatingState.HandleSubmit`: when `onSubmit` rejects, the source skips the
  reset. The model covers this with the flag `submitFails` rather than an exception.
- `VoiceSearch.VoiceSearchState.OnResult` and `OnError` return the argument the
  `onResult` and `onError` callbacks would receive, rather than calling them.
- Presentation-only pages, PDF rendering, thin query wrappers, floating-point rating
  averages and the Razorpay checkout wiring are outside the modelled core.

## Findings

| source | as written | input that shows it | evidently intended | confidence | as-written member | corrected member |
|---|---|---|---|---|---|---|
| supabase/functions/verify-razorpay-payment/index.ts:138-145 | The confirmation notice is sent with the body keys `userId`, `type` and `appointmentId`. The notification function reads `user_id` (send-notification/index.ts:40-47), so the user id is undefined and the call is refused with 403 at line 84. | Any confirmed booking whose request carries the user's bearer token. | Send `user_id` and `appointment_id`, so the booking user's own notice is authorised. | not executed | PaymentVerification.NoticeRefusedAsWritten | PaymentVerification.NoticeAccepted |
