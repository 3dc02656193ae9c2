/** Reading and writing ratings (`useReviewsByDoctor`, `useReviewsByHospital`,
    `useCreateReview`). Reads go through the `public_reviews` view, which leaves out the
    author. */
module Reviews {
  import opened Wrappers
  import opened Strings
  import opened Store

  /** A row of the `public_reviews` view. */
  datatype PublicReview = PublicReview(
    id: string,
    doctorId: Option<string>,
    hospitalId: Option<string>,
    rating: int,
    review: Option<string>)

  function Public(r: Review): PublicReview {
    PublicReview(r.id, r.doctorId, r.hospitalId, r.rating, r.review)
  }

  /** Which column a listing filters on. */
  datatype Subject = OfDoctor | OfHospital

  function SubjectOf(r: Review, subject: Subject): Option<string> {
    match subject
    case OfDoctor => r.doctorId
    case OfHospital => r.hospitalId
  }

  /** `.eq(column, id)` on the view: the matching rows, in table order and without the
      author. */
  function Matching(rows: seq<Review>, subject: Subject, id: string): (r: seq<PublicReview>)
    ensures |r| <= |rows|
    ensures forall x :: x in r <==> exists k :: 0 <= k < |rows| && SubjectOf(rows[k], subject) == Some(id) && x == Public(rows[k])
  {
    if rows == [] then []
    else
      var rest := Matching(rows[1..], subject, id);
      assert forall k :: 1 <= k < |rows| ==> rows[k] == rows[1..][k - 1];
      assert forall k :: 0 <= k < |rows| - 1 ==> rows[1..][k] == rows[k + 1];
      if SubjectOf(rows[0], subject) == Some(id) then [Public(rows[0])] + rest else rest
  }

  /** `useReviewsByDoctor` / `useReviewsByHospital`: a falsy id is an error, a failed
      query (`queryError`) throws its error, otherwise the reviews of that doctor or
      hospital. */
  function ReviewsOf(db: Database, subject: Subject, id: Option<string>, queryError: Option<string>): (r: Result<seq<PublicReview>>)
    reads db
    ensures !Truthy(id) ==> r == Err(if subject.OfDoctor? then "Doctor ID is required" else "Hospital ID is required")
    ensures Truthy(id) && queryError.Some? ==> r == Err(queryError.value)
    ensures Truthy(id) && queryError.None? ==> r.Ok? && forall x :: x in r.value <==>
      exists k :: 0 <= k < |db.reviews| && SubjectOf(db.reviews[k], subject) == id && x == Public(db.reviews[k])
  {
    if !Truthy(id) then Err(if subject.OfDoctor? then "Doctor ID is required" else "Hospital ID is required")
    else if queryError.Some? then Err(queryError.value)
    else Ok(Matching(db.reviews, subject, id.value))
  }

  /** What the rating form submits. */
  datatype ReviewInput = ReviewInput(
    doctorId: Option<string>,
    hospitalId: Option<string>,
    rating: int,
    review: Option<string>)

  /** `review?.trim().slice(0, 2000).replace(/[<>]/g, "") || null`. */
  function SanitizeReview(review: Option<string>): (r: Option<string>)
    ensures r.Some? ==> r.value != "" && |r.value| <= 2000
    ensures r.Some? ==> forall k :: 0 <= k < |r.value| ==> r.value[k] != '<' && r.value[k] != '>'
    ensures review.None? ==> r.None?
    ensures review.Some? ==> var t := StripAngles(Take(Trim(review.value), 2000));
      (r.None? <==> t == "") && (r.Some? ==> r.value == t)
  {
    match review
    case None => None
    case Some(s) =>
      var t := StripAngles(Take(Trim(s), 2000));
      if t == "" then None else Some(t)
  }

  /** White space alone is stored as `null`. */
  lemma BlankReviewIsNull(s: string)
    requires AllSpace(s)
    ensures SanitizeReview(Some(s)) == None
  {
    TrimEmptyIffAllSpace(s);
  }

  /** The brackets are removed after trimming, so white space they enclosed can remain
      at the ends of the stored text. */
  lemma SpaceInsideBracketsKept()
    ensures SanitizeReview(Some("< >")) == Some(" ")
  {
    var s := "< >";
    assert !IsSpace(s[0]) && !IsSpace(s[2]);
    assert TrimStart(s) == s;
    assert TrimEnd(s) == s;
    assert s[1..] == " >" && s[1..][1..] == ">" && s[1..][1..][1..] == [];
    assert StripAngles(">") == [];
    assert StripAngles(" >") == " ";
  }

  /** Clean text within the limit is stored as it is. */
  lemma CleanReviewKept(s: string)
    requires s != "" && |s| <= 2000 && IsTrimmed(s)
    requires forall k :: 0 <= k < |s| ==> s[k] != '<' && s[k] != '>'
    ensures SanitizeReview(Some(s)) == Some(s)
  {
    TrimOfTrimmed(s);
    StripAnglesNoop(s);
  }

  /** The row `useCreateReview` inserts. */
  function ReviewRow(id: string, input: ReviewInput, userId: string): (r: Review)
    ensures r.userId == userId && r.rating == input.rating
    ensures r.review == SanitizeReview(input.review)
    ensures r.doctorId == input.doctorId && r.hospitalId == input.hospitalId
  {
    Review(id, input.doctorId, input.hospitalId, input.rating, SanitizeReview(input.review), userId)
  }

  /** The react-query key invalidated after a successful insert. */
  function InvalidatedKey(input: ReviewInput): (key: seq<string>)
    ensures |key| == 2 && key[0] == "reviews"
    ensures key[1] == "doctor" <==> Truthy(input.doctorId)
    ensures key[1] == "hospital" <==> !Truthy(input.doctorId)
  {
    ["reviews", if Truthy(input.doctorId) then "doctor" else "hospital"]
  }

  /** The reply of the insert: the new row's id, or the database error's message. */
  datatype ReviewReply = Stored(newId: string) | Rejected(message: string)

  /** `useCreateReview`'s `mutationFn`: the signed-in user is required, then a rating in
      1..5, then the insert; the database error is thrown as it is. */
  method CreateReview(db: Database, authUser: Option<string>, input: ReviewInput, insert: ReviewReply)
    returns (r: Result<Review>)
    modifies db`reviews
    ensures authUser.None? ==> r == Err("User not authenticated")
    ensures authUser.Some? && (input.rating < 1 || input.rating > 5) ==> r == Err("Rating must be between 1 and 5")
    ensures authUser.Some? && 1 <= input.rating <= 5 && insert.Rejected? ==> r == Err(insert.message)
    ensures r.Ok? <==> authUser.Some? && 1 <= input.rating <= 5 && insert.Stored?
    ensures r.Ok? ==> r.value == ReviewRow(insert.newId, input, authUser.value) && db.reviews == old(db.reviews) + [r.value]
    ensures r.Err? ==> db.reviews == old(db.reviews)
  {
    if authUser.None? {
      return Err("User not authenticated");
    }
    if input.rating < 1 || input.rating > 5 {
      return Err("Rating must be between 1 and 5");
    }
    match insert
    case Rejected(message) =>
      r := Err(message);
    case Stored(id) =>
      var row := ReviewRow(id, input, authUser.value);
      db.reviews := db.reviews + [row];
      r := Ok(row);
  }
}
