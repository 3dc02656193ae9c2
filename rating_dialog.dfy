/** The star rating dialog (`RatingDialog`): the chosen and the hovered star, the
    optional review text, and the submit and skip handlers. */
module RatingDialog {
  import opened Wrappers
  import opened Strings

  /** The labels of the five stars; no label without a rating. */
  function RatingLabel(r: int): (text: string)
    ensures 1 <= r <= 5 ==> text == ["Poor", "Fair", "Good", "Very Good", "Excellent"][r - 1]
    ensures !(1 <= r <= 5) ==> text == ""
  {
    match r
    case 1 => "Poor"
    case 2 => "Fair"
    case 3 => "Good"
    case 4 => "Very Good"
    case 5 => "Excellent"
    case _ => ""
  }

  lemma LabelShownOnlyForStars(r: int)
    ensures RatingLabel(r) != "" <==> 1 <= r <= 5
  {
  }

  /** The number of filled stars. */
  function CountFilled(stars: seq<bool>): nat {
    if stars == [] then 0 else (if stars[0] then 1 else 0) + CountFilled(stars[1..])
  }

  /** The textarea's `maxLength`. */
  const ReviewLimit := 500

  datatype Submission = Submission(rating: int, review: string)

  class RatingState {
    var rating: int
    var hoveredRating: int
    var review: string

    predicate Valid()
      reads this
    {
      0 <= rating <= 5 && 0 <= hoveredRating <= 5 && |review| <= ReviewLimit
    }

    constructor ()
      ensures Valid() && rating == 0 && hoveredRating == 0 && review == ""
    {
      rating, hoveredRating, review := 0, 0, "";
    }

    /** `hoveredRating || rating`. */
    function DisplayRating(): (d: int)
      reads this
      ensures hoveredRating != 0 ==> d == hoveredRating
      ensures hoveredRating == 0 ==> d == rating
    {
      if hoveredRating != 0 then hoveredRating else rating
    }

    /** Star `s` is drawn filled. */
    predicate Filled(s: int)
      reads this
    {
      s <= DisplayRating()
    }

    /** The five stars as drawn, star 1 first: `true` for a filled star. */
    function Stars(): seq<bool>
      reads this
    {
      [Filled(1), Filled(2), Filled(3), Filled(4), Filled(5)]
    }

    /** Exactly `DisplayRating()` of the five stars are filled, and they are the first
        ones: no filled star follows an empty one. */
    lemma FilledStars()
      requires Valid()
      ensures |Stars()| == 5
      ensures CountFilled(Stars()) == DisplayRating()
      ensures forall i, j :: 0 <= i < j < 5 && Stars()[j] ==> Stars()[i]
    {
      var st := Stars();
      assert CountFilled(st[4..]) == (if st[4] then 1 else 0) by {
        assert st[4..][1..] == [];
      }
      assert CountFilled(st[3..]) == (if st[3] then 1 else 0) + CountFilled(st[4..]) by {
        assert st[3..][1..] == st[4..];
      }
      assert CountFilled(st[2..]) == (if st[2] then 1 else 0) + CountFilled(st[3..]) by {
        assert st[2..][1..] == st[3..];
      }
      assert CountFilled(st[1..]) == (if st[1] then 1 else 0) + CountFilled(st[2..]) by {
        assert st[1..][1..] == st[2..];
      }
    }

    /** The submit button's `disabled`. */
    function SubmitDisabled(isSubmitting: bool): (disabled: bool)
      reads this
      ensures !disabled <==> rating != 0 && !isSubmitting
    {
      rating == 0 || isSubmitting
    }

    /** Clicking star `s`. */
    method Click(s: int)
      requires 1 <= s <= 5 && Valid()
      modifies this`rating
      ensures Valid() && rating == s
    {
      rating := s;
    }

    method MouseEnter(s: int)
      requires 1 <= s <= 5 && Valid()
      modifies this`hoveredRating
      ensures Valid() && hoveredRating == s
    {
      hoveredRating := s;
    }

    method MouseLeave()
      requires Valid()
      modifies this`hoveredRating
      ensures Valid() && hoveredRating == 0
    {
      hoveredRating := 0;
    }

    /** Typing into the review; the browser keeps at most 500 characters. */
    method SetReview(text: string)
      requires Valid()
      modifies this`review
      ensures Valid() && review == Take(text, ReviewLimit)
    {
      review := Take(text, ReviewLimit);
    }

    /** `handleSubmit`: nothing without a rating; otherwise the rating and review go to
        `onSubmit`, and when it completes (`submitFails` is false) both are reset. */
    method HandleSubmit(submitFails: bool) returns (submitted: Option<Submission>)
      requires Valid()
      modifies this`rating, this`review
      ensures Valid()
      ensures old(rating) == 0 ==> submitted.None? && rating == old(rating) && review == old(review)
      ensures old(rating) != 0 ==> submitted == Some(Submission(old(rating), old(review)))
      ensures old(rating) != 0 && !submitFails ==> rating == 0 && review == ""
      ensures submitFails ==> rating == old(rating) && review == old(review)
    {
      if rating == 0 {
        return None;
      }
      submitted := Some(Submission(rating, review));
      if !submitFails {
        rating, review := 0, "";
      }
    }

    /** `handleSkip`: asks the page to close the dialog and resets the rating and the
        review. */
    method HandleSkip() returns (closeRequested: bool)
      requires Valid()
      modifies this`rating, this`review
      ensures Valid() && closeRequested && rating == 0 && review == ""
    {
      rating, review := 0, "";
      closeRequested := true;
    }
  }
}
