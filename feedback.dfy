/**
 * The feedback form: a text, an optional e-mail and a one-to-five star
 * rating, validated and turned into the fields of one outbound request.
 * The request itself is an outcome the caller supplies (`ok` or not); the
 * screen records each request it issues in `sent`.
 */
module Feedback {
  import opened Text

  /** The label of a rating outside one to five (no star picked). */
  const NotRated := "Não avaliado"

  /** The e-mail field's value when the user left it blank. */
  const NoEmail := "Não informado"

  /** `getRatingText`. */
  function RatingText(rating: int): (text: string)
    ensures (1 <= rating <= 5) <==> text != NotRated
  {
    if rating == 1 then "Muito Ruim"
    else if rating == 2 then "Ruim"
    else if rating == 3 then "Regular"
    else if rating == 4 then "Bom"
    else if rating == 5 then "Excelente"
    else NotRated
  }

  /** The five star ratings have five different labels. */
  lemma RatingTextInjective(a: int, b: int)
    requires 1 <= a <= 5 && 1 <= b <= 5 && RatingText(a) == RatingText(b)
    ensures a == b
  {
  }

  /** The outcome of the submit handler's two checks, in the order it makes them. */
  datatype Check = Accepted | BlankFeedback | NoRating

  /** The submit handler's guards: a non-blank feedback first, then a rating. */
  function Validate(feedback: string, rating: int): (c: Check)
    ensures c == BlankFeedback <==> AllWhitespace(feedback)
    ensures c == NoRating <==> !AllWhitespace(feedback) && rating == 0
    ensures c == Accepted <==> !AllWhitespace(feedback) && rating != 0
  {
    TrimEmptyIff(feedback);
    if Trim(feedback) == [] then BlankFeedback
    else if rating == 0 then NoRating
    else Accepted
  }

  /** The send button is enabled, `!(!feedback.trim() || rating === 0 || isSubmitting)`:
      exactly when the handler would accept and no request is in flight. */
  predicate CanSubmit(feedback: string, rating: int, isSubmitting: bool)
    ensures CanSubmit(feedback, rating, isSubmitting) <==> Validate(feedback, rating) == Accepted && !isSubmitting
  {
    TrimEmptyIff(feedback);
    Trim(feedback) != [] && rating != 0 && !isSubmitting
  }

  function DigitChar(d: nat): (c: char)
    requires d < 10
    ensures '0' <= c <= '9' && c as int - '0' as int == d
  {
    ('0' as int + d) as char
  }

  /** The decimal numeral of `n`, without leading zeros. */
  function NatString(n: nat): (r: string)
    ensures |r| >= 1 && forall i :: 0 <= i < |r| ==> '0' <= r[i] <= '9'
    ensures n > 0 ==> r[0] != '0'
  {
    if n < 10 then [DigitChar(n)] else NatString(n / 10) + [DigitChar(n % 10)]
  }

  /** `n.toString()` for an integer `n`. */
  function IntString(n: int): (r: string)
    ensures |r| >= 1
    ensures n < 0 <==> r[0] == '-'
  {
    if n < 0 then "-" + NatString(-n) else NatString(n)
  }

  /** The number a string of decimal digits denotes. */
  function DigitsValue(s: string): nat
    requires forall i :: 0 <= i < |s| ==> '0' <= s[i] <= '9'
  {
    if s == [] then 0 else DigitsValue(s[..|s| - 1]) * 10 + (s[|s| - 1] as int - '0' as int)
  }

  /** Reading back the numeral gives the number. */
  lemma {:induction false} NatStringRoundTrip(n: nat)
    ensures DigitsValue(NatString(n)) == n
  {
    if n >= 10 {
      NatStringRoundTrip(n / 10);
      var r := NatString(n);
      assert r[..|r| - 1] == NatString(n / 10);
    }
  }

  /** `email.trim() || 'Não informado'`. */
  function EmailField(email: string): (r: string)
    ensures !AllWhitespace(r)
    ensures !AllWhitespace(email) ==> r == Trim(email)
    ensures AllWhitespace(email) ==> r == NoEmail
  {
    TrimEmptyIff(email);
    TrimSpec(email);
    assert NoEmail[0] == 'N';
    if Trim(email) == [] then NoEmail else Trim(email)
  }

  /** The fields of the request body. */
  datatype Payload = Payload(
    feedback: string,
    email: string,
    rating: string,
    ratingText: string,
    timestamp: string,
    platform: string)

  /** The request body built from the form; the clock reading and the
      platform name are supplied by the caller. */
  function BuildPayload(feedback: string, email: string, rating: int, timestamp: string, platform: string): (p: Payload)
    ensures p.timestamp == timestamp && p.platform == platform
  {
    Payload(Trim(feedback), EmailField(email), IntString(rating), RatingText(rating), timestamp, platform)
  }

  /** What an accepted form sends: a non-blank trimmed feedback, the e-mail or
      its default, the rating written in decimal and a real label. The rating
      is one a screen can hold (`FeedbackScreen.Valid`), so acceptance, which
      rules out 0, leaves 1 to 5 stars. */
  lemma AcceptedPayload(feedback: string, email: string, rating: int, timestamp: string, platform: string)
    requires Validate(feedback, rating) == Accepted && 0 <= rating <= 5
    ensures var p := BuildPayload(feedback, email, rating, timestamp, platform);
      && p.feedback == Trim(feedback) && !AllWhitespace(p.feedback)
      && !AllWhitespace(p.email)
      && (AllWhitespace(email) ==> p.email == NoEmail)
      && (!AllWhitespace(email) ==> p.email == Trim(email))
      && (forall i :: 0 <= i < |p.rating| ==> '0' <= p.rating[i] <= '9') && DigitsValue(p.rating) == rating
      && p.ratingText == RatingText(rating) && p.ratingText != NotRated
  {
    TrimIdempotent(feedback);
    TrimEmptyIff(feedback);
    TrimEmptyIff(Trim(feedback));
    NatStringRoundTrip(rating);
  }

  class FeedbackScreen {
    var feedback: string
    var email: string
    /** 0 while no star is picked. */
    var rating: int
    var isSubmitting: bool
    /** The requests issued so far, oldest first. */
    var sent: seq<Payload>

    /** The rating is only ever 0 or a number of stars; `AcceptedPayload`
        takes this bound, with acceptance ruling out 0. */
    predicate Valid()
      reads this
    {
      0 <= rating <= 5
    }

    constructor ()
      ensures Valid() && feedback == [] && email == [] && rating == 0 && !isSubmitting && sent == []
    {
      feedback, email, rating, isSubmitting, sent := [], [], 0, false, [];
    }

    /** The feedback input; it is not editable while a request is in flight. */
    method SetFeedback(text: string)
      requires Valid() && !isSubmitting
      modifies this
      ensures Valid() && feedback == text
      ensures email == old(email) && rating == old(rating) && isSubmitting == old(isSubmitting) && sent == old(sent)
    {
      feedback := text;
    }

    /** The e-mail input; it is not editable while a request is in flight. */
    method SetEmail(text: string)
      requires Valid() && !isSubmitting
      modifies this
      ensures Valid() && email == text
      ensures feedback == old(feedback) && rating == old(rating) && isSubmitting == old(isSubmitting) && sent == old(sent)
    {
      email := text;
    }

    /** The star buttons 1 to 5; they are disabled while a request is in flight. */
    method SetRating(stars: int)
      requires Valid() && !isSubmitting && 1 <= stars <= 5
      modifies this
      ensures Valid() && rating == stars
      ensures feedback == old(feedback) && email == old(email) && isSubmitting == old(isSubmitting) && sent == old(sent)
    {
      rating := stars;
    }

    /** Whether the send button is enabled. */
    method SubmitEnabled() returns (enabled: bool)
      ensures enabled <==> Validate(feedback, rating) == Accepted && !isSubmitting
    {
      enabled := CanSubmit(feedback, rating, isSubmitting);
    }

    /** `handleSubmit` up to the request: a blank feedback or a missing rating
        is refused before anything changes; otherwise the screen marks itself
        as submitting and issues one request built from the form. The send
        button and the retry (which runs after the previous attempt's
        `finally`) only call this while no request is in flight. */
    method Submit(timestamp: string, platform: string) returns (check: Check)
      requires Valid() && !isSubmitting
      modifies this
      ensures Valid()
      ensures check == Validate(old(feedback), old(rating))
      ensures feedback == old(feedback) && email == old(email) && rating == old(rating)
      ensures isSubmitting <==> check == Accepted
      ensures sent == if check == Accepted
        then old(sent) + [BuildPayload(feedback, email, rating, timestamp, platform)]
        else old(sent)
    {
      if Trim(feedback) == [] {
        return BlankFeedback;
      }
      if rating == 0 {
        return NoRating;
      }
      isSubmitting := true;
      sent := sent + [BuildPayload(feedback, email, rating, timestamp, platform)];
      check := Accepted;
    }

    /** `handleSubmit` once the request has resolved: a success clears the
        form, a failure keeps it and offers a retry, and either way the
        `finally` block ends the in-flight state. */
    method Resolve(ok: bool) returns (offerRetry: bool)
      requires Valid() && isSubmitting
      modifies this
      ensures Valid() && !isSubmitting && sent == old(sent) && offerRetry == !ok
      ensures ok ==> feedback == [] && email == [] && rating == 0
      ensures !ok ==> feedback == old(feedback) && email == old(email) && rating == old(rating)
    {
      if ok {
        feedback := [];
        email := [];
        rating := 0;
      }
      offerRetry := !ok;
      isSubmitting := false;
    }
  }

  /** A failed attempt followed by "Tentar Novamente" re-sends the same fields,
      because the failure path left the form as it was; only the timestamp is
      the fresh clock reading of the second `handleSubmit`. */
  method RetryAfterFailure(screen: FeedbackScreen, firstTimestamp: string, retryTimestamp: string, platform: string)
    requires screen.Valid() && !screen.isSubmitting
    requires Validate(screen.feedback, screen.rating) == Accepted
    modifies screen
    ensures |screen.sent| == |old(screen.sent)| + 2
    ensures screen.sent[|screen.sent| - 2] == BuildPayload(old(screen.feedback), old(screen.email), old(screen.rating), firstTimestamp, platform)
    ensures screen.sent[|screen.sent| - 1] == screen.sent[|screen.sent| - 2].(timestamp := retryTimestamp)
    ensures screen.isSubmitting
  {
    var first := screen.Submit(firstTimestamp, platform);
    var retry := screen.Resolve(false);
    assert retry;
    var second := screen.Submit(retryTimestamp, platform);
  }
}
