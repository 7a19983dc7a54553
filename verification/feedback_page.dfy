/** The feedback page: the star picker, the submit guard, the sender
    fields taken from the `user` cookie and how the outcome is reported. */
module FeedbackPage {
  import opened Wrappers
  import opened Json
  import opened Http
  import Text
  import Session
  import FeedbackMail

  /** `userCookie ? JSON.parse(userCookie) : null`; a failure is a render
      that throws. */
  function CookieUser(mirror: Option<Session.MirrorCookie>): (r: Result<Json, string>)
    ensures !Session.MirrorSet(mirror) ==> r == Success(Null)
    ensures Session.MirrorSet(mirror) ==> r == Session.ParseMirror(mirror.value)
  {
    if Session.MirrorSet(mirror) then Session.ParseMirror(mirror.value) else Success(Null)
  }

  /** A login without user data leaves a cookie this page cannot render with. */
  lemma UndefinedCookieBreaksPage()
    ensures CookieUser(Some(Session.UndefinedText)).Failure?
  {
  }

  /** `v || fallback` for a possibly undefined value and a string fallback. */
  function Or(v: Option<Json>, fallback: string): (r: Json)
    ensures JsTruthy(v) ==> r == v.value
    ensures !JsTruthy(v) ==> r == Str(fallback)
  {
    if JsTruthy(v) then v.value else Str(fallback)
  }

  const AnonymousId := "anonymous"
  const AnonymousEmail := "no-email@example.com"
  const AnonymousName := "Anonymous User"

  /** The `userData` object sent along with the feedback. */
  function UserData(user: Json): (u: Json)
    ensures u.Obj? && |u.members| == 3
    ensures JsTruthy(Member(user, "id")) ==> Lookup(u.members, "id") == Member(user, "id")
    ensures !JsTruthy(Member(user, "id")) ==> Lookup(u.members, "id") == Some(Str(AnonymousId))
    ensures JsTruthy(Member(user, "email")) ==> Lookup(u.members, "email") == Member(user, "email")
    ensures !JsTruthy(Member(user, "email")) ==> Lookup(u.members, "email") == Some(Str(AnonymousEmail))
    ensures JsTruthy(Member(user, "name")) ==> Lookup(u.members, "name") == Member(user, "name")
    ensures !JsTruthy(Member(user, "name")) ==> Lookup(u.members, "name") == Some(Str(AnonymousName))
    ensures !user.Obj? ==>
      u == Obj([("id", Str(AnonymousId)), ("email", Str(AnonymousEmail)), ("name", Str(AnonymousName))])
  {
    var id := ("id", Or(Member(user, "id"), AnonymousId));
    var email := ("email", Or(Member(user, "email"), AnonymousEmail));
    var name := ("name", Or(Member(user, "name"), AnonymousName));
    assert [id, email, name][1..] == [email, name] && [email, name][1..] == [name];
    assert Lookup([id, email, name], "email") == Lookup([email, name], "email");
    assert Lookup([id, email, name], "name") == Lookup([email, name], "name") == Lookup([name], "name");
    Obj([id, email, name])
  }

  /** The page's form state. `rating` is 0 or the last star clicked. */
  datatype Form = Form(rating: int, hover: int, message: string, submitting: bool, success: bool)

  const InitialForm := Form(0, 0, "", false, false)

  /** Star `k` is drawn highlighted. */
  predicate Highlighted(k: int, hover: int, rating: int) {
    k <= (if hover != 0 then hover else rating)
  }

  /** While the mouse is over a star the highlight previews that star,
      whatever the rating; otherwise it shows the rating. */
  lemma HighlightFollowsHover(k: int, hover: int, r1: int, r2: int)
    ensures hover != 0 ==> (Highlighted(k, hover, r1) <==> Highlighted(k, hover, r2))
    ensures Highlighted(k, 0, r1) <==> k <= r1
  {
  }

  /** The caption under the stars. */
  function RatingLabel(rating: int): (r: string)
    ensures rating == 0 ==> r == "Select rating"
    ensures rating != 0 ==> |r| > 0 && (r[|r| - 1] == 's' <==> rating != 1)
  {
    if rating == 0 then "Select rating"
    else Text.IntToString(rating) + " star" + (if rating != 1 then "s" else "")
  }

  /** For every rating the caption is two words: the rating's decimal
      rendering, which reads back as the rating, and `star`, plural for
      every rating but one. */
  lemma RatingLabels(rating: int)
    requires rating != 0
    ensures var parts := Text.Split(RatingLabel(rating), ' ');
      && |parts| == 2
      && parts[0] == Text.IntToString(rating)
      && Text.StringToInteger(parts[0]) == Some(rating)
      && parts[1] == (if rating == 1 then "star" else "stars")
  {
    var d := Text.IntToString(rating);
    var word := if rating == 1 then "star" else "stars";
    var n := if rating < 0 then -rating else rating;
    Text.NatToStringDigits(n);
    var digits := Text.NatToString(n);
    assert ' ' !in digits by {
      assert forall i :: 0 <= i < |digits| ==> Text.IsDigitChar(digits[i]);
    }
    assert ' ' !in d by {
      if rating < 0 {
        assert d == "-" + digits;
        forall i | 0 <= i < |d| ensures d[i] != ' ' {
          if i > 0 { assert d[i] == digits[i - 1]; }
        }
      }
    }
    assert RatingLabel(rating) == d + [' '] + word;
    Text.SplitAfterField(d, ' ', word);
    Text.SplitWithoutSeparator(word, ' ');
    Text.IntegerRoundTrip(rating);
  }

  const NoRatingAlert := "Please select a rating"
  const NoMessageAlert := "Please enter your feedback message"
  const SendFallback := "Failed to send feedback"
  const SubmitFallback := "Failed to submit feedback. Please try again."

  /** The request body `handleSubmit` posts. */
  function FeedbackJson(user: Json, rating: int, message: string): Json {
    Obj([("userData", UserData(user)), ("rating", Num(rating)), ("message", Str(message))])
  }

  datatype Submission =
    /** An alert, and nothing sent. */
    | Blocked(alert: string)
    | Posted(request: Outbound, form: Form, notice: Option<string>)

  /** `handleSubmit`; `reply` is the outcome of posting to
      `/api/send-feedback` and reading the JSON answer. */
  function Submit(f: Form, user: Json, reply: Reply): (s: Submission)
    ensures f.rating == 0 ==> s == Blocked(NoRatingAlert)
    ensures f.rating != 0 ==> (s.Blocked? <==> Text.AllSpace(f.message, Text.IsJsSpace))
    ensures s.Blocked? ==> s.alert == NoRatingAlert || s.alert == NoMessageAlert
    ensures s.Posted? ==>
      && s.request == Outbound(POST, "/api/send-feedback", [JsonContent], Some(FeedbackJson(user, f.rating, f.message)))
      && !s.form.submitting
    ensures s.Posted? && reply.Ok() ==>
      s.form == f.(rating := 0, message := "", success := true, submitting := false) && s.notice.None?
    ensures s.Posted? && !reply.Ok() ==>
      s.form == f.(submitting := false) && s.notice.Some? && s.notice.value != ""
    ensures s.Posted? && reply.Threw? ==> s.notice == Some(Text.OrElse(reply.message, SubmitFallback))
  {
    if f.rating == 0 then Blocked(NoRatingAlert)
    else if Text.Trim(f.message, Text.IsJsSpace) == "" then
      Text.TrimEmptyIffAllSpace(f.message, Text.IsJsSpace);
      Blocked(NoMessageAlert)
    else
      Text.TrimEmptyIffAllSpace(f.message, Text.IsJsSpace);
      var request := Outbound(POST, "/api/send-feedback", [JsonContent], Some(FeedbackJson(user, f.rating, f.message)));
      if reply.Ok() then Posted(request, f.(rating := 0, message := "", success := true, submitting := false), None)
      else
        var message :=
          match reply
          case Threw(m) => m
          case Answered(_, data) =>
            match Get(data, "error")
            case Failure(m) => m
            case Success(e) => ErrorMessage(e, SendFallback);
        Posted(request, f.(submitting := false), Some(Text.OrElse(message, SubmitFallback)))
  }

  /** The confirmation's timer: hide it and go back to the inventory. */
  function SuccessTimerFired(f: Form): (r: (Form, string))
    ensures !r.0.success && r.1 == "/dashboard/inventory"
    ensures r.0 == f.(success := false)
  {
    (f.(success := false), "/dashboard/inventory")
  }

  /** End to end: a rating the picker can produce and a delivered e-mail
      give a successful submission, a five-character star string and a
      subject naming the user or "Anonymous User". */
  lemma PageRequestAccepted(user: Json, rating: int, message: string)
    requires 1 <= rating <= 5
    ensures var x := FeedbackMail.SendFeedback(Parsed(FeedbackJson(user, rating, message)), FeedbackMail.Delivered);
      && x.response.status == 200 && x.mail.Some?
      && |x.mail.value.stars| == 5
      && x.mail.value.subject == "New Feedback from " + Show(Some(Or(Member(user, "name"), AnonymousName)))
      && x.mail.value.messageHtml == Text.NewlinesToBreaks(message)
  {
    var body := FeedbackJson(user, rating, message);
    var m := body.members;
    assert m[1..] == [("rating", Num(rating)), ("message", Str(message))];
    assert m[1..][1..] == [("message", Str(message))];
    assert Member(body, "userData") == Some(UserData(user));
    assert Lookup(m, "rating") == Lookup(m[1..], "rating");
    assert Member(body, "rating") == Some(Num(rating));
    assert Lookup(m, "message") == Lookup(m[1..], "message") == Lookup(m[1..][1..], "message");
    assert Member(body, "message") == Some(Str(message));
    var u := UserData(user).members;
    assert u[1..] == [("email", Or(Member(user, "email"), AnonymousEmail)), ("name", Or(Member(user, "name"), AnonymousName))];
    assert u[1..][1..] == [("name", Or(Member(user, "name"), AnonymousName))];
    assert Lookup(u, "name") == Lookup(u[1..], "name") == Lookup(u[1..][1..], "name");
    FeedbackMail.StarsShape(rating);
  }
}
