/** The `/api/send-feedback` handler: it builds the feedback e-mail from
    the posted `userData`, `rating` and `message` and hands it to the mail
    transport, whose outcome is an input. Only the parts of the e-mail the
    handler computes are modelled: the subject, the star string and the
    HTML form of the message. */
module FeedbackMail {
  import opened Wrappers
  import opened Json
  import opened Http
  import Text

  const FullStar := '\U{2605}'
  const EmptyStar := '\U{2606}'

  /** `Number(j)` for a JSON value, integers only; `None` is `NaN`. A string
      is read by `Text.StringToInteger`; an array reads as its `String` form,
      so `[]` is 0, a one-element array is its element rendered, and two or
      more elements join with a comma, which no number contains. */
  function NumberOf(j: Json): (r: Option<int>)
    ensures j.Null? ==> r == Some(0)
    ensures j.Bool? ==> r == Some(if j.b then 1 else 0)
    ensures j.Num? ==> r == Some(j.n)
    ensures j.Str? ==> r == Text.StringToInteger(j.s)
    ensures j.Obj? ==> r.None?
    ensures j.Arr? && |j.items| == 0 ==> r == Some(0)
    ensures j.Arr? && |j.items| >= 2 ==> r.None?
    decreases j
  {
    match j
    case Null => Some(0)
    case Bool(b) => Some(if b then 1 else 0)
    case Num(n) => Some(n)
    case Str(s) => Text.StringToInteger(s)
    case Obj(_) => None
    case Arr(items) =>
      if |items| == 0 then Some(0)
      else if |items| >= 2 then None
      else
        match items[0]
        case Null => Text.StringToInteger("")
        case Bool(b) => Text.StringToInteger(if b then "true" else "false")
        case Num(n) => Text.StringToInteger(Text.IntToString(n))
        case Str(s) => Text.StringToInteger(s)
        case Obj(_) => None
        case Arr(_) => NumberOf(items[0])
  }

  /** A one-element array counts as its element, except that `[null]` is 0
      and `[true]`, `[false]` are `NaN`, because the array goes through
      its string form. */
  lemma SingletonNumber(x: Json)
    ensures x.Null? ==> NumberOf(Arr([x])) == Some(0)
    ensures x.Bool? ==> NumberOf(Arr([x])).None?
    ensures !x.Null? && !x.Bool? ==> NumberOf(Arr([x])) == NumberOf(x)
  {
    if x.Num? {
      Text.IntegerRoundTrip(x.n);
    }
    if x.Null? {
      assert Text.AllSpace("", Text.IsJsSpace);
    }
    if x.Bool? {
      var t := if x.b then "true" else "false";
      assert !Text.IsJsSpace(t[0]) && !Text.IsJsSpace(t[|t| - 1]);
      Text.TrimUnspaced(t, Text.IsJsSpace);
      assert !Text.IsDigitChar(t[0]);
    }
  }

  /** A number sent as its decimal string counts as that number. */
  lemma NumericStringNumber(n: int)
    ensures NumberOf(Str(Text.IntToString(n))) == Some(n)
  {
    Text.IntegerRoundTrip(n);
  }

  /** `Number(v)` where `v` may be `undefined`, which is `NaN`. */
  function NumberValue(v: Option<Json>): (r: Option<int>)
    ensures v.None? ==> r.None?
    ensures v.Some? ==> r == NumberOf(v.value)
  {
    match v
    case None => None
    case Some(j) => NumberOf(j)
  }

  /** V8's `RangeError` message for a negative `repeat` count. */
  function InvalidCountMessage(n: int): string {
    "Invalid count value: " + Text.IntToString(n)
  }

  /** `c.repeat(count)`: `NaN` counts as zero, a negative count throws. */
  function RepeatChecked(c: char, count: Option<int>): (r: Result<string, string>)
    ensures count.None? ==> r == Success("")
    ensures count.Some? && count.value >= 0 ==> r == Success(Text.Repeat(c, count.value))
    ensures count.Some? && count.value < 0 ==> r.Failure?
  {
    match count
    case None => Success("")
    case Some(n) => if n < 0 then Failure(InvalidCountMessage(n)) else Success(Text.Repeat(c, n))
  }

  /** `'★'.repeat(rating) + '☆'.repeat(5 - rating)`. */
  function Stars(rating: Option<Json>): (r: Result<string, string>)
    ensures forall n :: NumberValue(rating) == Some(n) && 0 <= n <= 5 ==>
      r == Success(Text.Repeat(FullStar, n) + Text.Repeat(EmptyStar, 5 - n))
    ensures forall n :: NumberValue(rating) == Some(n) ==> (r.Success? <==> 0 <= n <= 5)
    ensures NumberValue(rating).None? ==> r == Success("")
  {
    var count := NumberValue(rating);
    match RepeatChecked(FullStar, count)
    case Failure(m) => Failure(m)
    case Success(full) =>
      var rest := if count.None? then None else Some(5 - count.value);
      match RepeatChecked(EmptyStar, rest)
      case Failure(m) => Failure(m)
      case Success(empty) =>
        assert count.None? ==> full + empty == "";
        Success(full + empty)
  }

  /** For every rating the page can send, the star string has exactly five
      characters: `n` full stars followed by empty ones. */
  lemma StarsShape(n: int)
    requires 0 <= n <= 5
    ensures Stars(Some(Num(n))).Success?
    ensures var s := Stars(Some(Num(n))).value;
      |s| == 5 && (forall i :: 0 <= i < n ==> s[i] == FullStar) && (forall i :: n <= i < 5 ==> s[i] == EmptyStar)
  {
    var s := Stars(Some(Num(n))).value;
    assert s == Text.Repeat(FullStar, n) + Text.Repeat(EmptyStar, 5 - n);
    forall i | n <= i < 5 ensures s[i] == EmptyStar {
      assert s[i] == Text.Repeat(EmptyStar, 5 - n)[i - n];
    }
  }

  /** The computed parts of the e-mail. */
  datatype Mail = Mail(subject: string, stars: string, messageHtml: string)

  /** What the mail transport did with the e-mail. */
  datatype Delivery = Delivered | Rejected(message: string)

  /** What the handler did: the e-mail it handed over, if it got that far,
      and its response. */
  datatype Sent = Sent(mail: Option<Mail>, response: Response)

  /** `userData.name` inside the subject's template. */
  function Subject(userData: Option<Json>): (r: Result<string, string>)
    ensures userData.Some? && !userData.value.Null? ==>
      r == Success("New Feedback from " + Show(Member(userData.value, "name")))
    ensures r.Failure? <==> userData.None? || userData.value.Null?
  {
    match userData
    case None => Failure(UndefinedPropertyMessage("name"))
    case Some(u) =>
      if u.Null? then Failure(NullPropertyMessage("name"))
      else Success("New Feedback from " + Show(Member(u, "name")))
  }

  /** `message.replace(/\n/g, '<br>')`: only a string has `replace`. */
  function MessageHtml(message: Option<Json>): (r: Result<string, string>)
    ensures r.Success? <==> message.Some? && message.value.Str?
    ensures r.Success? ==> r.value == Text.NewlinesToBreaks(message.value.s) && '\n' !in r.value
  {
    match message
    case None => Failure(UndefinedPropertyMessage("replace"))
    case Some(j) =>
      match j
      case Str(s) => Success(Text.NewlinesToBreaks(s))
      case Null => Failure(NullPropertyMessage("replace"))
      case _ => Failure("message.replace is not a function")
  }

  /** The e-mail, built in the handler's order of evaluation. */
  function Compose(body: Json): (r: Result<Mail, string>)
    requires !body.Null?
    ensures r.Success? <==>
      && Subject(Member(body, "userData")).Success?
      && Stars(Member(body, "rating")).Success?
      && MessageHtml(Member(body, "message")).Success?
    ensures r.Success? ==> r.value == Mail(Subject(Member(body, "userData")).value,
                                           Stars(Member(body, "rating")).value,
                                           MessageHtml(Member(body, "message")).value)
  {
    match Subject(Member(body, "userData"))
    case Failure(m) => Failure(m)
    case Success(subject) =>
      match Stars(Member(body, "rating"))
      case Failure(m) => Failure(m)
      case Success(stars) =>
        match MessageHtml(Member(body, "message"))
        case Failure(m) => Failure(m)
        case Success(html) => Success(Mail(subject, stars, html))
  }

  const SuccessBody := Obj([("success", Bool(true))])

  /** `POST /api/send-feedback`: 200 `{success: true}` once the e-mail is
      delivered, 500 `{error}` on any failure on the way. */
  function SendFeedback(body: RequestBody, delivery: Delivery): (x: Sent)
    ensures x.response.status == 200 || x.response.status == 500
    ensures x.response.status == 200 <==> x.mail.Some? && delivery.Delivered?
    ensures x.response.status == 200 ==> x.response.body == SuccessBody
    ensures x.response.status == 500 ==> x.response.body.Obj? && |x.response.body.members| == 1
                                          && x.response.body.members[0].0 == "error"
    ensures x.mail.Some? <==> body.Parsed? && !body.json.Null? && Compose(body.json).Success?
    ensures x.mail.Some? ==> x.mail.value == Compose(body.json).value && '\n' !in x.mail.value.messageHtml
    ensures x.mail.Some? && delivery.Rejected? ==> x.response == ErrorResponse(500, delivery.message)
    ensures body.Unparsable? ==> x == Sent(None, ErrorResponse(500, body.message))
  {
    match ReadField(body, "userData")
    case Failure(m) => Sent(None, ErrorResponse(500, m))
    case Success(j) =>
      match Compose(j)
      case Failure(m) => Sent(None, ErrorResponse(500, m))
      case Success(mail) =>
        match delivery
        case Delivered => Sent(Some(mail), Response(200, SuccessBody))
        case Rejected(m) => Sent(Some(mail), ErrorResponse(500, m))
  }

  /** A rating that counts as a number above five, such as `9` or `"9"`,
      makes the second `repeat` throw: the handler answers 500 and no
      e-mail is sent. */
  lemma RatingAboveFiveFails(userData: Json, rating: Json, n: int, message: string, delivery: Delivery)
    requires NumberOf(rating) == Some(n) && n > 5
    ensures var body := Obj([("userData", userData), ("rating", rating), ("message", Str(message))]);
      var x := SendFeedback(Parsed(body), delivery);
      x.response.status == 500 && x.mail.None?
  {
    var body := Obj([("userData", userData), ("rating", rating), ("message", Str(message))]);
    assert Member(body, "rating") == Some(rating) by {
      assert body.members[1..] == [("rating", rating), ("message", Str(message))];
      assert Lookup(body.members, "rating") == Lookup(body.members[1..], "rating");
    }
  }
}
