/**
 * The public job page (`job-detail`): the salary text, the status badge,
 * the hero image, the wrap-around image gallery and the guard in front of
 * the "apply" request.
 */
module JobDetail {
  import opened Common
  import opened Text
  import opened Forms

  // ---------------------------------------------------------------------
  // Salary

  /** A JavaScript value that may be missing: `undefined`, `null` or a number. */
  datatype JsNumber = Undefined | Null | Num(n: int)

  predicate Present(v: JsNumber) { v.Num? }

  /** Which salary text is shown; the amounts are rendered by `toLocaleString('vi-VN')`. */
  datatype SalaryText = Negotiable | Between(low: int, high: int) | From(amount: int) | UpTo(amount: int)

  const NegotiableText: string := "Th\U{1ECF}a thu\U{1EAD}n"

  /** `formatSalary`. */
  function FormatSalary(from: JsNumber, to: JsNumber): (r: SalaryText)
    ensures r.Between? <==> Present(from) && Present(to) && !(from.n == 0 && to.n == 0)
    ensures r.Between? ==> r.low == from.n && r.high == to.n
    ensures r.From? <==> !(Present(from) && Present(to)) && Present(from) && from.n > 0
    ensures r.From? ==> r.amount == from.n
    ensures r.UpTo? <==> !(Present(from) && Present(to)) && !(Present(from) && from.n > 0) && Present(to) && to.n > 0
    ensures r.UpTo? ==> r.amount == to.n
  {
    if from.Undefined? && to.Undefined? then Negotiable
    else if from.Null? && to.Null? then Negotiable
    else if Present(from) && Present(to) then
      if from.n == 0 && to.n == 0 then Negotiable else Between(from.n, to.n)
    else if Present(from) && from.n > 0 then From(from.n)
    else if Present(to) && to.n > 0 then UpTo(to.n)
    else Negotiable
  }

  /** The text, given `toLocaleString('vi-VN')` as `format`. */
  function RenderSalary(t: SalaryText, format: int -> string): (s: string)
    ensures t.Negotiable? ==> s == NegotiableText
    ensures t.Between? ==> s == format(t.low) + " - " + format(t.high) + " VND"
    ensures t.From? ==> s == "T\U{1EEB} " + format(t.amount) + " VND"
    ensures t.UpTo? ==> s == "\U{110}\U{1EBF}n " + format(t.amount) + " VND"
  {
    match t
    case Negotiable => NegotiableText
    case Between(low, high) => format(low) + " - " + format(high) + " VND"
    case From(amount) => "T\U{1EEB} " + format(amount) + " VND"
    case UpTo(amount) => "\U{110}\U{1EBF}n " + format(amount) + " VND"
  }

  /** Both missing, both null, or both zero: the salary is negotiable. */
  lemma NoSalaryIsNegotiable(from: JsNumber, to: JsNumber)
    requires (from.Undefined? && to.Undefined?) || (from.Null? && to.Null?) || (from == Num(0) && to == Num(0))
    ensures FormatSalary(from, to) == Negotiable
  {
  }

  /** With one side given, a positive amount is shown and anything else is negotiable. */
  lemma OneSidedSalary(from: JsNumber, to: JsNumber)
    requires Present(from) != Present(to)
    ensures Present(from) ==> FormatSalary(from, to) == (if from.n > 0 then From(from.n) else Negotiable)
    ensures Present(to) ==> FormatSalary(from, to) == (if to.n > 0 then UpTo(to.n) else Negotiable)
  {
  }

  /** Every amount the text shows is one of the given values, unchanged. */
  lemma SalaryShowsGivenAmounts(from: JsNumber, to: JsNumber)
    ensures var t := FormatSalary(from, to);
      (t.Between? ==> Num(t.low) == from && Num(t.high) == to) &&
      ((t.From? || t.UpTo?) ==> t.amount > 0 && (Num(t.amount) == from || Num(t.amount) == to))
  {
  }

  /** A salary is negotiable exactly when no side is usable: neither both given and not both zero, nor one positive. */
  lemma NegotiableIff(from: JsNumber, to: JsNumber)
    ensures FormatSalary(from, to) == Negotiable <==>
      if Present(from) && Present(to) then from.n == 0 && to.n == 0
      else !(Present(from) && from.n > 0) && !(Present(to) && to.n > 0)
  {
  }

  // ---------------------------------------------------------------------
  // Status badge

  /** The three badge styles. */
  datatype BadgeStyle = OpenStyle | ClosedStyle | PausedStyle

  /** `statusConfig[status.toUpperCase()] || statusConfig.OPEN`. */
  function StyleOf(status: string): (r: BadgeStyle)
    ensures r == ClosedStyle <==> Upper(status) == "CLOSED"
    ensures r == PausedStyle <==> Upper(status) == "PAUSED"
    ensures r == OpenStyle <==> Upper(status) != "CLOSED" && Upper(status) != "PAUSED"
  {
    var key := Upper(status);
    if key == "OPEN" then OpenStyle
    else if key == "CLOSED" then ClosedStyle
    else if key == "PAUSED" then PausedStyle
    else OpenStyle
  }

  /** The label compares the status exactly, without upper-casing it. */
  function LabelOf(status: string): (r: string)
    ensures status != "OPEN" && status != "CLOSED" ==> r == status
    ensures status == "OPEN" ==> r == "\U{110}ang tuy\U{1EC3}n"
    ensures status == "CLOSED" ==> r == "\U{110}\U{E3} \U{111}\U{F3}ng"
  {
    if status == "OPEN" then "\U{110}ang tuy\U{1EC3}n"
    else if status == "CLOSED" then "\U{110}\U{E3} \U{111}\U{F3}ng"
    else status
  }

  /** A status that is none of the three keys in any case is styled as an open job. */
  lemma UnknownStatusStyledOpen(status: string)
    requires Upper(status) != "OPEN" && Upper(status) != "CLOSED" && Upper(status) != "PAUSED"
    ensures StyleOf(status) == OpenStyle
    ensures LabelOf(status) == status
  {
    assert Upper("OPEN") == "OPEN" && Upper("CLOSED") == "CLOSED";
  }

  /** The style ignores case; the label does not: "closed" gets the closed style and the raw label. */
  lemma StyleIgnoresCase(status: string)
    ensures StyleOf(Lower(status)) == StyleOf(status)
    ensures StyleOf("closed") == ClosedStyle && LabelOf("closed") == "closed"
  {
    UpperOfLower(status);
    assert Upper("closed") == "CLOSED";
  }

  // ---------------------------------------------------------------------
  // Images

  datatype Image = Image(filePath: string, isPrimary: bool)

  function IsPrimary(): Image -> bool
  {
    (img: Image) => img.isPrimary
  }

  /** `job.images?.find(img => img.isPrimary) || job.images?.[0]`. */
  function PrimaryImage(images: Option<seq<Image>>): (r: Option<Image>)
    ensures r.None? <==> images.None? || images.value == []
    ensures r.Some? ==> r.value in images.value
  {
    match images
    case None => None
    case Some(list) =>
      match First(list, IsPrimary())
      case Some(img) => Some(img)
      case None => if list == [] then None else Some(list[0])
  }

  /** The hero image: the first primary image when there is one, else the first image. */
  lemma PrimaryImageChoice(list: seq<Image>)
    requires list != []
    ensures (exists i :: 0 <= i < |list| && list[i].isPrimary) ==>
      PrimaryImage(Some(list)).value.isPrimary &&
      PrimaryImage(Some(list)).value == list[FindIndex(list, IsPrimary())]
    ensures (forall i :: 0 <= i < |list| ==> !list[i].isPrimary) ==> PrimaryImage(Some(list)) == Some(list[0])
  {
    FirstIsFindIndex(list, IsPrimary());
  }

  lemma {:induction false} FirstIsFindIndex<T>(s: seq<T>, p: T -> bool)
    ensures FindIndex(s, p) >= 0 ==> First(s, p) == Some(s[FindIndex(s, p)])
  {
    if s != [] && !p(s[0]) {
      FirstIsFindIndex(s[1..], p);
    }
  }

  /** The hero image address, or none. */
  function ImageUrl(imageServiceBase: string, images: Option<seq<Image>>): (r: Option<string>)
    ensures r.None? <==> PrimaryImage(images).None?
    ensures r.Some? ==> r.value == imageServiceBase + PrimaryImage(images).value.filePath
  {
    match PrimaryImage(images)
    case None => None
    case Some(img) => Some(imageServiceBase + img.filePath)
  }

  // ---------------------------------------------------------------------
  // Gallery

  /** `onPrev`: from the first image to the last, else one back. */
  function GalleryPrev(index: int, count: int): (r: int)
    ensures 0 <= index < count ==> 0 <= r < count && r == (index - 1 + count) % count
  {
    if index == 0 then count - 1 else index - 1
  }

  /** `onNext`: from the last image to the first, else one on. */
  function GalleryNext(index: int, count: int): (r: int)
    ensures 0 <= index < count ==> 0 <= r < count && r == (index + 1) % count
  {
    if index == count - 1 then 0 else index + 1
  }

  /** Previous then next, or next then previous, come back to the same image. */
  lemma GalleryRoundTrip(index: int, count: int)
    requires 0 <= index < count
    ensures GalleryNext(GalleryPrev(index, count), count) == index
    ensures GalleryPrev(GalleryNext(index, count), count) == index
  {
  }

  /** `steps` presses of Next. */
  function NextTimes(index: int, count: int, steps: nat): int
  {
    if steps == 0 then index else GalleryNext(NextTimes(index, count, steps - 1), count)
  }

  /** Pressing Next `steps` times moves `steps` images on, modulo the count; `count` presses come back. */
  lemma {:induction false} NextTimesIsModular(index: int, count: int, steps: nat)
    requires 0 <= index < count
    ensures NextTimes(index, count, steps) == (index + steps) % count
  {
    if steps > 0 {
      NextTimesIsModular(index, count, steps - 1);
      var prev := NextTimes(index, count, steps - 1);
      assert 0 <= prev < count;
      ModSucc(index + steps - 1, count);
    }
  }

  lemma ModSucc(a: int, count: int)
    requires count > 0
    ensures (a % count + 1) % count == (a + 1) % count
  {
    var q, m := a / count, a % count;
    if m + 1 < count {
      ModUnique(a + 1, q, m + 1, count);
      ModUnique(m + 1, 0, m + 1, count);
    } else {
      ModUnique(a + 1, q + 1, 0, count);
      ModUnique(m + 1, 1, 0, count);
    }
  }

  /** The remainder is the one below the divisor. */
  lemma ModUnique(x: int, q: int, m: int, count: int)
    requires count > 0 && 0 <= m < count && x == q * count + m
    ensures x % count == m
  {
    var q2, m2 := x / count, x % count;
    assert x == q2 * count + m2;
    var d := q - q2;
    assert d * count == q * count - q2 * count;
    assert d * count == m2 - m;
    if d >= 1 {
      assert d * count == (d - 1) * count + count;
      NonNegProduct(d - 1, count);
    } else if d <= -1 {
      assert -d * count == (-d - 1) * count + count;
      NonNegProduct(-d - 1, count);
    }
  }

  lemma NonNegProduct(a: int, b: int)
    requires a >= 0 && b >= 0
    ensures a * b >= 0
  {
  }

  lemma FullCycle(index: int, count: int)
    requires 0 <= index < count
    ensures NextTimes(index, count, count) == index
  {
    NextTimesIsModular(index, count, count);
    ModUnique(index + count, 1, index, count);
  }

  // ---------------------------------------------------------------------
  // Applying

  const LogInToApply: string := "B\U{1EA1}n ph\U{1EA3}i \U{111}\U{103}ng nh\U{1EAD}p \U{111}\U{1EC3} \U{1EE9}ng tuy\U{1EC3}n c\U{F4}ng vi\U{1EC7}c n\U{E0}y"
  const TrackSuffix: string := " B\U{1EA1}n c\U{F3} th\U{1EC3} theo d\U{F5}i tr\U{1EA1}ng th\U{E1}i trong L\U{1ECB}ch s\U{1EED} \U{1EE9}ng tuy\U{1EC3}n."
  const ApplyFailed: string := "C\U{F3} l\U{1ED7}i x\U{1EA3}y ra khi \U{1EE9}ng tuy\U{1EC3}n"
  const CannotConnect: string := "Kh\U{F4}ng th\U{1EC3} k\U{1EBF}t n\U{1ED1}i \U{111}\U{1EBF}n server. Vui l\U{F2}ng th\U{1EED} l\U{1EA1}i."

  /** What pressing "apply" does first. */
  datatype ApplyStep = Ignored | AskToLogIn(notice: Notification) | Post(url: string)

  /** `handleApply` up to the request: nothing without a job id, a notice without a user. */
  function ApplyStart(jobGuid: string, loggedIn: bool, baseUrl: string): (r: ApplyStep)
    ensures r.Post? <==> jobGuid != "" && loggedIn
    ensures r.Post? ==> r.url == baseUrl + "/jobs/" + jobGuid + "/apply"
    ensures r.Ignored? <==> jobGuid == ""
    ensures r.AskToLogIn? ==> r.notice == Notification(LogInToApply, "info")
  {
    if jobGuid == "" then Ignored
    else if !loggedIn then AskToLogIn(Notification(LogInToApply, "info"))
    else Post(baseUrl + "/jobs/" + jobGuid + "/apply")
  }

  /** How the request ends: a reply, an HTTP error with or without a body, or no HTTP error at all. */
  datatype ApplyReply =
    | Delivered(message: Option<string>, messageType: string)
    | HttpError(body: Option<(string, string)>)
    | OtherError

  /** The notice after the request; a missing message in a reply prints as `undefined`. */
  function ApplyNotice(reply: ApplyReply): (r: Notification)
    ensures reply.Delivered? ==>
      r.message == (if reply.message.Some? then reply.message.value else "undefined") + TrackSuffix &&
      r.kind == Or(reply.messageType, "success")
    ensures reply.HttpError? && reply.body.None? ==> r == Notification(ApplyFailed, "error")
    ensures reply.HttpError? && reply.body.Some? ==>
      r == Notification(Or(reply.body.value.0, ApplyFailed), Or(reply.body.value.1, "error"))
    ensures reply.OtherError? ==> r == Notification(CannotConnect, "error")
    ensures r.message != "" && r.kind != ""
  {
    match reply
    case Delivered(message, messageType) =>
      Notification((if message.Some? then message.value else "undefined") + TrackSuffix, Or(messageType, "success"))
    case HttpError(body) =>
      if body.None? then Notification(ApplyFailed, "error")
      else Notification(Or(body.value.0, ApplyFailed), Or(body.value.1, "error"))
    case OtherError => Notification(CannotConnect, "error")
  }

  /** Without a signed-in user no request is sent, and with a job id the user is told to log in. */
  lemma NoUserNoRequest(jobGuid: string, baseUrl: string)
    ensures !ApplyStart(jobGuid, false, baseUrl).Post?
    ensures jobGuid != "" ==> ApplyStart(jobGuid, false, baseUrl) == AskToLogIn(Notification(LogInToApply, "info"))
  {
  }
}
