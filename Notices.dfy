/**
 * The notice page: an accordion over the notice list where the one
 * expanded notice is the one whose id equals a single optional value. That
 * value starts from the route's notice id, is reset from it whenever the
 * route changes, and is toggled by clicking a notice.
 */
module Notices {
  import opened Types

  datatype Notice = Notice(id: int, title: string, createdAt: string, url: Option<string>, detail: string)

  /** The JavaScript value held as the expanded id: `null`, a number, or
      `NaN` (what `Number` gives for anything that is not a numeral). */
  datatype NoticeRef = NullRef | NumberRef(n: int) | NaNRef

  /** What the page reports to its parent when the notice list fails to
      load. */
  datatype ErrorReport = ErrorReport(backHome: bool, message: string)

  const LoadError := "Oh. Somethings went wrong. Cannot load notices."

  predicate IsDigit(c: char)
  {
    '0' <= c <= '9'
  }

  /** The value of a string of decimal digits. */
  function DigitsValue(s: string): nat
    requires forall k :: 0 <= k < |s| ==> IsDigit(s[k])
  {
    if |s| == 0 then 0
    else
      assert IsDigit(s[|s| - 1]);
      DigitsValue(s[..|s| - 1]) * 10 + (s[|s| - 1] as int - '0' as int)
  }

  /** JavaScript's `Number` on a route parameter: `undefined` is `NaN`, the
      empty string is 0, a digit string is its value, anything else `NaN`. */
  function NumberOf(param: Option<string>): (r: NoticeRef)
    ensures r != NullRef
    ensures param.None? ==> r == NaNRef
    ensures param == Some("") ==> r == NumberRef(0)
  {
    match param
    case None => NaNRef
    case Some(s) =>
      if forall k :: 0 <= k < |s| ==> IsDigit(s[k]) then NumberRef(DigitsValue(s)) else NaNRef
  }

  /** The character of one decimal digit. */
  function DigitChar(d: nat): (c: char)
    requires d < 10
    ensures IsDigit(c) && c as int - '0' as int == d
  {
    ('0' as int + d) as char
  }

  /** JavaScript's decimal rendering of a non-negative integer, as it is
      written into a notice link: no sign, no leading zeros. */
  function DecimalString(n: nat): (r: string)
    ensures |r| > 0
    ensures forall k :: 0 <= k < |r| ==> IsDigit(r[k])
    ensures |r| > 1 ==> r[0] != '0'
  {
    if n < 10 then [DigitChar(n)] else DecimalString(n / 10) + [DigitChar(n % 10)]
  }

  /** `Number` undoes the decimal rendering: a rendered id read back from the
      route is the same id, both as the route-sync value and as the initial
      value. */
  lemma {:induction false} DecimalRoundTrip(n: nat)
    ensures DigitsValue(DecimalString(n)) == n
    ensures NumberOf(Some(DecimalString(n))) == NumberRef(n)
    ensures InitialRef(Some(DecimalString(n))) == NumberRef(n)
  {
    var s := DecimalString(n);
    if n >= 10 {
      DecimalRoundTrip(n / 10);
      assert s[..|s| - 1] == DecimalString(n / 10);
    }
  }

  /** The initial value: `Number(noticeId)` for a non-empty parameter,
      `null` otherwise. */
  function InitialRef(param: Option<string>): (r: NoticeRef)
    ensures param.None? || param == Some("") ==> r == NullRef
    ensures param.Some? && param != Some("") ==> r == NumberOf(param)
  {
    if param.None? || param.value == "" then NullRef else NumberOf(param)
  }

  /** `handleExpand`'s update: collapse when `id` is the expanded one,
      otherwise expand `id`. */
  function Toggle(prev: NoticeRef, id: int): (r: NoticeRef)
    ensures r == NullRef <==> prev == NumberRef(id)
    ensures r.NumberRef? ==> r.n == id
    ensures r != NaNRef
  {
    if prev == NumberRef(id) then NullRef else NumberRef(id)
  }

  /** Whether the notice with this id is rendered expanded. */
  predicate Expanded(current: NoticeRef, id: int): (r: bool)
    ensures r ==> current.NumberRef? && current.n == id
    ensures !current.NumberRef? ==> !r
  {
    current == NumberRef(id)
  }

  /** Toggling a notice flips its own state and collapses every other. */
  lemma ToggleFlips(prev: NoticeRef, id: int, other: int)
    ensures Expanded(Toggle(prev, id), id) <==> !Expanded(prev, id)
    ensures other != id ==> !Expanded(Toggle(prev, id), other)
  {
  }

  /** Notice ids are unique within the list. */
  predicate UniqueIds(notices: seq<Notice>)
  {
    forall i, j :: 0 <= i < j < |notices| ==> notices[i].id != notices[j].id
  }

  /** The expanded flag of each rendered accordion, in list order. */
  function ExpandedFlags(notices: seq<Notice>, current: NoticeRef): (flags: seq<bool>)
    ensures |flags| == |notices|
    ensures forall i :: 0 <= i < |notices| ==> (flags[i] <==> Expanded(current, notices[i].id))
  {
    seq(|notices|, i requires 0 <= i < |notices| => Expanded(current, notices[i].id))
  }

  /** With unique ids, at most one notice is expanded; with `null` or `NaN`
      none is. */
  lemma AtMostOneExpanded(notices: seq<Notice>, current: NoticeRef, i: int, j: int)
    requires UniqueIds(notices)
    requires 0 <= i < |notices| && 0 <= j < |notices|
    ensures ExpandedFlags(notices, current)[i] && ExpandedFlags(notices, current)[j] ==> i == j
    ensures !current.NumberRef? ==> !ExpandedFlags(notices, current)[i]
  {
  }

  /** The date shown for a notice: the first ten characters of its creation
      timestamp (all of it when shorter). */
  function DisplayDate(createdAt: string): (r: string)
    ensures |r| == (if |createdAt| < 10 then |createdAt| else 10)
    ensures createdAt == r + createdAt[|r|..]
  {
    if |createdAt| < 10 then createdAt else createdAt[..10]
  }

  class NoticePage {
    var noticeList: seq<Notice>
    var currentNoticeId: NoticeRef
    /** Whether the parent route's outlet context supplies `setError`. The
        application's root route supplies only `handleAddWishItem`, so there
        the call in the failure branch is itself a failure and nothing is
        reported. */
    const errorWired: bool

    constructor (noticeId: Option<string>, errorWired: bool)
      ensures noticeList == [] && currentNoticeId == InitialRef(noticeId)
      ensures this.errorWired == errorWired
    {
      noticeList := [];
      currentNoticeId := InitialRef(noticeId);
      this.errorWired := errorWired;
    }

    /** The list-loading effect; a failure is reported to the parent when
        its error callback is wired. */
    method LoadNotices(res: Fetch<seq<Notice>>) returns (report: Option<ErrorReport>)
      modifies this`noticeList
      ensures res.Ok? ==> noticeList == res.data && report == None
      ensures res.Failed? ==> noticeList == old(noticeList)
      ensures res.Failed? ==> report == (if errorWired then Some(ErrorReport(true, LoadError)) else None)
    {
      match res
      case Ok(data) =>
        noticeList := data;
        report := None;
      case Failed(_) =>
        report := if errorWired then Some(ErrorReport(true, LoadError)) else None;
    }

    /** The route-sync effect: `Number(noticeId)`, so an absent parameter
        gives `NaN`, which expands nothing. */
    method RouteChanged(noticeId: Option<string>)
      modifies this`currentNoticeId
      ensures currentNoticeId == NumberOf(noticeId)
      ensures noticeId.None? ==> forall id :: !Expanded(currentNoticeId, id)
    {
      currentNoticeId := NumberOf(noticeId);
    }

    /** `handleExpand`, applied to the latest value. */
    method HandleExpand(id: int)
      modifies this`currentNoticeId
      ensures currentNoticeId == Toggle(old(currentNoticeId), id)
      ensures Expanded(currentNoticeId, id) <==> !Expanded(old(currentNoticeId), id)
      ensures forall other :: other != id ==> !Expanded(currentNoticeId, other)
    {
      currentNoticeId := if currentNoticeId == NumberRef(id) then NullRef else NumberRef(id);
    }
  }
}
