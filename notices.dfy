/**
 * The notice board: notices with a display window, the browser's `localStorage` slot that
 * keeps them across reloads, and the handlers that post, delete, clear and expire notices.
 * Instants are integers (milliseconds on the browser clock); `new Date(text)` on the form's
 * date and time inputs is the parameter `toInstant`.
 */
module Notices {
  import opened Common

  /** A stored notice; `createdAt`, `scheduledFor` and `expiresAt` are instants. */
  datatype Notice = Notice(
    id: int, title: string, content: string, author: string,
    createdAt: int, scheduledFor: int, expiresAt: int)

  /** isNoticeVisible: scheduled at or before `now` and expiring strictly after it. */
  predicate IsNoticeVisible(n: Notice, now: int) {
    n.scheduledFor <= now && n.expiresAt > now
  }

  /** A notice is shown from its scheduled instant up to, and not at, its expiry instant. */
  lemma VisibilityWindow(n: Notice, now: int)
    ensures IsNoticeVisible(n, now) <==> n.scheduledFor <= now < n.expiresAt
    ensures !IsNoticeVisible(n, n.expiresAt)
    ensures now < n.scheduledFor ==> !IsNoticeVisible(n, now)
  {
  }

  /** The notices on display at `now`, in list order. */
  function VisibleNotices(notices: seq<Notice>, now: int): (r: seq<Notice>)
    ensures forall n :: n in r <==> n in notices && IsNoticeVisible(n, now)
    ensures IsSubsequence(r, notices)
  {
    Filter(notices, (n: Notice) => IsNoticeVisible(n, now))
  }

  /** The notices that have not expired at `now`, in list order (the cleanup filter). */
  function ActiveNotices(notices: seq<Notice>, now: int): (r: seq<Notice>)
    ensures forall n :: n in r <==> n in notices && n.expiresAt > now
    ensures IsSubsequence(r, notices)
  {
    Filter(notices, (n: Notice) => n.expiresAt > now)
  }

  /** The notices whose id differs from `id`, in list order (the delete filter). */
  function WithoutId(notices: seq<Notice>, id: int): (r: seq<Notice>)
    ensures forall n :: n in r <==> n in notices && n.id != id
    ensures IsSubsequence(r, notices)
  {
    Filter(notices, (n: Notice) => n.id != id)
  }

  /** The visible list is an order-preserving sub-list, so the hidden count is a natural number. */
  lemma VisibleIsSublist(notices: seq<Notice>, now: int)
    ensures IsSubsequence(VisibleNotices(notices, now), notices)
    ensures |VisibleNotices(notices, now)| <= |notices|
    ensures forall n :: n in VisibleNotices(notices, now) <==> n in notices && IsNoticeVisible(n, now)
  {
  }

  /** Cleanup keeps exactly the unexpired notices, in order, and keeps the list whole when none expired. */
  lemma CleanupKeepsActive(notices: seq<Notice>, now: int)
    ensures forall n :: n in ActiveNotices(notices, now) <==> n in notices && n.expiresAt > now
    ensures IsSubsequence(ActiveNotices(notices, now), notices)
    ensures |ActiveNotices(notices, now)| == |notices| <==> forall n :: n in notices ==> n.expiresAt > now
    ensures |ActiveNotices(notices, now)| == |notices| ==> ActiveNotices(notices, now) == notices
  {
    FilterKeepsAll(notices, (n: Notice) => n.expiresAt > now);
  }

  /** Removing the expired notices never changes what is on display. */
  lemma CleanupKeepsDisplay(notices: seq<Notice>, now: int)
    ensures VisibleNotices(ActiveNotices(notices, now), now) == VisibleNotices(notices, now)
  {
    FilterFilter(notices, (n: Notice) => n.expiresAt > now, (n: Notice) => IsNoticeVisible(n, now));
  }

  /** A later cleanup after an earlier one leaves what the later one alone would leave. */
  lemma CleanupLater(notices: seq<Notice>, now: int, later: int)
    requires now <= later
    ensures ActiveNotices(ActiveNotices(notices, now), later) == ActiveNotices(notices, later)
  {
    FilterFilter(notices, (n: Notice) => n.expiresAt > now, (n: Notice) => n.expiresAt > later);
  }

  /** Delete removes every notice carrying the id and keeps all the others in order. */
  lemma DeleteRemovesId(notices: seq<Notice>, id: int)
    ensures forall n :: n in WithoutId(notices, id) <==> n in notices && n.id != id
    ensures IsSubsequence(WithoutId(notices, id), notices)
    ensures WithoutId(notices, id) == notices <==> forall n :: n in notices ==> n.id != id
  {
    FilterKeepsAll(notices, (n: Notice) => n.id != id);
  }

  /**
   * The characters `String.prototype.trim` removes: the ECMAScript WhiteSpace set
   * (tab, vertical tab, form feed, space, no-break space, the byte order mark and the
   * other space separators of Unicode category Zs) and the LineTerminator set.
   */
  predicate IsWhitespace(c: char) {
    || c == '\t' || c == '\U{000B}' || c == '\U{000C}' || c == ' ' || c == '\U{00A0}' || c == '\U{FEFF}'
    || c == '\U{1680}' || ('\U{2000}' <= c <= '\U{200A}') || c == '\U{202F}' || c == '\U{205F}' || c == '\U{3000}'
    || c == '\n' || c == '\r' || c == '\U{2028}' || c == '\U{2029}'
  }

  /** The length of the longest prefix of `s` made of characters in the class `ws`. */
  function LeadingRun(s: string, ws: char -> bool): nat {
    if s != [] && ws(s[0]) then 1 + LeadingRun(s[1..], ws) else 0
  }

  /** The length of the longest suffix of `s` made of characters in the class `ws`. */
  function TrailingRun(s: string, ws: char -> bool): nat {
    if s != [] && ws(s[|s| - 1]) then 1 + TrailingRun(s[..|s| - 1], ws) else 0
  }

  /** The leading run fits in `s`, holds only class characters, and stops at one outside the class. */
  lemma {:induction false} LeadingRunShape(s: string, ws: char -> bool)
    ensures LeadingRun(s, ws) <= |s|
    ensures forall i :: 0 <= i < LeadingRun(s, ws) ==> ws(s[i])
    ensures LeadingRun(s, ws) < |s| ==> !ws(s[LeadingRun(s, ws)])
  {
    if s != [] && ws(s[0]) {
      var t := s[1..];
      LeadingRunShape(t, ws);
      var k := LeadingRun(t, ws);
      assert LeadingRun(s, ws) == k + 1;
      forall i | 0 <= i < k + 1 ensures ws(s[i]) {
        if i > 0 {
          assert s[i] == t[i - 1];
        }
      }
      if k + 1 < |s| {
        assert s[k + 1] == t[k];
      }
    }
  }

  /** The trailing run fits in `s`, holds only class characters, and stops at one outside the class. */
  lemma {:induction false} TrailingRunShape(s: string, ws: char -> bool)
    ensures TrailingRun(s, ws) <= |s|
    ensures forall i :: |s| - TrailingRun(s, ws) <= i < |s| ==> ws(s[i])
    ensures TrailingRun(s, ws) < |s| ==> !ws(s[|s| - 1 - TrailingRun(s, ws)])
  {
    if s != [] && ws(s[|s| - 1]) {
      var t := s[..|s| - 1];
      TrailingRunShape(t, ws);
      var k := TrailingRun(t, ws);
      assert TrailingRun(s, ws) == k + 1;
      forall i | |s| - (k + 1) <= i < |s| ensures ws(s[i]) {
        if i < |s| - 1 {
          assert s[i] == t[i];
        }
      }
      if k + 1 < |s| {
        assert s[|s| - 1 - (k + 1)] == t[|t| - 1 - k];
      }
    }
  }

  /** `s` without its leading and trailing runs of class characters. */
  function Strip(s: string, ws: char -> bool): string {
    LeadingRunShape(s, ws);
    var t := s[LeadingRun(s, ws)..];
    TrailingRunShape(t, ws);
    t[..|t| - TrailingRun(t, ws)]
  }

  /**
   * String.prototype.trim: the result is empty exactly when the text is all whitespace,
   * and otherwise starts and ends with a character that is not whitespace.
   */
  function Trim(s: string): (r: string)
    ensures r == "" <==> forall i :: 0 <= i < |s| ==> IsWhitespace(s[i])
    ensures r != "" ==> !IsWhitespace(r[0]) && !IsWhitespace(r[|r| - 1])
  {
    StripEmpty(s, IsWhitespace);
    StripSettled(s, IsWhitespace);
    Strip(s, IsWhitespace)
  }

  /** Stripping leaves nothing exactly when every character is in the class. */
  lemma StripEmpty(s: string, ws: char -> bool)
    ensures Strip(s, ws) == "" <==> forall i :: 0 <= i < |s| ==> ws(s[i])
  {
    LeadingRunShape(s, ws);
    var k := LeadingRun(s, ws);
    var t := s[k..];
    TrailingRunShape(t, ws);
    if k < |s| {
      assert t[0] == s[k];
    }
  }

  /** Stripping leaves class characters at neither end, and a second pass changes nothing. */
  lemma StripSettled(s: string, ws: char -> bool)
    ensures var r := Strip(s, ws); r != "" ==> !ws(r[0]) && !ws(r[|r| - 1])
    ensures Strip(Strip(s, ws), ws) == Strip(s, ws)
  {
    LeadingRunShape(s, ws);
    var k := LeadingRun(s, ws);
    var t := s[k..];
    TrailingRunShape(t, ws);
    var r := Strip(s, ws);
    assert r == t[..|t| - TrailingRun(t, ws)];
    if r != "" {
      assert r[0] == t[0] == s[k];
      assert r[|r| - 1] == t[|t| - 1 - TrailingRun(t, ws)];
      assert LeadingRun(r, ws) == 0;
      assert r[LeadingRun(r, ws)..] == r;
      assert TrailingRun(r, ws) == 0;
      assert r[..|r| - 0] == r;
    }
  }

  /** Trimming twice is trimming once. */
  lemma TrimTrimmed(s: string)
    ensures Trim(Trim(s)) == Trim(s)
  {
    StripSettled(s, IsWhitespace);
  }

  /** JavaScript `a || b` on strings: `a` unless it is empty. */
  function Or(a: string, b: string): string {
    if a != "" then a else b
  }

  /** The scheduled instant: now without a schedule date, else the date at the given time or midnight. */
  function ScheduleInstant(scheduledDate: string, scheduledTime: string, now: int, toInstant: string -> int): (t: int)
    ensures scheduledDate == "" ==> t == now
    ensures scheduledDate != "" && scheduledTime == "" ==> t == toInstant(scheduledDate + "T" + "00:00")
    ensures scheduledDate != "" && scheduledTime != "" ==> t == toInstant(scheduledDate + "T" + scheduledTime)
  {
    if scheduledDate != "" then toInstant(scheduledDate + "T" + Or(scheduledTime, "00:00")) else now
  }

  /** The expiry instant: the expiry date at the given time, or at 23:59 when no time was chosen. */
  function ExpiryInstant(expiryDate: string, expiryTime: string, toInstant: string -> int): (t: int)
    ensures expiryTime == "" ==> t == toInstant(expiryDate + "T" + "23:59")
    ensures expiryTime != "" ==> t == toInstant(expiryDate + "T" + expiryTime)
  {
    toInstant(expiryDate + "T" + Or(expiryTime, "23:59"))
  }

  /** The two demonstration notices written when storage holds nothing. */
  function DemoNotices(toInstant: string -> int): (r: seq<Notice>)
    ensures |r| == 2 && r[0].id == 1 && r[1].id == 2
  {
    [ Notice(1, "Staff Meeting", "Staff meeting tomorrow at 2 PM in the main hall", "Principal",
             toInstant("2023-05-15T10:00:00"), toInstant("2023-05-15T10:00:00"), toInstant("2023-05-17T16:00:00")),
      Notice(2, "Grade 10 Papers", "Grade 10 papers need to be submitted by Friday", "Vice Principal",
             toInstant("2023-05-14T08:30:00"), toInstant("2023-05-14T09:00:00"), toInstant("2023-05-19T17:00:00")) ]
  }

  /** The six inputs of the posting form. */
  datatype FormField = Content | Title | ScheduledDate | ScheduledTime | ExpiryDate | ExpiryTime

  /** The component's state: the notice list, the six form inputs, and the `noticeBoardData` storage slot. */
  class NoticeBoard {
    var notices: seq<Notice>
    var newNotice: string
    var noticeTitle: string
    var scheduledDate: string
    var scheduledTime: string
    var expiryDate: string
    var expiryTime: string
    /** The storage slot: absent, or the list last written to it. */
    var storage: Option<seq<Notice>>

    /** Whenever the list is not empty, storage holds exactly that list. */
    ghost predicate Valid()
      reads this
    {
      notices != [] ==> storage == Some(notices)
    }

    /** True when all six inputs are empty, as after mounting or an accepted post. */
    predicate FormCleared()
      reads this`newNotice, this`noticeTitle, this`scheduledDate, this`scheduledTime, this`expiryDate, this`expiryTime
    {
      newNotice == "" && noticeTitle == "" && scheduledDate == "" && scheduledTime == ""
      && expiryDate == "" && expiryTime == ""
    }

    /**
     * Mounting: a present slot is loaded as the list (a stored empty list stays empty);
     * an absent slot leads to the demonstration notices, which are also written to storage.
     */
    constructor (saved: Option<seq<Notice>>, toInstant: string -> int)
      ensures Valid() && FormCleared()
      ensures saved.Some? ==> notices == saved.value && storage == saved
      ensures saved.None? ==> notices == DemoNotices(toInstant) && storage == Some(DemoNotices(toInstant))
    {
      newNotice, noticeTitle := "", "";
      scheduledDate, scheduledTime, expiryDate, expiryTime := "", "", "", "";
      if saved.Some? {
        notices := saved.value;
        storage := saved;
      } else {
        notices := DemoNotices(toInstant);
        storage := Some(notices);
      }
    }

    /** The effect that runs after the list changes: it writes a non-empty list and leaves storage alone otherwise. */
    method SaveOnChange()
      modifies this`storage
      ensures notices != [] ==> storage == Some(notices)
      ensures notices == [] ==> storage == old(storage)
    {
      if |notices| > 0 {
        storage := Some(notices);
      }
    }

    /** The list on display at `now`. */
    function Visible(now: int): (r: seq<Notice>)
      reads this
      ensures IsSubsequence(r, notices)
      ensures forall n :: n in r <==> n in notices && IsNoticeVisible(n, now)
    {
      VisibleIsSublist(notices, now);
      VisibleNotices(notices, now)
    }

    /** The "notice(s) are scheduled for future display or have expired" count. */
    function HiddenCount(now: int): (k: nat)
      reads this
      ensures k == 0 <==> Visible(now) == notices
      ensures k == |notices| - |Visible(now)|
    {
      SubsequenceLength(Visible(now), notices);
      |notices| - |Visible(now)|
    }

    /** The onChange handler of one of the six inputs. */
    method Edit(field: FormField, value: string)
      modifies this
      ensures notices == old(notices) && storage == old(storage)
      ensures newNotice == (if field == Content then value else old(newNotice))
      ensures noticeTitle == (if field == Title then value else old(noticeTitle))
      ensures scheduledDate == (if field == ScheduledDate then value else old(scheduledDate))
      ensures scheduledTime == (if field == ScheduledTime then value else old(scheduledTime))
      ensures expiryDate == (if field == ExpiryDate then value else old(expiryDate))
      ensures expiryTime == (if field == ExpiryTime then value else old(expiryTime))
    {
      match field
      case Content => newNotice := value;
      case Title => noticeTitle := value;
      case ScheduledDate => scheduledDate := value;
      case ScheduledTime => scheduledTime := value;
      case ExpiryDate => expiryDate := value;
      case ExpiryTime => expiryTime := value;
    }

    /**
     * handleSubmit: with non-blank content and title and an expiry date, puts a new notice by "You"
     * at the front of the list, clears the form and saves the list; otherwise changes nothing.
     */
    method Submit(now: int, id: int, toInstant: string -> int) returns (accepted: bool)
      requires Valid()
      modifies this
      ensures Valid()
      ensures accepted <==> Trim(old(newNotice)) != "" && Trim(old(noticeTitle)) != "" && old(expiryDate) != ""
      ensures accepted ==> FormCleared()
      ensures accepted ==> notices == [Notice(id, old(noticeTitle), old(newNotice), "You", now,
                                              ScheduleInstant(old(scheduledDate), old(scheduledTime), now, toInstant),
                                              ExpiryInstant(old(expiryDate), old(expiryTime), toInstant))] + old(notices)
      ensures accepted ==> storage == Some(notices)
      ensures !accepted ==> notices == old(notices) && storage == old(storage)
      ensures !accepted ==>
        (newNotice, noticeTitle, scheduledDate, scheduledTime, expiryDate, expiryTime)
        == old((newNotice, noticeTitle, scheduledDate, scheduledTime, expiryDate, expiryTime))
    {
      accepted := Trim(newNotice) != "" && Trim(noticeTitle) != "" && expiryDate != "";
      if accepted {
        var scheduledFor := ScheduleInstant(scheduledDate, scheduledTime, now, toInstant);
        var expiresAt := ExpiryInstant(expiryDate, expiryTime, toInstant);
        var notice := Notice(id, noticeTitle, newNotice, "You", now, scheduledFor, expiresAt);
        notices := [notice] + notices;
        newNotice, noticeTitle := "", "";
        scheduledDate, scheduledTime, expiryDate, expiryTime := "", "", "", "";
        SaveOnChange();
      }
    }

    /** deleteNotice: drops every notice with the id; removes the slot when nothing is left, else overwrites it. */
    method Delete(id: int)
      requires Valid()
      modifies this`notices, this`storage
      ensures Valid()
      ensures notices == WithoutId(old(notices), id)
      ensures storage == if notices == [] then None else Some(notices)
    {
      notices := WithoutId(notices, id);
      if |notices| == 0 {
        storage := None;
      } else {
        storage := Some(notices);
      }
      SaveOnChange();
    }

    /** clearAllNotices: after confirmation, empties the list and removes the slot; otherwise nothing happens. */
    method ClearAll(confirmed: bool)
      requires Valid()
      modifies this`notices, this`storage
      ensures Valid()
      ensures confirmed ==> notices == [] && storage == None
      ensures !confirmed ==> notices == old(notices) && storage == old(storage)
    {
      if confirmed {
        notices := [];
        storage := None;
        SaveOnChange();
      }
    }

    /**
     * cleanupExpiredNotices: replaces the list by its unexpired notices when at least one expired.
     * When every notice expired the list becomes empty and the save effect leaves the old list in storage.
     */
    method Cleanup(now: int)
      requires Valid()
      modifies this`notices, this`storage
      ensures Valid()
      ensures notices == ActiveNotices(old(notices), now)
      ensures notices != [] ==> storage == Some(notices)
      ensures notices == [] ==> storage == old(storage)
    {
      var activeNotices := ActiveNotices(notices, now);
      CleanupKeepsActive(notices, now);
      if |activeNotices| != |notices| {
        notices := activeNotices;
        SaveOnChange();
      }
    }
  }
}
