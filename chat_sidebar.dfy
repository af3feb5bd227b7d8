/**
 * The pure helpers and the collapse flag of components/layout/ChatSidebar.tsx:
 * the user's initials, the relative date shown next to a conversation, and
 * the collapsed state kept under the `sidebarCollapsed` storage key.
 *
 * Instants are integer milliseconds; an unreadable date string is `None`.
 */
module ChatSidebar {
  import opened Wrappers
  import Avatar

  /** `getInitials(name?)`: "?" for a missing or empty name, else the avatar's initials. */
  function SidebarInitials(name: Option<string>): (r: string)
    ensures !Truthy(name) ==> r == "?"
    ensures Truthy(name) ==> r == Avatar.Initials(name.value) && |r| <= 2
  {
    if !Truthy(name) then "?" else Avatar.Initials(name.value)
  }

  /** The sidebar and an avatar without an image show the same thing for the same name. */
  lemma SidebarAgreesWithAvatar(name: Option<string>)
    ensures Avatar.AvatarContent(name, None) == Avatar.Letters(SidebarInitials(name))
  {
  }

  const DayMs: nat := 1000 * 60 * 60 * 24

  function Abs(x: int): nat
  {
    if x < 0 then -x else x
  }

  /** `Math.ceil(ms / DayMs)` for a non-negative `ms`. */
  function DiffDays(ms: nat): (n: nat)
    ensures ms <= n * DayMs
    ensures n > 0 ==> (n - 1) * DayMs < ms
    ensures n == 0 <==> ms == 0
  {
    (ms + DayMs - 1) / DayMs
  }

  /** The label; the calendar form `toLocaleDateString` prints is not modelled. */
  datatype DateLabel = Today | Yesterday | DaysAgo(n: nat) | CalendarDate

  /**
   * `formatDate`: the distance to now, in whole days rounded up; an
   * unreadable date makes every comparison fail and falls to the calendar
   * form.
   */
  function FormatDate(nowMs: int, dateMs: Option<int>): (l: DateLabel)
    ensures l == Today <==> dateMs == Some(nowMs)
    ensures l == Yesterday <==> dateMs.Some? && 0 < Abs(nowMs - dateMs.value) <= DayMs
    ensures l.DaysAgo? <==> dateMs.Some? && DayMs < Abs(nowMs - dateMs.value) <= 6 * DayMs
    ensures l.DaysAgo? ==> 2 <= l.n <= 6 && (l.n - 1) * DayMs < Abs(nowMs - dateMs.value) <= l.n * DayMs
    ensures l == CalendarDate <==> dateMs.None? || Abs(nowMs - dateMs.value) > 6 * DayMs
  {
    if dateMs.None? then CalendarDate
    else
      var diffDays := DiffDays(Abs(nowMs - dateMs.value));
      if diffDays == 0 then Today
      else if diffDays == 1 then Yesterday
      else if diffDays < 7 then DaysAgo(diffDays)
      else CalendarDate
  }

  /** The distance is absolute: a date in the future is labelled like the same distance in the past. */
  lemma FormatDateSymmetric(a: int, b: int)
    ensures FormatDate(a, Some(b)) == FormatDate(b, Some(a))
  {
  }

  /** "Today" means the same instant: a conversation one millisecond old already reads "Yesterday". */
  lemma OneMillisecondIsYesterday(nowMs: int)
    ensures FormatDate(nowMs, Some(nowMs - 1)) == Yesterday
  {
  }

  /** The label counts 24-hour spans, not calendar days: five hours ago reads "Yesterday" even on the same day. */
  lemma FiveHoursAgoIsYesterday(nowMs: int)
    ensures FormatDate(nowMs, Some(nowMs - 5 * 60 * 60 * 1000)) == Yesterday
  {
  }

  /** `isCollapsed.toString()`. */
  function BoolText(b: bool): string
  {
    if b then "true" else "false"
  }

  /** The mount effect: a saved value wins and only "true" reads as collapsed. */
  function Restored(current: bool, saved: Option<string>): bool
  {
    if saved.None? then current else saved.value == "true"
  }

  /** What the save effect writes is read back as the same state. */
  lemma RestoreRoundTrip(current: bool, b: bool)
    ensures Restored(current, Some(BoolText(b))) == b
  {
  }

  class Sidebar {
    var isCollapsed: bool
    /** The value stored under `sidebarCollapsed`. */
    var stored: Option<string>

    /** The stored value always reflects the flag once the effects have run. */
    predicate Valid()
      reads this
    {
      stored == Some(BoolText(isCollapsed))
    }

    /** Mounting with `saved` in storage: the load effect, then the save effect. */
    constructor (saved: Option<string>)
      ensures Valid()
      ensures isCollapsed == Restored(false, saved)
    {
      isCollapsed := Restored(false, saved);
      stored := Some(BoolText(Restored(false, saved)));
    }

    /** `toggleCollapse`, followed by the save effect. */
    method ToggleCollapse()
      requires Valid()
      modifies this
      ensures Valid()
      ensures isCollapsed == !old(isCollapsed)
    {
      isCollapsed := !isCollapsed;
      stored := Some(BoolText(isCollapsed));
    }
  }

  /** Toggling twice restores the flag, and a remount reads back the state the flag was left in. */
  method ToggleTwiceAndRemount(saved: Option<string>)
    returns (initial: bool, afterTwice: bool, afterOnce: bool, remounted: bool)
    ensures afterTwice == initial && afterOnce == !initial
    ensures remounted == afterOnce
  {
    var s := new Sidebar(saved);
    initial := s.isCollapsed;
    s.ToggleCollapse();
    s.ToggleCollapse();
    afterTwice := s.isCollapsed;
    s.ToggleCollapse();
    afterOnce := s.isCollapsed;
    var again := new Sidebar(s.stored);
    RestoreRoundTrip(false, afterOnce);
    remounted := again.isCollapsed;
  }
}
