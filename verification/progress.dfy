/**
 * Progress reported while passes run. The passes share the window from 15% to
 * 85% of the overall bar in equal slices; a pass announces itself at the start
 * of its slice and, while the engine reports its own completion fraction,
 * moves through that slice.
 */
module Progress {
  import opened Text

  const WindowStart: real := 15.0
  const WindowWidth: real := 70.0

  /** One `onProgress(text, percent)` event. */
  datatype Event = Event(text: string, percent: real)

  /** `Pass <attempt>/<maxPasses>...` */
  function PassLabel(attempt: nat, maxPasses: nat): string {
    "Pass " + NatToString(attempt) + "/" + NatToString(maxPasses) + "..."
  }

  /** The percentage announced when pass `attempt` (1-based) starts. */
  function PassStartPercent(attempt: nat, maxPasses: nat): (r: real)
    requires 1 <= attempt && 1 <= maxPasses
    ensures attempt == 1 ==> r == WindowStart
    ensures attempt <= maxPasses ==> WindowStart <= r < WindowStart + WindowWidth
    ensures attempt == maxPasses + 1 ==> r == WindowStart + WindowWidth
  {
    var progressBase := (attempt - 1) as real / maxPasses as real;
    WindowStart + progressBase * WindowWidth
  }

  /** The event announcing the start of a pass. */
  function PassStart(attempt: nat, maxPasses: nat): (e: Event)
    requires 1 <= attempt && 1 <= maxPasses
  {
    Event(PassLabel(attempt, maxPasses), PassStartPercent(attempt, maxPasses))
  }

  /** The start-of-pass events of passes 1 to `n`, in order. */
  function Announcements(maxPasses: nat, n: nat): (events: seq<Event>)
    requires 1 <= maxPasses
    ensures |events| == n
  {
    if n == 0 then [] else Announcements(maxPasses, n - 1) + [PassStart(n, maxPasses)]
  }

  lemma {:induction false} AnnouncementAt(maxPasses: nat, n: nat, i: nat)
    requires 1 <= maxPasses && i < n
    ensures Announcements(maxPasses, n)[i] == PassStart(i + 1, maxPasses)
  {
    if i < n - 1 {
      AnnouncementAt(maxPasses, n - 1, i);
    }
  }

  lemma AnnouncementsEach(maxPasses: nat, n: nat)
    requires 1 <= maxPasses
    ensures forall i :: 0 <= i < n ==> Announcements(maxPasses, n)[i] == PassStart(i + 1, maxPasses)
  {
    forall i | 0 <= i < n
      ensures Announcements(maxPasses, n)[i] == PassStart(i + 1, maxPasses)
    {
      AnnouncementAt(maxPasses, n, i);
    }
  }

  /** The announcements of the first `n` passes move strictly forward and stay inside the 15%-85% window. */
  lemma AnnouncementsIncreasing(maxPasses: nat, n: nat)
    requires 1 <= maxPasses && n <= maxPasses
    ensures var events := Announcements(maxPasses, n);
      && (forall i :: 0 <= i < n ==> WindowStart <= events[i].percent < WindowStart + WindowWidth)
      && (forall i, j :: 0 <= i < j < n ==> events[i].percent < events[j].percent)
  {
    var events := Announcements(maxPasses, n);
    AnnouncementsEach(maxPasses, n);
    forall i, j | 0 <= i < j < n
      ensures events[i].percent < events[j].percent
    {
      PassStartIncreasing(i + 1, j + 1, maxPasses);
    }
  }

  /** Later passes start strictly further along the bar. */
  lemma PassStartIncreasing(a: nat, b: nat, maxPasses: nat)
    requires 1 <= a < b && 1 <= maxPasses
    ensures PassStartPercent(a, maxPasses) < PassStartPercent(b, maxPasses)
  {
    var m := maxPasses as real;
    assert (a - 1) as real / m < (b - 1) as real / m by {
      assert (b - 1) as real / m - (a - 1) as real / m == (b - a) as real / m;
    }
  }

  /** The percentage reported when the engine says pass `attempt` is `fraction` done. */
  function InPassPercent(attempt: nat, maxPasses: nat, fraction: real): (r: real)
    requires 1 <= attempt && 1 <= maxPasses
    ensures 0.0 <= fraction <= 1.0 ==>
      PassStartPercent(attempt, maxPasses) <= r <= PassStartPercent(attempt + 1, maxPasses)
  {
    var progressBase := (attempt - 1) as real / maxPasses as real;
    var passProgress := progressBase + fraction / maxPasses as real;
    SliceBounds(attempt, maxPasses, fraction);
    WindowStart + passProgress * WindowWidth
  }

  lemma SliceBounds(attempt: nat, maxPasses: nat, fraction: real)
    requires 1 <= attempt && 1 <= maxPasses
    ensures 0.0 <= fraction <= 1.0 ==>
      (attempt - 1) as real / maxPasses as real
        <= (attempt - 1) as real / maxPasses as real + fraction / maxPasses as real
        <= attempt as real / maxPasses as real
  {
    var m := maxPasses as real;
    assert attempt as real / m == (attempt - 1) as real / m + 1.0 / m;
    if 0.0 <= fraction <= 1.0 {
      assert fraction / m <= 1.0 / m;
      assert 0.0 <= fraction / m;
    }
  }

  /** Within a pass the bar follows the engine's fraction without going backwards. */
  lemma InPassMonotone(attempt: nat, maxPasses: nat, f1: real, f2: real)
    requires 1 <= attempt && 1 <= maxPasses && f1 <= f2
    ensures InPassPercent(attempt, maxPasses, f1) <= InPassPercent(attempt, maxPasses, f2)
  {
    var m := maxPasses as real;
    assert f1 / m <= f2 / m;
  }
}
