/** Priority schedules: windows of the day that may wrap midnight, the location they
    select, the instants at which the selection can change, and their validation. */
module Schedule {
  import opened Config

  predicate WindowContains(start: Minute, end: Minute, minute: Minute) {
    if start < end then start <= minute < end else start <= minute || minute < end
  }

  predicate Readable(w: Window) {
    w.start.At? && w.end.At? && w.start != w.end
  }

  predicate Contains(w: Window, minute: Minute) {
    Readable(w) && WindowContains(w.start.minute, w.end.minute, minute)
  }

  function MinuteOf(t: Time): Minute {
    t % DAY / 60
  }

  /** The location of the first window open at `minute`, blank if none is. */
  function LocationAt(schedule: seq<Window>, minute: Minute): string {
    if schedule == [] then ""
    else if Contains(schedule[0], minute) then schedule[0].location
    else LocationAt(schedule[1..], minute)
  }

  function ActiveLocation(policy: Policy, now: Time): string {
    LocationAt(policy.schedule, MinuteOf(now))
  }

  function PreferredLocation(policy: Policy, now: Time): string {
    var scheduled := ActiveLocation(policy, now);
    if scheduled != "" then scheduled
    else if policy.targets == [] then ""
    else policy.targets[0]
  }

  // ----- what a schedule asks for -----

  /** The window is open at an instant: from its start to just before its end, over midnight if
      it ends earlier in the day than it starts. */
  ghost predicate OpenAt(w: Window, t: Time) {
    var second := t % 86400;
    && w.start.At? && w.end.At?
    && if w.start.minute <= w.end.minute then w.start.minute * 60 <= second < w.end.minute * 60
       else w.start.minute * 60 <= second || second < w.end.minute * 60
  }

  ghost predicate OpensFirst(schedule: seq<Window>, t: Time, i: nat) {
    i < |schedule| && OpenAt(schedule[i], t) && forall j :: 0 <= j < i ==> !OpenAt(schedule[j], t)
  }

  /** The location of the first open window, and the first target if none is open or names
      one. */
  ghost predicate FollowsSchedule(p: Policy, t: Time, location: string) {
    && (forall i: nat :: OpensFirst(p.schedule, t, i) && p.schedule[i].location != "" ==>
          location == p.schedule[i].location)
    && ((forall i: nat :: OpensFirst(p.schedule, t, i) ==> p.schedule[i].location == "") ==>
          location == if p.targets == [] then "" else p.targets[0])
  }

  lemma ContainsIffOpen(w: Window, t: Time)
    ensures Contains(w, MinuteOf(t)) <==> OpenAt(w, t)
  {
  }

  lemma {:induction false} LocationIsFirst(schedule: seq<Window>, t: Time)
    ensures forall i: nat :: OpensFirst(schedule, t, i) ==> LocationAt(schedule, MinuteOf(t)) == schedule[i].location
    ensures (forall i: nat :: !OpensFirst(schedule, t, i)) ==> LocationAt(schedule, MinuteOf(t)) == ""
  {
    hide OpenAt, Contains, MinuteOf;
    if schedule != [] {
      var rest := schedule[1..];
      ContainsIffOpen(schedule[0], t);
      LocationIsFirst(rest, t);
      assert forall i :: 0 < i < |schedule| ==> schedule[i] == rest[i - 1];
      if OpenAt(schedule[0], t) {
        assert OpensFirst(schedule, t, 0);
      } else {
        forall i: nat
          ensures OpensFirst(rest, t, i) <==> OpensFirst(schedule, t, i + 1)
        {
          assert i < |rest| ==> forall j :: 0 <= j < i ==> rest[j] == schedule[j + 1];
        }
        assert !OpensFirst(schedule, t, 0);
        forall i: nat | OpensFirst(schedule, t, i)
          ensures 0 < i && OpensFirst(rest, t, i - 1)
        {
        }
      }
    }
  }

  lemma PreferredFollows(p: Policy, t: Time)
    ensures FollowsSchedule(p, t, PreferredLocation(p, t))
  {
    hide OpensFirst, LocationAt, MinuteOf;
    LocationIsFirst(p.schedule, t);
  }

  // ----- boundaries -----

  /** Some readable clock time of the schedule strikes at instant `t`. */
  ghost predicate IsBoundary(schedule: seq<Window>, t: Time) {
    exists w :: w in schedule && (Strikes(w.start, t) || Strikes(w.end, t))
  }

  predicate Strikes(c: Clock, t: Time) {
    c.At? && t % DAY == c.minute * 60
  }

  ghost predicate HasClock(schedule: seq<Window>) {
    exists w :: w in schedule && (w.start.At? || w.end.At?)
  }

  /** The instant of clock `c` on the day that starts at `dayBase`. */
  function InstantOn(c: Clock, dayBase: Time): Time
    requires c.At?
  {
    dayBase + c.minute * 60
  }

  /** `next` is not later than the instant of `c` on that day, if that comes after `after`. */
  ghost predicate NotLater(next: Time, c: Clock, dayBase: Time, after: Time) {
    c.At? && after < InstantOn(c, dayBase) ==> 0 < next <= InstantOn(c, dayBase)
  }

  ghost predicate NotLaterThanDay(next: Time, schedule: seq<Window>, dayBase: Time, after: Time) {
    forall w :: w in schedule ==> NotLater(next, w.start, dayBase, after) && NotLater(next, w.end, dayBase, after)
  }

  /** 0 when no window has a readable clock (or `after` is unset), else the least
      boundary strictly after `after`. */
  method NextBoundary(policy: Policy, after: Time) returns (next: Time)
    ensures next == 0 <==> after == 0 || !HasClock(policy.schedule)
    ensures 0 < next ==> after < next <= after + DAY && IsBoundary(policy.schedule, next)
    ensures 0 < next ==> forall t :: after < t < next ==> !IsBoundary(policy.schedule, t)
  {
    var schedule := policy.schedule;
    if |schedule| == 0 || after == 0 {
      return 0;
    }
    var base := after - after % DAY;
    next := 0;
    for day := 0 to 3
      invariant 0 < next ==> after < next && IsBoundary(schedule, next)
      invariant forall d :: 0 <= d < day ==> NotLaterThanDay(next, schedule, base + d * DAY, after)
    {
      ghost var before := next;
      next := NextOnDay(schedule, base + day * DAY, after, next);
      forall d | 0 <= d < day {
        SoonerStaysNotLater(before, next, schedule, base + d * DAY, after);
      }
    }
    NextIsLeast(schedule, base, after, next);
  }

  lemma SoonerStaysNotLater(before: Time, next: Time, schedule: seq<Window>, dayBase: Time, after: Time)
    requires NotLaterThanDay(before, schedule, dayBase, after) && (0 < before ==> 0 < next <= before)
    ensures NotLaterThanDay(next, schedule, dayBase, after)
  {
    forall w | w in schedule
      ensures NotLater(next, w.start, dayBase, after) && NotLater(next, w.end, dayBase, after)
    {
      assert NotLater(before, w.start, dayBase, after) && NotLater(before, w.end, dayBase, after);
    }
  }

  method NextOnDay(schedule: seq<Window>, dayBase: Time, after: Time, soonest: Time) returns (next: Time)
    requires dayBase % DAY == 0
    requires 0 < soonest ==> after < soonest && IsBoundary(schedule, soonest)
    ensures 0 < next ==> after < next && IsBoundary(schedule, next)
    ensures 0 < soonest ==> 0 < next <= soonest
    ensures NotLaterThanDay(next, schedule, dayBase, after)
  {
    next := soonest;
    for i := 0 to |schedule|
      invariant 0 < next ==> after < next && IsBoundary(schedule, next)
      invariant 0 < soonest ==> 0 < next <= soonest
      invariant forall w :: w in schedule[..i] ==>
        NotLater(next, w.start, dayBase, after) && NotLater(next, w.end, dayBase, after)
    {
      var w := schedule[i];
      next := Sooner(next, w.start, dayBase, after);
      next := Sooner(next, w.end, dayBase, after);
    }
  }

  function Sooner(next: Time, c: Clock, dayBase: Time, after: Time): (r: Time)
    ensures r == next || (c.At? && r == InstantOn(c, dayBase) && after < r)
    ensures 0 < next ==> 0 < r <= next
    ensures NotLater(r, c, dayBase, after)
  {
    if c.Unreadable? || InstantOn(c, dayBase) <= after then next
    else if next == 0 || InstantOn(c, dayBase) < next then InstantOn(c, dayBase)
    else next
  }

  /** Three days of candidates are enough to find the least boundary over all days. */
  lemma NextIsLeast(schedule: seq<Window>, base: Time, after: Time, next: Time)
    requires base == after - after % DAY
    requires forall day :: 0 <= day < 3 ==> NotLaterThanDay(next, schedule, base + day * DAY, after)
    requires 0 < next ==> after < next && IsBoundary(schedule, next)
    ensures HasClock(schedule) ==> 0 < next <= after + DAY
    ensures forall t :: after < t < next ==> !IsBoundary(schedule, t)
  {
    assert NotLaterThanDay(next, schedule, base + 0 * DAY, after);
    assert NotLaterThanDay(next, schedule, base + 1 * DAY, after);
    assert NotLaterThanDay(next, schedule, base + 2 * DAY, after);
    forall w | w in schedule
      ensures w.start.At? || w.end.At? ==> 0 < next <= after + DAY
      ensures forall t :: after < t && (Strikes(w.start, t) || Strikes(w.end, t)) ==> next <= t
    {
      assert NotLater(next, w.start, base, after) && NotLater(next, w.start, base + DAY, after);
      assert NotLater(next, w.end, base, after) && NotLater(next, w.end, base + DAY, after);
      ClockBound(w.start, base, after, next);
      ClockBound(w.end, base, after, next);
    }
  }

  lemma ClockBound(c: Clock, base: Time, after: Time, next: Time)
    requires base == after - after % DAY
    requires NotLater(next, c, base, after) && NotLater(next, c, base + DAY, after)
    ensures c.At? ==> 0 < next <= after + DAY
    ensures forall t :: after < t && Strikes(c, t) ==> next <= t
  {
    forall t | after < t && Strikes(c, t) {
      StrikeIsInstant(c, base, after, next, t);
    }
  }

  /** A strike after `after` falls on the same day, the next one or later. */
  lemma StrikeIsInstant(c: Clock, base: Time, after: Time, next: Time, t: Time)
    requires base == after - after % DAY && after < t && Strikes(c, t)
    requires NotLater(next, c, base, after) && NotLater(next, c, base + DAY, after)
    ensures next <= t
  {
    var today, day := after / DAY, t / DAY;
    assert base == today * DAY && t == day * DAY + c.minute * 60 && today <= day;
    assert day != today ==> t >= (today + 1) * DAY + c.minute * 60;
  }

  // ----- the location between boundaries -----

  lemma MinuteSteps(t: Time)
    ensures MinuteOf(t + 1) == MinuteOf(t)
         || ((t + 1) % DAY == MinuteOf(t + 1) * 60 && MinuteOf(t + 1) == (MinuteOf(t) + 1) % MINUTES_PER_DAY)
  {
    var second := t % DAY;
    assert (t + 1) % DAY == if second + 1 == DAY then 0 else second + 1;
    var minute, rest := second / 60, second % 60;
    assert second == 60 * minute + rest;
    if rest < 59 {
      assert (second + 1) / 60 == minute;
    } else {
      assert second + 1 == 60 * (minute + 1);
    }
  }

  /** A window opens or closes only at its own clock times. */
  lemma WindowChangesAtBoundary(w: Window, t: Time)
    requires !Strikes(w.start, t + 1) && !Strikes(w.end, t + 1)
    ensures Contains(w, MinuteOf(t + 1)) == Contains(w, MinuteOf(t))
  {
    MinuteSteps(t);
  }

  lemma {:induction false} SameWindowsSameLocation(schedule: seq<Window>, m: Minute, n: Minute)
    requires forall w :: w in schedule ==> Contains(w, m) == Contains(w, n)
    ensures LocationAt(schedule, m) == LocationAt(schedule, n)
  {
    if schedule != [] {
      SameWindowsSameLocation(schedule[1..], m, n);
    }
  }

  /** The scheduled location is constant from `after` up to the next boundary. */
  lemma {:induction false} ConstantUntilBoundary(policy: Policy, after: Time, now: Time)
    requires after <= now
    requires forall t :: after < t <= now ==> !IsBoundary(policy.schedule, t)
    ensures ActiveLocation(policy, now) == ActiveLocation(policy, after)
    decreases now - after
  {
    if after < now {
      ConstantUntilBoundary(policy, after, now - 1);
      assert !IsBoundary(policy.schedule, now);
      forall w | w in policy.schedule
        ensures Contains(w, MinuteOf(now)) == Contains(w, MinuteOf(now - 1))
      {
        WindowChangesAtBoundary(w, now - 1);
      }
      SameWindowsSameLocation(policy.schedule, MinuteOf(now), MinuteOf(now - 1));
    }
  }

  // ----- validation -----

  datatype Segment = Segment(start: nat, end: nat)

  function SplitWindow(start: Minute, end: Minute): seq<Segment> {
    if start < end then [Segment(start, end)] else [Segment(start, MINUTES_PER_DAY), Segment(0, end)]
  }

  predicate SegmentsOverlap(left: Segment, right: Segment) {
    left.start < right.end && right.start < left.end
  }

  /** Every window is readable and no minute of the day lies in two of them. */
  ghost predicate Exclusive(schedule: seq<Window>) {
    && (forall w :: w in schedule ==> Readable(w))
    && forall i, j, m: Minute :: 0 <= i < j < |schedule| ==> !(Contains(schedule[i], m) && Contains(schedule[j], m))
  }

  ghost predicate InSegment(s: Segment, m: Minute) {
    s.start <= m < s.end
  }

  ghost predicate Occupied(segments: seq<Segment>, m: Minute) {
    exists s :: s in segments && InSegment(s, m)
  }

  ghost predicate Open(schedule: seq<Window>, m: Minute) {
    exists w :: w in schedule && Contains(w, m)
  }

  /** A piece of a split window: not empty, unless the window ends at 00:00. */
  predicate Piece(s: Segment) {
    s.start < s.end <= MINUTES_PER_DAY || s == Segment(0, 0)
  }

  lemma OverlapIffShareMinute(left: Segment, right: Segment)
    requires Piece(left) && Piece(right)
    ensures SegmentsOverlap(left, right) <==> exists m: Minute :: InSegment(left, m) && InSegment(right, m)
  {
    if SegmentsOverlap(left, right) {
      var m: Minute := if left.start < right.start then right.start else left.start;
      assert InSegment(left, m) && InSegment(right, m);
    }
  }

  lemma SplitKeepsMinutes(w: Window, m: Minute)
    requires Readable(w)
    ensures Occupied(SplitWindow(w.start.minute, w.end.minute), m) <==> Contains(w, m)
  {
    var split := SplitWindow(w.start.minute, w.end.minute);
    assert split[0] in split && split[|split| - 1] in split;
    assert InSegment(split[0], m) || InSegment(split[|split| - 1], m) <==> Contains(w, m);
  }

  method OverlapsAny(segments: seq<Segment>, segment: Segment) returns (overlaps: bool)
    requires Piece(segment) && forall s :: s in segments ==> Piece(s)
    ensures overlaps <==> exists m: Minute :: InSegment(segment, m) && Occupied(segments, m)
  {
    for k := 0 to |segments|
      invariant forall m: Minute :: InSegment(segment, m) ==> !Occupied(segments[..k], m)
    {
      OverlapIffShareMinute(segments[k], segment);
      if SegmentsOverlap(segments[k], segment) {
        return true;
      }
    }
    assert segments[..|segments|] == segments;
    return false;
  }

  method ValidatePrioritySchedule(schedule: seq<Window>) returns (ok: bool)
    ensures ok <==> Exclusive(schedule)
  {
    var segments: seq<Segment> := [];
    for i := 0 to |schedule|
      invariant forall s :: s in segments ==> Piece(s)
      invariant forall m: Minute :: Occupied(segments, m) <==> Open(schedule[..i], m)
      invariant Exclusive(schedule[..i])
    {
      var w := schedule[i];
      if !Readable(w) {
        return false;
      }
      var split := SplitWindow(w.start.minute, w.end.minute);
      ghost var before := segments;
      for k := 0 to |split|
        invariant segments == before + split[..k]
        invariant forall m: Minute :: Occupied(split[..k], m) ==> !Occupied(before, m)
      {
        assert forall m: Minute :: Occupied(before + split[..k], m) <==> Occupied(before, m) || Occupied(split[..k], m);
        var overlaps := OverlapsAny(segments, split[k]);
        if overlaps {
          ghost var m: Minute :| InSegment(split[k], m) && Occupied(segments, m);
          SplitKeepsMinutes(w, m);
          SharedMinuteRejected(schedule, i, m);
          return false;
        }
        segments := segments + [split[k]];
      }
      assert split[..|split|] == split;
      forall m: Minute {
        SplitKeepsMinutes(w, m);
      }
      ExtendExclusive(schedule, i, before, segments);
    }
    assert schedule[..|schedule|] == schedule;
    return true;
  }

  lemma SharedMinuteRejected(schedule: seq<Window>, i: nat, m: Minute)
    requires i < |schedule| && Contains(schedule[i], m) && Open(schedule[..i], m)
    ensures !Exclusive(schedule)
  {
    var w :| w in schedule[..i] && Contains(w, m);
    var j :| 0 <= j < i && schedule[j] == w;
  }

  lemma ExtendExclusive(schedule: seq<Window>, i: nat, before: seq<Segment>, after: seq<Segment>)
    requires i < |schedule| && Exclusive(schedule[..i]) && Readable(schedule[i])
    requires forall m: Minute :: Occupied(before, m) <==> Open(schedule[..i], m)
    requires forall m: Minute :: Occupied(after, m) <==> Occupied(before, m) || Contains(schedule[i], m)
    requires forall m: Minute :: Contains(schedule[i], m) ==> !Occupied(before, m)
    ensures Exclusive(schedule[..i + 1])
    ensures forall m: Minute :: Occupied(after, m) <==> Open(schedule[..i + 1], m)
  {
    assert schedule[..i + 1] == schedule[..i] + [schedule[i]];
    forall m: Minute
      ensures Open(schedule[..i + 1], m) <==> Open(schedule[..i], m) || Contains(schedule[i], m)
    {
      if Contains(schedule[i], m) {
        assert schedule[i] in schedule[..i + 1];
      }
    }
    forall j, m: Minute | 0 <= j < i && Contains(schedule[j], m)
      ensures !Contains(schedule[i], m)
    {
      assert schedule[..i][j] in schedule[..i];
      assert Open(schedule[..i], m);
    }
    assert forall j :: 0 <= j < i ==> schedule[..i + 1][j] == schedule[..i][j];
  }

  // ----- order does not matter -----

  lemma {:induction false} LocationOfTheWindow(schedule: seq<Window>, i: nat, m: Minute)
    requires i < |schedule| && Contains(schedule[i], m)
    requires forall j :: 0 <= j < i ==> !Contains(schedule[j], m)
    ensures LocationAt(schedule, m) == schedule[i].location
  {
    if 0 < i {
      LocationOfTheWindow(schedule[1..], i - 1, m);
    }
  }

  lemma {:induction false} NoWindowNoLocation(schedule: seq<Window>, m: Minute)
    requires !Open(schedule, m)
    ensures LocationAt(schedule, m) == ""
  {
    if schedule != [] {
      assert schedule[0] in schedule;
      NoWindowNoLocation(schedule[1..], m);
    }
  }

  /** An accepted schedule selects the same location in any order of its windows. */
  lemma OrderIndependent(schedule: seq<Window>, reordered: seq<Window>, m: Minute)
    requires Exclusive(schedule) && multiset(schedule) == multiset(reordered)
    ensures LocationAt(schedule, m) == LocationAt(reordered, m)
  {
    assert forall w :: w in schedule <==> w in multiset(schedule);
    assert forall w :: w in reordered <==> w in multiset(reordered);
    if Open(schedule, m) {
      var w :| w in schedule && Contains(w, m);
      assert w in reordered;
      var i :| 0 <= i < |schedule| && schedule[i] == w;
      LocationOfTheWindow(schedule, i, m);
      var k := FirstOpen(reordered, w, m);
      assert reordered[k] in schedule;
      var j :| 0 <= j < |schedule| && schedule[j] == reordered[k];
      assert i == j;
      LocationOfTheWindow(reordered, k, m);
    } else {
      NoWindowNoLocation(schedule, m);
      NoWindowNoLocation(reordered, m);
    }
  }

  lemma {:induction false} FirstOpen(schedule: seq<Window>, w: Window, m: Minute) returns (k: nat)
    requires w in schedule && Contains(w, m)
    ensures k < |schedule| && Contains(schedule[k], m)
    ensures forall j :: 0 <= j < k ==> !Contains(schedule[j], m)
  {
    if Contains(schedule[0], m) {
      k := 0;
    } else {
      var rest := FirstOpen(schedule[1..], w, m);
      k := rest + 1;
    }
  }
}
