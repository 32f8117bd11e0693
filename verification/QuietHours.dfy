// Quiet hours: when a text may be sent, and the next instant at which it may.
module QuietHours {
  import opened Models

  type Hour = h: int | 0 <= h < 24

  datatype Window = Window(startHour: Hour, endHour: Hour)

  // A school's zone is a fixed offset from UTC.
  function LocalHour(now: int, offset: int): Hour {
    ((now + offset) % DAY) / HOUR
  }

  predicate IsWithinQuietHours(w: Window, now: int, offset: int) {
    var hour := LocalHour(now, offset);
    if w.startHour == w.endHour then false
    else if w.startHour > w.endHour then hour >= w.startHour || hour < w.endHour
    else w.startHour <= hour < w.endHour
  }

  function NextAllowedSendTime(w: Window, now: int, offset: int): int {
    if !IsWithinQuietHours(w, now, offset) then now else
    var localNow := now + offset;
    var todaysEnd := localNow - localNow % DAY + w.endHour * HOUR;
    (if todaysEnd <= localNow then todaysEnd + DAY else todaysEnd) - offset
  }

  // The number of hours the window covers.
  function WindowHours(w: Window): Hour {
    (w.endHour - w.startHour) % 24
  }

  // The window, read off the time of day instead of the hour.
  predicate QuietTimeOfDay(w: Window, s: int) {
    var start, end := w.startHour * HOUR, w.endHour * HOUR;
    w.startHour != w.endHour &&
    if start > end then s >= start || s < end else start <= s < end
  }

  lemma TimeOfDay(w: Window, now: int, offset: int, d: int)
    requires d * DAY <= now + offset < d * DAY + DAY
    ensures (now + offset) % DAY == now + offset - d * DAY
    ensures IsWithinQuietHours(w, now, offset) <==> QuietTimeOfDay(w, now + offset - d * DAY)
  {
    var s := now + offset - d * DAY;
    assert (now + offset) % DAY == s by {
      assert (now + offset) / DAY == d;
    }
    assert s / HOUR >= w.startHour <==> s >= w.startHour * HOUR;
    assert s / HOUR >= w.endHour <==> s >= w.endHour * HOUR;
  }

  // The result is the first instant from now on that is not quiet, and it is never further off than the window is long.
  lemma NextAllowedIsLeast(w: Window, now: int, offset: int)
    ensures var next := NextAllowedSendTime(w, now, offset);
            && now <= next <= now + WindowHours(w) * HOUR
            && (next == now <==> !IsWithinQuietHours(w, now, offset))
            && !IsWithinQuietHours(w, next, offset)
            && forall t :: now <= t < next ==> IsWithinQuietHours(w, t, offset)
  {
    if IsWithinQuietHours(w, now, offset) {
      var next := NextAllowedSendTime(w, now, offset);
      var d := (now + offset) / DAY;
      TimeOfDay(w, now, offset, d);
      TimeOfDay(w, next, offset, if next + offset < d * DAY + DAY then d else d + 1);
      forall t | now <= t < next ensures IsWithinQuietHours(w, t, offset) {
        TimeOfDay(w, t, offset, if t + offset < d * DAY + DAY then d else d + 1);
      }
    }
  }

  // Any instant with those two properties is the one computed; so asking again at the answer gives the answer.
  lemma NextAllowedIsUnique(w: Window, now: int, offset: int, t: int)
    requires now <= t && !IsWithinQuietHours(w, t, offset)
    requires forall u :: now <= u < t ==> IsWithinQuietHours(w, u, offset)
    ensures t == NextAllowedSendTime(w, now, offset)
    ensures NextAllowedSendTime(w, t, offset) == t
  {
    NextAllowedIsLeast(w, now, offset);
  }

  // The policy service carries a second quiet test, on a bare hour.
  predicate PolicyIsQuietHours(w: Window, hour: Hour) {
    if w.startHour < w.endHour then w.startHour <= hour < w.endHour
    else hour >= w.startHour || hour < w.endHour
  }

  // The two tests agree everywhere except on the window that is meant to switch quiet hours off.
  lemma QuietTestsAgree(w: Window, now: int, offset: int)
    ensures PolicyIsQuietHours(w, LocalHour(now, offset)) == IsWithinQuietHours(w, now, offset)
            <==> w.startHour != w.endHour
  {}
}
