/** The counters and flags of a monitor row as functions of its history. */
module Columns {
  import opened Model
  import opened Engine

  datatype Columns = Columns(lastCheckinAt: Option<Time>, pausedAt: Option<Time>, muted: bool, streak: int)

  predicate IsReport(e: Entry) {
    e.source == Reported(Success) || e.source == Reported(Fail)
  }

  predicate IsMiss(e: Entry) {
    e.source == Reported(Fail) || (e.source.Evaluated? && e.state.Down?)
  }

  // One more entry: reports set the last check-in and clear the pause with auto_resume,
  // resumes clear it always, and the streak counts failures and misses since the last
  // success.
  function NextColumns(c: Columns, e: Entry, autoResume: bool): Columns {
    Columns(
      if IsReport(e) then Some(e.at) else c.lastCheckinAt,
      if e.source.Resumption? || (IsReport(e) && autoResume) then None
      else if e.emits == [PauseEvent] then Some(e.at) else c.pausedAt,
      if e.emits == [MuteEvent] then true else if e.emits == [UnmuteEvent] then false else c.muted,
      if e.source == Reported(Success) then 0 else if IsMiss(e) then c.streak + 1 else c.streak)
  }

  function ColumnsOf(entries: seq<Entry>, autoResume: bool): Columns {
    if |entries| == 0 then Columns(None, None, false, 0)
    else NextColumns(ColumnsOf(entries[..|entries| - 1], autoResume), entries[|entries| - 1], autoResume)
  }

  predicate Carries(m: Monitor, c: Columns) {
    m.lastCheckinAt == c.lastCheckinAt && m.pausedAt == c.pausedAt && m.alertsMuted == c.muted &&
    (m.kind.Heartbeat? ==> m.failStreak == c.streak)
  }
}
