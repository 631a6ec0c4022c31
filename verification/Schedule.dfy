/** Period, cron and grace arithmetic (backend/schedule). */
module Schedule {
  import opened Model

  const MIN_PERIOD := 60
  const MAX_PERIOD := 365 * 24 * 3600
  const MIN_GRACE := 60
  const MAX_GRACE := 30 * 24 * 3600

  // The zone database and the cron library, which are not part of this model.
  datatype Calendar = Calendar(
    zoneKnown: string -> bool,
    cronParses: string -> bool,
    cronNext: (string, string, Time) -> Time)
  {
    // The next cron instant lies strictly after the instant asked about.
    ghost predicate Forward() {
      forall expr, zone, t :: cronNext(expr, zone, t) > t
    }
  }

  datatype Config = Config(kind: ScheduleKind, period: int, cronExpr: string, tz: string, grace: int)

  datatype InvalidField = BadZone | BadGrace | BadCron | BadPeriod

  predicate IsSpace(c: char) {
    '\t' <= c <= '\r' || c == ' ' || c == '\U{0085}' || c == '\U{00A0}' || c == '\U{1680}' || '\U{2000}' <= c <= '\U{200A}' ||
    c == '\U{2028}' || c == '\U{2029}' || c == '\U{202F}' || c == '\U{205F}' || c == '\U{3000}'
  }

  // Number of maximal runs of non-space characters.
  function FieldCount(s: string): nat {
    if |s| == 0 then 0
    else
      var last := |s| - 1;
      FieldCount(s[..last]) + if !IsSpace(s[last]) && (last == 0 || IsSpace(s[last - 1])) then 1 else 0
  }

  function Validate(cal: Calendar, cfg: Config): Option<InvalidField> {
    if cfg.tz == "" || !cal.zoneKnown(cfg.tz) then Some(BadZone)
    else if cfg.grace < MIN_GRACE || cfg.grace > MAX_GRACE then Some(BadGrace)
    else match cfg.kind
      case Period =>
        if cfg.cronExpr != "" then Some(BadCron)
        else if cfg.period < MIN_PERIOD || cfg.period > MAX_PERIOD then Some(BadPeriod)
        else None
      case Cron =>
        if cfg.period != 0 then Some(BadPeriod)
        else if cfg.cronExpr == "" || '=' in cfg.cronExpr || FieldCount(cfg.cronExpr) != 5 ||
                !cal.cronParses(cfg.cronExpr) then Some(BadCron)
        else None
  }

  // The moment a check-in is expected, without grace.
  function NextOccurrence(cal: Calendar, cfg: Config, lastCheckin: Option<Time>, now: Time): Result<Time, InvalidField> {
    match Validate(cal, cfg)
    case Some(field) => Err(field)
    case None =>
      var from := if lastCheckin.Some? then lastCheckin.value else now;
      Ok(if cfg.kind.Period? then from + cfg.period else cal.cronNext(cfg.cronExpr, cfg.tz, from))
  }

  // The occurrence plus grace.
  function NextDeadline(cal: Calendar, cfg: Config, lastCheckin: Option<Time>, now: Time): Result<Time, InvalidField> {
    match NextOccurrence(cal, cfg, lastCheckin, now)
    case Err(field) => Err(field)
    case Ok(t) => Ok(t + cfg.grace)
  }
}
