/// What the listing functions of github.go share: the optional time window
/// read from the configuration, and the `(users, times, err)` result.
module Listing {
  import opened GitHub

  /// The time window of a listing: absent unless both dates are configured.
  datatype Window = NoFilter | Between(start: Time, end: Time)

  /// `useTimeFilter` and the two `parseDate` calls: the start date is parsed
  /// first, and either failure aborts before any request is made.
  function ParseWindow(dates: Dates, cfg: Config): (r: Result<Window>)
    ensures r == Ok(NoFilter) <==> |cfg.startDate| == 0 || |cfg.endDate| == 0
    ensures r.Ok? && r.value.Between? <==>
              && |cfg.startDate| > 0 && |cfg.endDate| > 0
              && dates.parseDate(cfg.startDate).Ok? && dates.parseDate(cfg.endDate).Ok?
    ensures r.Ok? && r.value.Between? ==>
              r.value == Between(dates.parseDate(cfg.startDate).value, dates.parseDate(cfg.endDate).value)
    ensures r.Err? ==>
              || dates.parseDate(cfg.startDate) == Err(r.error)
              || (dates.parseDate(cfg.startDate).Ok? && dates.parseDate(cfg.endDate) == Err(r.error))
  {
    if |cfg.startDate| > 0 && |cfg.endDate| > 0 then
      match dates.parseDate(cfg.startDate)
      case Err(e) => Err(e)
      case Ok(start) =>
        match dates.parseDate(cfg.endDate)
        case Err(e) => Err(e)
        case Ok(end) => Ok(Between(start, end))
    else Ok(NoFilter)
  }

  /// An item stamped `t` survives the filter.
  predicate InWindow(dates: Dates, w: Window, t: Time)
  {
    w.NoFilter? || dates.checkTime(w.start, w.end, t)
  }

  /// The users found so far and, at the same positions, the times that go with them.
  datatype Collected = Collected(users: seq<User>, times: seq<Time>)

  /// What a listing that returns `(users, times, err)` hands back for the
  /// outcome `r`: on failure nothing but the error, never part of the lists.
  predicate Returned(r: Result<Collected>, users: seq<User>, times: seq<Time>, err: Option<Error>)
  {
    match r
    case Err(e) => err == Some(e) && users == [] && times == []
    case Ok(c) => err == None && users == c.users && times == c.times
  }

  /// Append looked-up users, with their times, to what was collected; a failed lookup fails.
  function AppendLookups(c: Collected, looked: Result<seq<User>>, times: seq<Time>): Result<Collected>
  {
    match looked
    case Err(e) => Err(e)
    case Ok(us) => Ok(Collected(c.users + us, c.times + times))
  }

  /// Appending one user first, then a batch, is appending the batch with that user in front.
  lemma AppendOne(c: Collected, u: User, t: Time, looked: Result<seq<User>>, times: seq<Time>)
    ensures AppendLookups(Collected(c.users + [u], c.times + [t]), looked, times) ==
            AppendLookups(c, if looked.Ok? then Ok([u] + looked.value) else looked, [t] + times)
  {
    if looked.Ok? {
      assert c.users + [u] + looked.value == c.users + ([u] + looked.value);
      assert c.times + [t] + times == c.times + ([t] + times);
    }
  }
}
