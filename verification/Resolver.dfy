/** The grid's rules and decisions (src/resolver.rs), as the other modules see
    them. How the resolver ranks them is not modelled. */
module Resolver {
  import opened Base

  datatype Weekday = Mon | Tue | Wed | Thu | Fri | Sat | Sun

  datatype Date = Date(year: int, month: int, day: int)

  datatype WallClock = WallClock(hour: int, minute: int)

  datatype Mode = Soft | Hard

  datatype ClockAnchor = EveryMinutes(n: U32) | Minute(minute: int) | At(wall: WallClock)

  datatype Cadence = Elapsed(secs: U64) | Tracks(count: U32)

  datatype Validity = Validity(utc: bool, days: seq<Weekday>, dateStart: Option<Date>, dateEnd: Option<Date>)

  datatype RuleKind =
    | BaseRotation(playlist: string)
    | DayPart(playlist: string, start: WallClock, end: Option<WallClock>)
    | AtClock(playlist: string, anchor: ClockAnchor, mode: Mode, expiry: Option<U64>)
    | Every(playlist: string, cadence: Cadence)
    | Live(dj: string, opens: WallClock)

  datatype Rule = Rule(id: string, enabled: bool, validity: Validity, kind: RuleKind)

  datatype Origin = FromAtClockHard | FromAtClockSoft | FromEvery | FromDayPart | FromBaseRotation | Fallback

  /** A source to pull from: why, by which rule, and the clock occurrence it
      consumes. */
  datatype Decision = Decision(origin: Origin, ruleId: Option<string>, playlist: Option<string>, mark: Option<string>)

  datatype EveryState = EveryState(lastPlayed: Option<int>, tracksSince: nat)

  /** The durable playback state: cooldowns, and clock occurrences consumed. */
  datatype Playback = Playback(every: map<string, EveryState>, taken: set<string>)
}
