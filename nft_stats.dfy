/** The free-mint quota panel (the stats component, repeated inline in the generator): how
    many free mints remain today, when the cooldown notice appears and how many hours it
    shows, and when the last-creation line appears. Only display arithmetic over the values
    read from the contract. */
module NftStats {
  import opened JsText

  const FreeMintsPerDay := 3
  const SecondsPerHour := 3600

  /** `canCreateFreeNFT(user)` as decoded: `[canCreate, creationsToday, timeLeft]`. A number
      that is absent (or not a number) is `None`. */
  datatype Eligibility = Eligibility(canCreate: bool, creationsToday: Option<nat>, timeLeft: Option<nat>)

  /** `getUserCreationStats(user)`: `[totalCreations, freeCreationsToday, lastCreation, nextFreeCreation]`. */
  datatype UserStats = UserStats(totalCreations: nat, freeCreationsToday: nat,
                                 lastCreation: nat, nextFreeCreation: nat)

  /** `Number(x) || 0`: a missing or non-numeric count reads as 0. */
  function CountOrZero(x: Option<nat>): nat {
    if x.Some? then x.value else 0
  }

  /** `Math.max(0, 3 - (Number(mintEligibility[1]) || 0))` */
  function FreeMintsRemaining(e: Eligibility): (r: nat)
    ensures r <= FreeMintsPerDay
    ensures r + CountOrZero(e.creationsToday) >= FreeMintsPerDay
    ensures r > 0 ==> r + CountOrZero(e.creationsToday) == FreeMintsPerDay
  {
    var used := CountOrZero(e.creationsToday);
    if FreeMintsPerDay - used > 0 then FreeMintsPerDay - used else 0
  }

  /** What the "Free Mints Remaining" slot shows: a placeholder while loading, otherwise
      `n/3`, with `3/3` when eligibility could not be read. */
  datatype FreeMintsView = Placeholder | Remaining(count: nat)

  function FreeMintsDisplay(isLoading: bool, e: Option<Eligibility>): (v: FreeMintsView)
    ensures v.Placeholder? <==> isLoading
    ensures v.Remaining? ==> v.count <= FreeMintsPerDay
    ensures !isLoading && e.None? ==> v == Remaining(FreeMintsPerDay)
    ensures !isLoading && e.Some? ==> v == Remaining(FreeMintsRemaining(e.value))
  {
    if isLoading then Placeholder
    else if e.Some? then Remaining(FreeMintsRemaining(e.value))
    else Remaining(FreeMintsPerDay)
  }

  /** The cooldown notice: eligibility read, free creation not allowed now, and time left. */
  predicate CooldownShown(e: Option<Eligibility>) {
    e.Some? && !e.value.canCreate && CountOrZero(e.value.timeLeft) > 0
  }

  /** `Math.ceil(timeLeft / 3600)`: the whole hours that cover the remaining seconds. */
  function CooldownHours(timeLeft: nat): (h: nat)
    ensures h * SecondsPerHour >= timeLeft
    ensures h > 0 ==> (h - 1) * SecondsPerHour < timeLeft
  {
    (timeLeft + SecondsPerHour - 1) / SecondsPerHour
  }

  /** The hours the cooldown notice shows, when it is shown: always at least one, and never
      more hours than there are seconds left. */
  function CooldownNotice(e: Option<Eligibility>): (hours: Option<nat>)
    ensures hours.Some? <==> CooldownShown(e)
    ensures hours.Some? ==> 1 <= hours.value <= e.value.timeLeft.value
    ensures hours.Some? ==> hours.value == CooldownHours(e.value.timeLeft.value)
  {
    if CooldownShown(e) then Some(CooldownHours(e.value.timeLeft.value)) else None
  }

  /** The "Last creation" line: shown when the user statistics were read and a creation time
      is set; it renders the date at `lastCreation * 1000` milliseconds. */
  function LastCreationLine(s: Option<UserStats>): (millis: Option<nat>)
    ensures millis.Some? <==> s.Some? && s.value.lastCreation > 0
    ensures millis.Some? ==> millis.value > 0 && millis.value / 1000 == s.value.lastCreation
  {
    if s.Some? && s.value.lastCreation > 0 then Some(s.value.lastCreation * 1000) else None
  }
}
