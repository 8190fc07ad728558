/**
 * The position filter of the GPS server: which fixes are accepted and when a
 * fix makes the server push its location, date and time to the controllers.
 * Timestamps are integer milliseconds; the great-circle distance computed by
 * geolib is an input in whole metres.
 */
module Position {
  /** 100 miles: a larger distance from the synced position is a deviation. */
  const AllowedDeviationInMeters: nat := 160934
  /** The synced position expires after one day, here 86400000 ms. */
  const CoordinatesExpirationMs: nat := 86400000

  /**
   * A parsed position sentence. `valid` is the sentence's status field;
   * `latitude` and `longitude` are the one-decimal texts the server sends on.
   */
  datatype Fix = Fix(valid: string, latitude: string, longitude: string)

  /** A fix is usable only when its status is exactly "A". */
  function ValidateRecord(fix: Fix): (ok: bool)
    ensures ok <==> fix.valid == "A"
  {
    if fix.valid == "A" then true else false
  }

  /** The fix lies strictly farther than the allowance from the synced position. */
  function HasDeviated(distanceInMeters: nat, allowedDevianceInMeters: nat): bool
  {
    distanceInMeters > allowedDevianceInMeters
  }

  /** The last sync lies strictly before `now` minus one day. */
  function HasCoordinatesExpired(lastSynced: int, now: int): bool
  {
    now - CoordinatesExpirationMs > lastSynced
  }

  /** At startup the last sync is set one day in the past. */
  function InitialLastSynced(startup: int): (t: int)
    ensures t < startup
  {
    startup - CoordinatesExpirationMs
  }

  /** A resync starts for a valid fix that has deviated or whose synced position expired. */
  function ShouldResync(fix: Fix, distanceInMeters: nat, lastSynced: int, now: int): (r: bool)
    ensures r <==> fix.valid == "A"
                   && (distanceInMeters > 160934 || lastSynced < now - 86400000)
  {
    ValidateRecord(fix)
      && (HasDeviated(distanceInMeters, AllowedDeviationInMeters) || HasCoordinatesExpired(lastSynced, now))
  }

  /** A distance equal to the allowance is no deviation; one metre more is. */
  lemma DeviationIsStrict()
    ensures !HasDeviated(AllowedDeviationInMeters, AllowedDeviationInMeters)
    ensures HasDeviated(AllowedDeviationInMeters + 1, AllowedDeviationInMeters)
  {
  }

  /** Moving farther away never undoes a deviation. */
  lemma DeviationMonotone(d1: nat, d2: nat, allowed: nat)
    requires d1 <= d2 && HasDeviated(d1, allowed)
    ensures HasDeviated(d2, allowed)
  {
  }

  /** Once expired, the synced position stays expired until the next sync. */
  lemma ExpiryMonotone(lastSynced: int, now1: int, now2: int)
    requires now1 <= now2 && HasCoordinatesExpired(lastSynced, now1)
    ensures HasCoordinatesExpired(lastSynced, now2)
  {
  }

  /** Any check strictly after startup finds the initial sync expired; one at startup does not. */
  lemma InitialSyncExpired(startup: int, now: int)
    ensures HasCoordinatesExpired(InitialLastSynced(startup), now) <==> now > startup
  {
  }

  /** So the first valid fix after startup always starts a resync, wherever it is. */
  lemma FirstValidFixResyncs(fix: Fix, distanceInMeters: nat, startup: int, now: int)
    requires fix.valid == "A" && now > startup
    ensures ShouldResync(fix, distanceInMeters, InitialLastSynced(startup), now)
  {
    InitialSyncExpired(startup, now);
  }

  /** A fix within the allowance of a recent sync is skipped. */
  lemma NearAndFreshSkips(fix: Fix, distanceInMeters: nat, lastSynced: int, now: int)
    requires distanceInMeters <= AllowedDeviationInMeters
    requires lastSynced >= now - CoordinatesExpirationMs
    ensures !ShouldResync(fix, distanceInMeters, lastSynced, now)
  {
  }
}
