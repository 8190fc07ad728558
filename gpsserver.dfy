/**
 * The GPS server's message handler: the globals `syncedLatitude`,
 * `syncedLongitude` and `lastSynced` as the fields of a `Tracker`, the
 * resync decision, and the update once every controller has answered.
 */
module GpsServer {
  import opened Wrappers
  import opened Position
  import Batch

  /** `results.every(v => v === true)`. */
  function AllTrue(results: seq<bool>): (r: bool)
    ensures r <==> forall i :: 0 <= i < |results| ==> results[i]
  {
    if results == [] then true else results[0] && AllTrue(results[1..])
  }

  class Tracker {
    var syncedLatitude: string
    var syncedLongitude: string
    var lastSynced: int

    /** At startup the synced position is 0, 0 and it was synced one day ago. */
    constructor (startup: int)
      ensures syncedLatitude == "0" && syncedLongitude == "0"
      ensures lastSynced == InitialLastSynced(startup)
      ensures forall now :: now > startup ==> HasCoordinatesExpired(lastSynced, now)
    {
      syncedLatitude, syncedLongitude := "0", "0";
      lastSynced := InitialLastSynced(startup);
    }

    /**
     * A position message: for a valid fix that deviates from the synced
     * position or finds it expired, the batch to send to every controller;
     * otherwise nothing. `distanceInMeters` is the distance from the synced
     * position; the offset, date and time come from the time-zone lookup.
     */
    method OnMessage(fix: Fix, distanceInMeters: nat, now: int, utcOffsetMinutes: int, date: string, time: string)
      returns (batch: Option<seq<string>>)
      requires utcOffsetMinutes % 15 == 0
      ensures fix.valid != "A" ==> batch == None
      ensures batch.Some? <==> fix.valid == "A" && (distanceInMeters > AllowedDeviationInMeters
                                                  || lastSynced < now - CoordinatesExpirationMs)
      ensures batch.Some? ==> batch.value == Batch.BuildBatch(fix.latitude, fix.longitude, utcOffsetMinutes, date, time)
      ensures batch.Some? ==> |batch.value| == 4
    {
      if ValidateRecord(fix) {
        if HasDeviated(distanceInMeters, AllowedDeviationInMeters) || HasCoordinatesExpired(lastSynced, now) {
          return Some(Batch.BuildBatch(fix.latitude, fix.longitude, utcOffsetMinutes, date, time));
        }
      }
      return None;
    }

    /**
     * Every controller has answered: the fix's position and the settle time
     * become the synced ones only if all answered `true`.
     */
    method OnSyncSettled(latitude: string, longitude: string, now: int, results: seq<bool>)
      modifies this
      ensures AllTrue(results) ==> syncedLatitude == latitude && syncedLongitude == longitude && lastSynced == now
      ensures !AllTrue(results) ==> syncedLatitude == old(syncedLatitude) && syncedLongitude == old(syncedLongitude)
                                    && lastSynced == old(lastSynced)
    {
      if AllTrue(results) {
        syncedLatitude := latitude;
        syncedLongitude := longitude;
        lastSynced := now;
      }
    }
  }

  /** A second successful sync of the same position leaves the same position. */
  method RepeatedSyncIdempotent(t: Tracker, latitude: string, longitude: string, now1: int, now2: int, results: seq<bool>)
    requires AllTrue(results)
    modifies t
    ensures t.syncedLatitude == latitude && t.syncedLongitude == longitude && t.lastSynced == now2
  {
    t.OnSyncSettled(latitude, longitude, now1, results);
    t.OnSyncSettled(latitude, longitude, now2, results);
  }
}
