/**
 The reservoir panel of the São Paulo dashboard: the SABESP feed is a list
 of named systems, the panel shows the `data` record of the first one named
 "Cantareira", and an error banner when there is none.
 */
module SabespLookup {

  datatype Option<T> = None | Some(value: T)

  /** The readings the panel shows for one reservoir system. */
  datatype Readings = Readings(
    storedVolume: string,
    rainfallToday: string,
    monthlyHistoricalMean: string)

  /** One entry of the feed: a system's name and its readings. */
  datatype SystemEntry = SystemEntry(name: string, data: Readings)

  /** What the panel renders: three metrics, or the error banner. */
  datatype Panel = Metrics(volume: string, rainfall: string, historicalMean: string) | LookupError

  /** The system the panel looks for. */
  const Cantareira: string := "Cantareira"

  /** True when some entry of the feed carries the given name. */
  predicate HasName(entries: seq<SystemEntry>, name: string)
  {
    exists i :: 0 <= i < |entries| && entries[i].name == name
  }

  /**
   Index of the first entry with the given name, scanning from the front as
   a generator consumed by `next` does; None when the scan runs off the end.
   */
  function FirstIndex(entries: seq<SystemEntry>, name: string): (r: Option<nat>)
    ensures r.Some? ==> r.value < |entries| && entries[r.value].name == name
    ensures r.Some? ==> forall j :: 0 <= j < r.value ==> entries[j].name != name
    ensures r.None? <==> !HasName(entries, name)
    decreases |entries|
  {
    if entries == [] then None
    else if entries[0].name == name then Some(0)
    else
      match FirstIndex(entries[1..], name)
      case None => None
      case Some(k) => Some(k + 1)
  }

  /** The `data` record of the first entry named Cantareira, or None where `next` would raise. */
  function CantareiraData(entries: seq<SystemEntry>): (r: Option<Readings>)
    ensures r.None? <==> !HasName(entries, Cantareira)
    ensures r.Some? ==>
      (exists i :: 0 <= i < |entries| && entries[i].name == Cantareira
        && entries[i].data == r.value
        && (forall j :: 0 <= j < i ==> entries[j].name != Cantareira))
  {
    match FirstIndex(entries, Cantareira)
    case None => None
    case Some(i) => Some(entries[i].data)
  }

  /** The panel: the three readings of the matched system, or the error banner. */
  function ShowPanel(entries: seq<SystemEntry>): (p: Panel)
    ensures p.LookupError? <==> !HasName(entries, Cantareira)
    ensures p.Metrics? ==>
      (exists i :: 0 <= i < |entries| && entries[i].name == Cantareira
        && (forall j :: 0 <= j < i ==> entries[j].name != Cantareira)
        && p == Metrics(entries[i].data.storedVolume, entries[i].data.rainfallToday,
                        entries[i].data.monthlyHistoricalMean))
  {
    match CantareiraData(entries)
    case None => LookupError
    case Some(d) => Metrics(d.storedVolume, d.rainfallToday, d.monthlyHistoricalMean)
  }

  /** Entries in front of the first match, and entries after it, do not change the result. */
  lemma FirstMatchIgnoresRest(before: seq<SystemEntry>, hit: SystemEntry, after: seq<SystemEntry>)
    requires hit.name == Cantareira
    requires forall j :: 0 <= j < |before| ==> before[j].name != Cantareira
    ensures CantareiraData(before + [hit] + after) == Some(hit.data)
  {
    var all := before + [hit] + after;
    assert all[|before|] == hit;
  }
}
