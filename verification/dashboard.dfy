/**
 The live-state reducer of the dashboard view: every pushed message that is a
 `new_classification` updates, in one step, the capped list of recent
 classifications, the per-color statistics and the sliding activity window.
 Every other message leaves all three alone.

 The clock value used as the event id, the localised time label of the
 activity point and the timestamps of the seeded history come from the
 environment and are parameters here.
 */
module Dashboard {
  import opened Wrappers

  /** At most this many classifications are retained. */
  const RecentCap: nat := 20
  /** At most this many activity points are retained. */
  const ActivityCap: nat := 15
  /** The table renders this many of the retained classifications. */
  const TableRows: nat := 10
  /** The only message type the reducer reacts to. */
  const NewClassificationType: string := "new_classification"

  function Min(a: int, b: int): int
  {
    if a <= b then a else b
  }

  /** The `data` body of a pushed message; `id` is present only if the server sent one. */
  datatype Payload = Payload(id: Option<int>, color: string, timestamp: string)

  /** A decoded pushed message: its `type` tag and its `data` body. */
  datatype Message = Message(kind: string, data: Payload)

  datatype Classification = Classification(id: int, color: string, timestamp: string)

  /** One entry of the statistics list, in first-seen order. */
  datatype Stat = Stat(color: string, count: nat)

  datatype ActivityPoint = ActivityPoint(time: string, value: int)

  datatype LiveState = LiveState(
    classifications: seq<Classification>,  // newest first
    statistics: seq<Stat>,
    realtime: seq<ActivityPoint>)          // oldest first

  /** One run of the message effect: the current `lastMessage` (None for null),
      the clock reading and the display label of the message's timestamp. */
  datatype Delivery = Delivery(message: Option<Message>, now: int, timeLabel: string)

  predicate IsNewClassification(m: Option<Message>)
  {
    m.Some? && m.value.kind == NewClassificationType
  }

  /** The record `{ id: Date.now(), ...data }`: a payload id overrides the clock id. */
  function Stamp(data: Payload, now: int): (r: Classification)
    ensures data.id.None? ==> r.id == now
    ensures data.id.Some? ==> r.id == data.id.value
    ensures r.color == data.color && r.timestamp == data.timestamp
  {
    Classification(if data.id.Some? then data.id.value else now, data.color, data.timestamp)
  }

  // ---------------------------------------------------------------------------
  // Recent classifications

  function PrependRecent(c: Classification, prev: seq<Classification>): (r: seq<Classification>)
    ensures |r| == Min(RecentCap, |prev| + 1)
    ensures r[0] == c
    ensures r[1..] == prev[..|r| - 1]
  {
    [c] + prev[..Min(RecentCap - 1, |prev|)]
  }

  /** The rows of the recent-classifications table. */
  function Table(recent: seq<Classification>): (rows: seq<Classification>)
    ensures |rows| == Min(TableRows, |recent|)
    ensures rows == recent[..|rows|]
  {
    recent[..Min(TableRows, |recent|)]
  }

  // ---------------------------------------------------------------------------
  // Statistics

  /** `findIndex` on the color: the first entry of that color, if any. */
  function FindIndex(stats: seq<Stat>, color: string): (r: Option<nat>)
    ensures r.Some? ==> r.value < |stats| && stats[r.value].color == color
    ensures r.Some? ==> forall j :: 0 <= j < r.value ==> stats[j].color != color
    ensures r.None? <==> forall j :: 0 <= j < |stats| ==> stats[j].color != color
    decreases |stats|
  {
    if |stats| == 0 then None
    else if stats[0].color == color then Some(0)
    else match FindIndex(stats[1..], color)
      case None => None
      case Some(k) => Some(k + 1)
  }

  /** The count the charts show for a color: that of its first entry, 0 if it has none. */
  function CountOf(stats: seq<Stat>, color: string): nat
  {
    match FindIndex(stats, color)
    case Some(k) => stats[k].count
    case None => 0
  }

  /** The sum of all counts. */
  function Total(stats: seq<Stat>): nat
  {
    if |stats| == 0 then 0 else stats[0].count + Total(stats[1..])
  }

  predicate DistinctColors(stats: seq<Stat>)
  {
    forall i, j :: 0 <= i < j < |stats| ==> stats[i].color != stats[j].color
  }

  /** Find-or-insert: bump the first entry of the color, or append it with count 1. */
  function Increment(stats: seq<Stat>, color: string): (r: seq<Stat>)
    ensures |stats| <= |r| <= |stats| + 1
    ensures forall j :: 0 <= j < |stats| ==> r[j].color == stats[j].color
    ensures match FindIndex(stats, color)
      case Some(k) =>
        && |r| == |stats|
        && r[k].count == stats[k].count + 1
        && forall j :: 0 <= j < |stats| && j != k ==> r[j] == stats[j]
      case None => r == stats + [Stat(color, 1)]
  {
    match FindIndex(stats, color)
    case Some(k) => stats[k := stats[k].(count := stats[k].count + 1)]
    case None => stats + [Stat(color, 1)]
  }

  // ---------------------------------------------------------------------------
  // Activity window

  /** `slice(-n)`: the last `n` elements, or all of them when there are fewer. */
  function LastN<T>(s: seq<T>, n: nat): (r: seq<T>)
    requires n > 0  // `slice(-0)` would return the whole array
    ensures |r| == Min(n, |s|)
    ensures r == s[|s| - |r|..]
  {
    if |s| <= n then s else s[|s| - n..]
  }

  function Slide(prev: seq<ActivityPoint>, p: ActivityPoint): (r: seq<ActivityPoint>)
    ensures |r| == Min(ActivityCap, |prev| + 1)
    ensures r[|r| - 1] == p
    ensures r[..|r| - 1] == prev[|prev| + 1 - |r|..]
  {
    LastN(prev + [p], ActivityCap)
  }

  // ---------------------------------------------------------------------------
  // The reducer

  function Step(s: LiveState, d: Delivery): (r: LiveState)
    ensures !IsNewClassification(d.message) ==> r == s
  {
    if IsNewClassification(d.message) then
      var c := Stamp(d.message.value.data, d.now);
      LiveState(
        PrependRecent(c, s.classifications),
        Increment(s.statistics, c.color),
        Slide(s.realtime, ActivityPoint(d.timeLabel, 1)))
    else
      s
  }

  /** The deliveries folded one after another, the last one last. */
  function Run(s: LiveState, ds: seq<Delivery>): LiveState
    decreases |ds|
  {
    if |ds| == 0 then s else Step(Run(s, ds[..|ds| - 1]), ds[|ds| - 1])
  }

  /** The classifications the deliveries create, newest first. */
  function Arrivals(ds: seq<Delivery>): seq<Classification>
    decreases |ds|
  {
    if |ds| == 0 then []
    else
      var d := ds[|ds| - 1];
      var earlier := Arrivals(ds[..|ds| - 1]);
      if IsNewClassification(d.message) then [Stamp(d.message.value.data, d.now)] + earlier else earlier
  }

  /** The activity points the deliveries create, oldest first. */
  function Points(ds: seq<Delivery>): seq<ActivityPoint>
    decreases |ds|
  {
    if |ds| == 0 then []
    else
      var d := ds[|ds| - 1];
      var earlier := Points(ds[..|ds| - 1]);
      if IsNewClassification(d.message) then earlier + [ActivityPoint(d.timeLabel, 1)] else earlier
  }

  /** How many of the classifications have the color. */
  function Occurrences(cs: seq<Classification>, color: string): nat
  {
    if |cs| == 0 then 0
    else (if cs[0].color == color then 1 else 0) + Occurrences(cs[1..], color)
  }

  // ---------------------------------------------------------------------------
  // The snapshot seed

  function SeedStatistics(): seq<Stat>
  {
    [Stat("red apple", 45), Stat("green apple", 38)]
  }

  /** The seeded classification at position `i`: id `i + 1`, red at even positions and
      green at odd ones; `stampAt(i)` is the timestamp `i` minutes before the clock reading. */
  function SeedEntry(i: nat, stampAt: nat -> string): Classification
  {
    Classification(i + 1, if i % 2 == 0 then "red apple" else "green apple", stampAt(i))
  }

  function SeedClassifications(stampAt: nat -> string): (r: seq<Classification>)
    ensures |r| == 20
    ensures forall i :: 0 <= i < 20 ==> r[i] == SeedEntry(i, stampAt)
  {
    seq(20, i requires 0 <= i => SeedEntry(i, stampAt))
  }

  function Seeded(stampAt: nat -> string): LiveState
  {
    LiveState(SeedClassifications(stampAt), SeedStatistics(), [])
  }
}
