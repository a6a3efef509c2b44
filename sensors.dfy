/** The sensing side of the theremin (rpi/sensors.py): a moving-average
    filter over the last five ultrasonic distance readings, the
    potentiometer-to-volume normalisation, and the main loop that publishes
    a distance and a volume on the bus only when both readings succeeded.
    The hardware reads are inputs that either yield a value or fail
    (`None`); publishing appends to the `published` log. */
module Sensors {
  import opened Wrappers

  /** FILTER_WINDOW_SIZE: the `maxlen` of the distance deque. */
  const FilterWindowSize: nat := 5
  /** The largest value of the 10-bit analog read. */
  const PotMax: int := 1023

  const DistanceTopic: string := "sensors/distance"
  const VolumeTopic: string := "sensors/volume"

  /** One `mqtt_client.publish(topic, str(value))`. */
  datatype Publication = Publication(topic: string, payload: real)

  /** The outcome of the two hardware reads of one loop iteration. */
  datatype Readings = Readings(distance: Option<real>, pot: Option<int>)

  // ---------------------------------------------------------------------
  // The moving average

  /** Python's `sum` over the buffer, added left to right. */
  function Sum(s: seq<real>): real
  {
    if s == [] then 0.0 else Sum(s[..|s| - 1]) + s[|s| - 1]
  }

  /** `sum(buffer) / float(len(buffer))`. */
  function Mean(s: seq<real>): real
    requires s != []
  {
    Sum(s) / (|s| as real)
  }

  /** `distance_buffer.append(x)` on a `deque(maxlen=5)`: when the deque is
      full its leftmost (oldest) element is dropped. */
  function Pushed(buffer: seq<real>, x: real): seq<real>
    requires |buffer| <= FilterWindowSize
  {
    if |buffer| < FilterWindowSize then buffer + [x] else buffer[1..] + [x]
  }

  /** The reference definition of the filter's window: the last
      min(5, n) readings of a history of n readings, in arrival order. */
  function Window(history: seq<real>): (w: seq<real>)
    ensures |w| == if |history| <= FilterWindowSize then |history| else FilterWindowSize
  {
    if |history| <= FilterWindowSize then history
    else history[|history| - FilterWindowSize..]
  }

  /** After any append the buffer holds at most five readings; a full
      buffer drops exactly its oldest reading and keeps the rest in order;
      a buffer that is not full just grows by the new reading. */
  lemma PushedShape(buffer: seq<real>, x: real)
    requires |buffer| <= FilterWindowSize
    ensures 0 < |Pushed(buffer, x)| <= FilterWindowSize
    ensures Pushed(buffer, x)[|Pushed(buffer, x)| - 1] == x
    ensures |buffer| == FilterWindowSize ==>
              |Pushed(buffer, x)| == FilterWindowSize &&
              forall i :: 0 <= i < FilterWindowSize - 1 ==> Pushed(buffer, x)[i] == buffer[i + 1]
    ensures |buffer| < FilterWindowSize ==>
              |Pushed(buffer, x)| == |buffer| + 1 && Pushed(buffer, x)[..|buffer|] == buffer
  {
  }

  /** The deque, updated append by append, is always the window of the
      whole history: appending to the window of h gives the window of
      h + [x]. */
  lemma WindowPushed(history: seq<real>, x: real)
    ensures Pushed(Window(history), x) == Window(history + [x])
  {
    var h' := history + [x];
    if |history| >= FilterWindowSize {
      var n := |history|;
      assert Window(history)[1..] == history[n - FilterWindowSize + 1..];
      assert Window(h') == h'[n + 1 - FilterWindowSize..];
      assert h'[n + 1 - FilterWindowSize..] == history[n + 1 - FilterWindowSize..] + [x];
    }
  }

  /** Every element between lo and hi puts the sum between n*lo and n*hi. */
  lemma {:induction false} SumBounds(s: seq<real>, lo: real, hi: real)
    requires forall i :: 0 <= i < |s| ==> lo <= s[i] <= hi
    ensures (|s| as real) * lo <= Sum(s) <= (|s| as real) * hi
  {
    if s != [] {
      var init := s[..|s| - 1];
      assert forall i :: 0 <= i < |init| ==> init[i] == s[i];
      SumBounds(init, lo, hi);
      assert (|s| as real) * lo == (|init| as real) * lo + lo;
      assert (|s| as real) * hi == (|init| as real) * hi + hi;
    }
  }

  /** The filtered distance lies between any lower and upper bound of the
      buffered readings, in particular between their minimum and maximum. */
  lemma MeanBetween(s: seq<real>, lo: real, hi: real)
    requires s != []
    requires forall i :: 0 <= i < |s| ==> lo <= s[i] <= hi
    ensures lo <= Mean(s) <= hi
  {
    SumBounds(s, lo, hi);
    var n := |s| as real;
    assert n > 0.0;
    assert Sum(s) / n >= (n * lo) / n;
    assert Sum(s) / n <= (n * hi) / n;
  }

  /** If every buffered reading equals c, the filtered distance is c. */
  lemma MeanOfConstant(s: seq<real>, c: real)
    requires s != []
    requires forall i :: 0 <= i < |s| ==> s[i] == c
    ensures Mean(s) == c
  {
    MeanBetween(s, c, c);
  }

  /** Five readings of 10 cm filter to 10 cm. */
  lemma MeanOfTens()
    ensures Mean([10.0, 10.0, 10.0, 10.0, 10.0]) == 10.0
  {
    MeanOfConstant([10.0, 10.0, 10.0, 10.0, 10.0], 10.0);
  }

  // ---------------------------------------------------------------------
  // Volume and the publish gate

  /** `get_volume`: `pot_value / 1023.0`, or `None` when the analog read
      raised. No clamp is applied: values outside 0..1023 map outside
      [0, 1]. */
  function GetVolume(pot: Option<int>): (v: Option<real>)
    ensures v.None? <==> pot.None?
    ensures v.Some? ==> v.value * 1023.0 == pot.value as real
    ensures v.Some? && 0 <= pot.value <= PotMax ==> 0.0 <= v.value <= 1.0
    ensures pot == Some(0) ==> v == Some(0.0)
    ensures pot == Some(PotMax) ==> v == Some(1.0)
    ensures v.Some? && pot.value > PotMax ==> v.value > 1.0
    ensures v.Some? && pot.value < 0 ==> v.value < 0.0
  {
    match pot
    case None => None
    case Some(p) => Some(p as real / 1023.0)
  }

  /** What one loop iteration publishes: the distance then the volume when
      both are present, nothing otherwise. */
  function Publications(distance: Option<real>, volume: Option<real>): (ps: seq<Publication>)
    ensures ps != [] <==> distance.Some? && volume.Some?
    ensures ps != [] ==>
              ps == [Publication(DistanceTopic, distance.value), Publication(VolumeTopic, volume.value)]
  {
    if distance.Some? && volume.Some? then
      [Publication(DistanceTopic, distance.value), Publication(VolumeTopic, volume.value)]
    else []
  }

  /** The readings a cycle appends to the history: the distance, if read. */
  function ReadsOf(r: Readings): seq<real>
  {
    match r.distance
    case None => []
    case Some(x) => [x]
  }

  /** What a cycle publishes, given the history that includes its own
      distance reading. */
  function CycleOutput(history: seq<real>, r: Readings): seq<Publication>
    requires r.distance.Some? ==> history != []
  {
    var filtered := if r.distance.Some? then Some(Mean(Window(history))) else None;
    Publications(filtered, GetVolume(r.pot))
  }

  /** The distances a run of cycles appends, in order. */
  function SuccessfulReads(rs: seq<Readings>): seq<real>
  {
    if rs == [] then [] else SuccessfulReads(rs[..|rs| - 1]) + ReadsOf(rs[|rs| - 1])
  }

  /** Everything a run of cycles publishes, starting from history h0. */
  function Trace(h0: seq<real>, rs: seq<Readings>): seq<Publication>
  {
    if rs == [] then []
    else Trace(h0, rs[..|rs| - 1]) + CycleOutput(h0 + SuccessfulReads(rs), rs[|rs| - 1])
  }

  /** A publish log made of complete (distance, volume) pairs, distance
      first. */
  ghost predicate Paired(ps: seq<Publication>)
  {
    |ps| % 2 == 0 &&
    forall i :: 0 <= i < |ps| ==> ps[i].topic == if i % 2 == 0 then DistanceTopic else VolumeTopic
  }

  lemma PairedAppend(t: seq<Publication>, out: seq<Publication>)
    requires Paired(t)
    requires out == [] || (|out| == 2 && out[0].topic == DistanceTopic && out[1].topic == VolumeTopic)
    ensures Paired(t + out)
  {
    if out != [] {
      forall i | 0 <= i < |t + out|
        ensures (t + out)[i].topic == if i % 2 == 0 then DistanceTopic else VolumeTopic
      {
        if i >= |t| {
          assert (t + out)[i] == out[i - |t|];
          assert i - |t| == 0 <==> i % 2 == 0;
        }
      }
    }
  }

  /** The bus sees distance and volume strictly alternating, distance first,
      in complete pairs. */
  lemma {:induction false} TraceAlternates(h0: seq<real>, rs: seq<Readings>)
    ensures Paired(Trace(h0, rs))
  {
    if rs != [] {
      var init := rs[..|rs| - 1];
      TraceAlternates(h0, init);
      PairedAppend(Trace(h0, init), CycleOutput(h0 + SuccessfulReads(rs), rs[|rs| - 1]));
    }
  }

  // ---------------------------------------------------------------------
  // The sensing node's state

  /** The module-level state of rpi/sensors.py: the distance deque, plus a
      ghost record of every distance appended and the publish log. */
  class SensorNode {
    var buffer: seq<real>
    ghost var history: seq<real>
    var published: seq<Publication>

    /** The deque always holds the window of the history. */
    ghost predicate Valid()
      reads this
    {
      buffer == Window(history)
    }

    constructor ()
      ensures Valid() && buffer == [] && history == [] && published == []
    {
      buffer := [];
      history := [];
      published := [];
    }

    /** `get_filtered_distance`. A failed read returns `None` before the
        append and leaves the buffer alone; otherwise the reading is
        appended and the mean of the last min(5, count) readings returned.
        The buffer is never empty after the append, so the branch that
        returns the raw reading is never taken. */
    method GetFilteredDistance(read: Option<real>) returns (filtered: Option<real>)
      requires Valid()
      modifies this
      ensures Valid() && published == old(published)
      ensures read.None? ==> filtered.None? && buffer == old(buffer) && history == old(history)
      ensures read.Some? ==>
                history == old(history) + [read.value] &&
                buffer == Pushed(old(buffer), read.value) &&
                |buffer| <= FilterWindowSize &&
                filtered == Some(Mean(Window(history)))
    {
      match read
      case None =>
        filtered := None;
      case Some(raw) =>
        WindowPushed(history, raw);
        buffer := Pushed(buffer, raw);
        history := history + [raw];
        if |buffer| > 0 {
          filtered := Some(Sum(buffer) / (|buffer| as real));
        } else {
          filtered := Some(raw);
        }
    }

    /** One iteration of `main`'s loop: read the distance (through the
        filter), read the volume, publish both only if both are present. */
    method Cycle(r: Readings)
      requires Valid()
      modifies this
      ensures Valid()
      ensures history == old(history) + ReadsOf(r)
      ensures published == old(published) + CycleOutput(history, r)
    {
      var distance := GetFilteredDistance(r.distance);
      var volume := GetVolume(r.pot);
      if distance.Some? && volume.Some? {
        published := published + [Publication(DistanceTopic, distance.value)];
        published := published + [Publication(VolumeTopic, volume.value)];
      }
    }

    /** `main`'s loop, run over a finite schedule of hardware readings. */
    method Run(rs: seq<Readings>)
      requires Valid()
      modifies this
      ensures Valid()
      ensures history == old(history) + SuccessfulReads(rs)
      ensures published == old(published) + Trace(old(history), rs)
    {
      ghost var h0 := history;
      ghost var p0 := published;
      for k := 0 to |rs|
        invariant Valid()
        invariant history == h0 + SuccessfulReads(rs[..k])
        invariant published == p0 + Trace(h0, rs[..k])
      {
        assert rs[..k + 1][..k] == rs[..k];
        Cycle(rs[k]);
      }
      assert rs[..|rs|] == rs;
    }
  }
}
