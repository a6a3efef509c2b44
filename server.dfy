/** The server's message handler (server/server.py): four module globals
    (the displayed distance, the volume, the frequency and the gate),
    rewritten on each bus message through a three-band, first-match-wins
    distance-to-frequency policy, then handed to the audio engine.

    A message carries its topic and the result of
    `float(msg.payload.decode())`: `None` when that raised, in which case
    the handler's `except` branch drops the message. */
module Server {
  import opened Wrappers
  import AudioEngine

  const DistanceMin: real := 2.0
  const DistanceMax: real := 25.0
  /** The lower tolerance band starts here (high base tone). */
  const BufferMin: real := 0.0
  /** The upper tolerance band ends here (low base tone). */
  const BufferMax: real := 27.0
  /** C4 */
  const FreqMin: real := 256.0
  /** C6 */
  const FreqMax: real := 1024.0

  const DistanceTopic: string := "sensors/distance"
  const VolumeTopic: string := "sensors/volume"
  const StatusTopic: string := "control/status"

  /** A bus message after parsing: `value` is `None` when the payload is
      not a decimal number. */
  datatype Message = Message(topic: string, value: Option<real>)

  /** The four globals `current_distance`, `current_volume`,
      `current_frequency`, `is_playing`. */
  datatype State = State(distance: real, volume: real, frequency: real, playing: bool)

  /** Their values at start-up. */
  const Initial: State := State(0.0, 0.5, 0.0, false)

  // ---------------------------------------------------------------------
  // Distance to frequency

  /** Linear interpolation, inverted: closer means higher pitch. */
  function Frequency(d: real): (f: real)
    ensures DistanceMin <= d <= DistanceMax ==> FreqMin <= f <= FreqMax
    ensures d == DistanceMin ==> f == FreqMax
    ensures d == DistanceMax ==> f == FreqMin
  {
    var normalized := (d - DistanceMin) / (DistanceMax - DistanceMin);
    FreqMin + (FreqMax - FreqMin) * (1.0 - normalized)
  }

  /** Within (and beyond) the band the frequency strictly decreases with
      distance. */
  lemma FrequencyDecreasing(d1: real, d2: real)
    requires d1 < d2
    ensures Frequency(d1) > Frequency(d2)
  {
  }

  /** The midpoint 13.5 cm maps to 640 Hz. */
  lemma FrequencyAtMidpoint()
    ensures Frequency(13.5) == 640.0
  {
  }

  /** What the distance branch writes: the displayed distance, the
      frequency and the gate. */
  datatype Mapped = Mapped(distance: real, frequency: real, playing: bool)

  /** The if/elif chain of the distance branch. Both tolerance bands
      include their end points, so 25 and 2 also satisfy the first test,
      which wins. */
  function MapDistance(value: real): (m: Mapped)
    ensures DistanceMin <= value <= DistanceMax ==> m == Mapped(value, Frequency(value), true)
    ensures DistanceMax < value <= BufferMax ==> m == Mapped(DistanceMax, FreqMin, true)
    ensures BufferMin <= value < DistanceMin ==> m == Mapped(DistanceMin, FreqMax, true)
    ensures value < BufferMin || value > BufferMax ==> m == Mapped(value, 0.0, false)
    ensures m.playing <==> BufferMin <= value <= BufferMax
    ensures m.playing ==>
              DistanceMin <= m.distance <= DistanceMax && m.frequency == Frequency(m.distance) &&
              FreqMin <= m.frequency <= FreqMax
  {
    if DistanceMin <= value <= DistanceMax then
      Mapped(value, Frequency(value), true)
    else if DistanceMax <= value <= BufferMax then
      Mapped(DistanceMax, Frequency(DistanceMax), true)
    else if BufferMin <= value <= DistanceMin then
      Mapped(DistanceMin, Frequency(DistanceMin), true)
    else
      Mapped(value, 0.0, false)
  }

  /** The three worked distances: 1 cm plays 1024 Hz, 13.5 cm plays 640 Hz,
      50 cm is silent. */
  lemma MapDistanceExamples()
    ensures MapDistance(1.0) == Mapped(2.0, 1024.0, true)
    ensures MapDistance(13.5) == Mapped(13.5, 640.0, true)
    ensures MapDistance(50.0) == Mapped(50.0, 0.0, false)
  {
    FrequencyAtMidpoint();
  }

  // ---------------------------------------------------------------------
  // The handler as a transition

  /** The state invariant: a playing state shows a distance in [2, 25]
      and plays that distance's frequency (so within [256, 1024]);
      a silent state has frequency 0. */
  predicate Consistent(s: State)
  {
    (s.playing ==> DistanceMin <= s.distance <= DistanceMax && s.frequency == Frequency(s.distance)) &&
    (!s.playing ==> s.frequency == 0.0)
  }

  /** Under the invariant the gate is exactly "frequency > 0" and a
      playing frequency lies in [256, 1024]. */
  lemma ConsistentGate(s: State)
    requires Consistent(s)
    ensures s.playing <==> s.frequency > 0.0
    ensures s.playing ==> FreqMin <= s.frequency <= FreqMax
  {
  }

  /** `on_message`'s effect on the four globals. */
  function Next(s: State, msg: Message): (r: State)
    ensures msg.value.None? ==> r == s
    ensures msg.topic != DistanceTopic && msg.topic != VolumeTopic ==> r == s
    ensures msg.value.Some? && msg.topic == VolumeTopic ==> r == s.(volume := msg.value.value)
    ensures msg.value.Some? && msg.topic == DistanceTopic ==>
              r.volume == s.volume &&
              (r.playing <==> BufferMin <= msg.value.value <= BufferMax) &&
              (!r.playing ==> r.distance == msg.value.value && r.frequency == 0.0)
    ensures Consistent(s) ==> Consistent(r)
  {
    match msg.value
    case None => s
    case Some(value) =>
      if msg.topic == DistanceTopic then
        var m := MapDistance(value);
        State(m.distance, s.volume, m.frequency, m.playing)
      else if msg.topic == VolumeTopic then
        s.(volume := value)
      else
        s
  }

  /** The globals after a sequence of messages. */
  function Run(s: State, msgs: seq<Message>): State
  {
    if msgs == [] then s else Next(Run(s, msgs[..|msgs| - 1]), msgs[|msgs| - 1])
  }

  /** From start-up, every sequence of messages keeps the invariant. */
  lemma {:induction false} RunConsistent(s: State, msgs: seq<Message>)
    requires Consistent(s)
    ensures Consistent(Run(s, msgs))
  {
    if msgs != [] {
      RunConsistent(s, msgs[..|msgs| - 1]);
    }
  }

  lemma InitialConsistent()
    ensures Consistent(Initial)
  {
  }

  // ---------------------------------------------------------------------
  // The globals and the hand-off to the audio engine

  /** The module globals of server/server.py and the audio engine they
      drive. */
  class Globals {
    var currentDistance: real
    var currentVolume: real
    var currentFrequency: real
    var isPlaying: bool
    const engine: AudioEngine.Engine

    function Snapshot(): State
      reads this
    {
      State(currentDistance, currentVolume, currentFrequency, isPlaying)
    }

    /** The globals keep the state invariant, and the engine's gate agrees
        with the server's, with the same frequency and volume while
        playing. */
    ghost predicate Valid()
      reads this, engine
    {
      Consistent(Snapshot()) &&
      engine.isPlaying == isPlaying &&
      (isPlaying ==> engine.currentFrequency == currentFrequency && engine.currentVolume == currentVolume)
    }

    /** Start-up: the server's initial globals beside a freshly initialised
        engine (440 Hz, volume 0.5, silent). */
    constructor (e: AudioEngine.Engine)
      requires e.Current() == AudioEngine.Params(440.0, 0.5, false)
      ensures Valid() && Snapshot() == Initial && engine == e
    {
      currentDistance := 0.0;
      currentVolume := 0.5;
      currentFrequency := 0.0;
      isPlaying := false;
      engine := e;
    }

    /** `on_message`. A payload that did not parse changes nothing and is
        not passed on; otherwise the topic's branch runs and the engine
        then receives exactly (frequency, volume, playing). Broadcasting to
        the dashboard is not modelled. */
    method OnMessage(msg: Message)
      requires Valid()
      modifies this, engine
      ensures Valid()
      ensures Snapshot() == Next(old(Snapshot()), msg)
      ensures msg.value.None? ==> unchanged(engine)
      ensures msg.value.Some? ==>
                engine.Current() == AudioEngine.Params(currentFrequency, currentVolume, isPlaying)
    {
      match msg.value
      case None =>
      case Some(value) =>
        if msg.topic == DistanceTopic {
          currentDistance := value;
          if DistanceMin <= currentDistance <= DistanceMax {
            currentFrequency := Frequency(currentDistance);
            isPlaying := true;
          } else if DistanceMax <= currentDistance <= BufferMax {
            currentDistance := DistanceMax;
            currentFrequency := Frequency(currentDistance);
            isPlaying := true;
          } else if BufferMin <= currentDistance <= DistanceMin {
            currentDistance := DistanceMin;
            currentFrequency := Frequency(currentDistance);
            isPlaying := true;
          } else {
            currentFrequency := 0.0;
            isPlaying := false;
          }
        } else if msg.topic == VolumeTopic {
          currentVolume := value;
        } else if msg.topic == StatusTopic {
          // the status text is only logged
        }
        engine.UpdateAudioParams(currentFrequency, currentVolume, isPlaying);
    }
  }

  /** Whenever the globals are valid, the audio callback renders a tone
      exactly when the server says it is playing, at the server's frequency
      and volume. */
  lemma EngineSoundsIffPlaying(g: Globals)
    requires g.Valid()
    ensures AudioEngine.Audible(g.engine.Current()) <==> g.isPlaying
    ensures g.isPlaying ==>
              g.engine.currentFrequency == g.currentFrequency && g.engine.currentVolume == g.currentVolume
  {
    ConsistentGate(g.Snapshot());
  }
}
