# Ultrasonic theremin: a Dafny model of its sequential core

The theremin reads a hand's distance from an ultrasonic sensor and a
potentiometer on a Raspberry Pi, publishes both over MQTT, and a laptop
server turns them into a pitch, a volume and a play/silence gate for a
harmonic tone synthesiser. This project models the three pieces of
sequential logic in that pipeline and proves what they promise:

- `sensors.dfy`, module `Sensors` (rpi/sensors.py): the five-reading
  moving-average filter over a `deque(maxlen=5)`, the potentiometer
  normalisation, and the main loop that publishes a cycle only when both
  readings succeed. `SensorNode` holds the deque as a `seq<real>`, a ghost
  history of every distance appended, and the log of publications.
- `server.dfy`, module `Server` (server/server.py): the four globals
  (`current_distance`, `current_volume`, `current_frequency`,
  `is_playing`) and `on_message`: parse, topic dispatch, the three-band
  distance-to-frequency policy, and the hand-off to the audio engine.
  `Globals` is the class of those globals; `Next` is the pure transition
  its `OnMessage` is proved against.
- `audio_engine.dfy`, module `AudioEngine` (server/audio_engine.py): the
  harmonic tone, silence, the audio callback's choice between them, the
  parameter store and the downsampled dashboard waveform. `Engine` holds
  the three globals; `GenerateTone` accumulates the harmonics in a loop and
  is proved equal to the specification function `Tone`.
- `wrappers.dfy`, module `Wrappers`: the `Option` type used for Python's
  `None` results.

Numbers are mathematical reals. `np.sin` is a parameter; the bounds on the
output hold for every function `IsSine` accepts (sin(0) = 0 and values in
[-1, 1]). The hardware reads and the payload parse come in as `Option`
values, with `None` standing for a call that raised.

Two points where the code and its design description differ; the model
follows the code:
- `get_volume` does not clamp: pot values outside 0..1023 give volumes
  outside [0, 1] (`Sensors.GetVolume` states both directions).
- Buffer lengths are `int(SAMPLE_RATE * duration)`, which truncates. They
  are not rounded.

Other behaviour of the code as written that the model keeps:
- Both tolerance bands include their end points, so 2 cm and 25 cm are
  caught by the first band. This gives the same result.
- The payload is parsed before the topic is looked at, so a non-numeric
  `control/status` message is dropped without reaching the engine.
- In the silent band the displayed distance keeps the raw value.
- Every tone buffer restarts at t = 0, so the phase jumps at each buffer
  boundary.

## Model

| member | source | states |
|---|---|---|
| `Sensors.PushedShape` | rpi/sensors.py:46-55 | after an append the deque holds 1 to 5 readings, the newest last; a full deque drops exactly its oldest reading and keeps the other four in order; a deque that was not full keeps all of them |
| `Sensors.WindowPushed` | rpi/sensors.py:46-55 | appending to the window of a history gives the window (last min(5, n) readings, in arrival order) of the extended history |
| `Sensors.SumBounds` | rpi/sensors.py:59 | readings bounded by lo and hi give a sum between n·lo and n·hi |
| `Sensors.MeanBetween` | rpi/sensors.py:59 | the filtered distance lies between any lower and any upper bound of the buffered readings, so between their minimum and maximum |
| `Sensors.MeanOfConstant` | rpi/sensors.py:59 | if every buffered reading equals c, the filtered distance is c |
| `Sensors.MeanOfTens` | rpi/sensors.py:55-60 | five readings of 10 filter to 10 |
| `Sensors.GetVolume` | rpi/sensors.py:68-81 | a failed read gives `None`; otherwise volume·1023 equals the pot value; pot values in 0..1023 give [0, 1], with 0 giving 0 and 1023 giving 1; values above 1023 give more than 1 and values below 0 give less than 0 (no clamp) |
| `Sensors.Publications` | rpi/sensors.py:99-104 | a cycle publishes something exactly when both readings are present, and then the distance followed by the volume |
| `Sensors.TraceAlternates` | rpi/sensors.py:93-110 | across any run of cycles the bus receives complete (distance, volume) pairs, distance first |
| `Sensors.SensorNode.constructor` | rpi/sensors.py:46 | the deque, the history and the publish log start empty |
| `Sensors.SensorNode.GetFilteredDistance` | rpi/sensors.py:48-66 | a failed read returns `None` and leaves the deque and history unchanged; a successful read is appended (the deque stays within 5 readings) and the result is the mean of the last min(5, count) readings; the deque stays the window of the history |
| `Sensors.SensorNode.Cycle` | rpi/sensors.py:95-104 | the distance is filed whether or not the volume read succeeds; the log grows by the cycle's publications, computed from the filtered distance and the volume |
| `Sensors.SensorNode.Run` | rpi/sensors.py:93-110 | over a schedule of readings the history grows by every successful distance in order, and the log grows by the publications of each cycle in turn |
| `AudioEngine.BufferLengths` | server/audio_engine.py:10-12 | CHUNK_SIZE = int(44100·0.05) = 2205; the 20 ms render has int(44100·0.02) = 882 samples |
| `AudioEngine.SampleTimes` | server/audio_engine.py:36 | the time base has int(SAMPLE_RATE·duration) points |
| `AudioEngine.SampleTimesAtRate` | server/audio_engine.py:36 | when SAMPLE_RATE·duration is whole, sample i is taken at i/SAMPLE_RATE, and sample 0 at t = 0 |
| `AudioEngine.MaxAmplitude` | server/audio_engine.py:15-21 | the fixed divisor, the sum of the harmonic weights, is 3.98, and every weight is positive |
| `AudioEngine.HarmonicSumStep` | server/audio_engine.py:42-45 | each `waveform += harmonic_wave` adds harmonic k to the sum of the first k |
| `AudioEngine.TermBounded` | server/audio_engine.py:43-44 | one weighted harmonic stays within its weight |
| `AudioEngine.HarmonicSumBounded` | server/audio_engine.py:42-48 | with non-negative weights the harmonic sum never exceeds the sum of the weights in magnitude |
| `AudioEngine.HarmonicSumAtZero` | server/audio_engine.py:42-45 | at t = 0 the harmonic sum is 0 |
| `AudioEngine.Tone` | server/audio_engine.py:33-54 | a tone buffer has int(SAMPLE_RATE·duration) samples |
| `AudioEngine.ToneSampleBounded` | server/audio_engine.py:47-52 | dividing by the fixed divisor and scaling keeps each sample within ±volume: no clipping beyond the volume |
| `AudioEngine.ToneBounded` | server/audio_engine.py:33-54 | every sample of every tone buffer has magnitude at most |volume| |
| `AudioEngine.ToneStartsAtZero` | server/audio_engine.py:36-44 | every tone buffer restarts its phase, so its first sample is 0 for any frequency and volume |
| `AudioEngine.GenerateTone` | server/audio_engine.py:33-54 | the harmonic loop, the division by the weight sum and the volume scaling compute exactly the tone: sample i is volume·(Σ amp_k·sin(2π·f·mult_k·t_i))/3.98 |
| `AudioEngine.SilenceShape` | server/audio_engine.py:56-59 | silence has int(SAMPLE_RATE·duration) samples, all zero; 2205 for one block |
| `AudioEngine.CallbackOutputShape` | server/audio_engine.py:61-82 | the callback always fills exactly `frames` samples; it renders the tone only when playing with frequency > 0, nothing raised and the 2205-sample block fits; in every other case it writes zeros; no sample exceeds the volume |
| `AudioEngine.EveryNthLength` | server/audio_engine.py:132 | `s[::k]` has ceil(len/k) elements |
| `AudioEngine.EveryNthAt` | server/audio_engine.py:132 | element i of `s[::k]` is s[k·i] |
| `AudioEngine.WaveformShape` | server/audio_engine.py:123-136 | when audible the dashboard gets 45 points, point i being sample 20·i of an 882-sample render; otherwise 50 zeros |
| `AudioEngine.Engine.constructor` | server/audio_engine.py:24-26 | the engine starts at 440 Hz, volume 0.5, silent |
| `AudioEngine.Engine.UpdateAudioParams` | server/audio_engine.py:115-121 | frequency, volume and gate become exactly the arguments, and nothing else changes |
| `AudioEngine.Engine.AudioCallback` | server/audio_engine.py:61-82 | `outdata` ends up holding the callback's output for the current parameters: the tone, silence, or zeros after a failure |
| `AudioEngine.Engine.GetCurrentWaveform` | server/audio_engine.py:123-136 | returns every 20th sample of a 20 ms render when playing with frequency > 0, else 50 zeros |
| `Server.Frequency` | server/server.py:63-64 | on [2, 25] the frequency lies in [256, 1024], with 2 cm giving 1024 Hz and 25 cm giving 256 Hz |
| `Server.FrequencyDecreasing` | server/server.py:63-64 | the mapping strictly decreases in distance: closer means higher pitch |
| `Server.FrequencyAtMidpoint` | server/server.py:63-64 | 13.5 cm gives 640 Hz |
| `Server.MapDistance` | server/server.py:56-82 | 2 ≤ d ≤ 25 plays the interpolated frequency and shows d; 25 < d ≤ 27 shows 25 and plays 256 Hz; 0 ≤ d < 2 shows 2 and plays 1024 Hz; outside [0, 27] it is silent with frequency 0 and shows d; it plays exactly when 0 ≤ d ≤ 27 |
| `Server.MapDistanceExamples` | server/server.py:60-82 | 1 cm plays 1024 Hz shown as 2 cm; 13.5 cm plays 640 Hz; 50 cm is silent |
| `Server.ConsistentGate` | server/server.py:60-82 | under the state invariant, playing holds exactly when frequency > 0, and a playing frequency lies in [256, 1024] |
| `Server.Next` | server/server.py:47-104 | an unparsed payload changes nothing; a volume message changes only the volume; status and other topics change nothing; a distance message keeps the volume, plays exactly when 0 ≤ d ≤ 27 and otherwise shows the raw d with frequency 0; the state invariant is preserved |
| `Server.RunConsistent` | server/server.py:47-104 | every sequence of messages keeps the state invariant |
| `Server.InitialConsistent` | server/server.py:29-32 | the start-up globals satisfy the invariant |
| `Server.Globals.constructor` | server/server.py:29-32 | the globals start at distance 0, volume 0.5, frequency 0, silent, beside a fresh engine |
| `Server.Globals.OnMessage` | server/server.py:47-104 | the globals move by `Next`; an unparsed payload leaves the engine untouched; otherwise the engine receives exactly (frequency, volume, playing); the engine's gate keeps agreeing with the server's |
| `Server.EngineSoundsIffPlaying` | server/server.py:101 | while the globals are valid, the engine renders a tone exactly when the server is playing, at the server's frequency and volume |

## Left out

- MQTT client setup, connect, subscribe, publish transport, `loop_start`/`loop_forever` and the connect/disconnect callbacks: network I/O. Publishing is modelled as appending to `SensorNode.published`.
- Flask routes, SocketIO emits, `broadcast_state`, `broadcast_sensor_update` and the 20 Hz `background_broadcast` thread: dashboard transport and timers. `broadcast_state` is treated as a call that cannot fail and changes no state.
- `sounddevice` stream creation, start, stop and close, the fixed `device=4`, the callback's `status` argument, and the unused `audio_queue`: a foreign audio library.
- `grovepi.ultrasonicRead` and `grovepi.analogRead`: hardware. Each read is an input that yields a value or fails.
- Threads: the MQTT thread, the broadcast thread and the audio callback share globals without locks. Each handler is modelled as one atomic step, so a torn read of the engine's three parameters is not captured.
- `main`'s `while True` loop runs for ever and stops on KeyboardInterrupt. `SensorNode.Run` models it over a finite schedule of readings; the sleep between cycles and the shutdown are not modelled.
- Floating point: the model uses reals. It leaves out numpy's float32 cast, rounding, and the text round trip `str(value)` → `float(payload)`. Python 2's `str` keeps 12 significant digits, so the server can see a rounded distance. It also leaves out IEEE special values: a `nan` payload parses and falls into the silent branch.
- `np.sin` is abstract (any `IsSine` function), and `np.pi` is the decimal value of the double constant.
- AudioEngine.NumSamples: requires a non-negative duration, because numpy raises for a negative sample count; the engine only ever passes 0.05 s and 0.02 s.
- AudioEngine.Engine.AudioCallback: the number of frames is taken to be `outdata`'s length, as the audio library guarantees. The case where the two differ is not modelled; there the zero-fill would itself raise.
- The `DISTANCE_MIN`/`DISTANCE_MAX` constants in rpi/sensors.py and all `print` output: they are only used for logging.
- test_server.py is not part of this model. It is a mock data feeder for the dashboard, and its two-band mapping is a simplified copy of the server's.
