/** The playback transport driven by the main loop: a play flag, a playhead
    that integrates frame time, an audio sink (abstracted to whether it holds
    a queued buffer and the speed it plays at) and the playhead's base rate in
    pixels per second. The pure functions below give each per-frame state
    update; class `Player` performs them in place and is proved to agree. */
module Transport {
  import opened Brightness
  import opened Buffers

  /** The playback speeds the speed key cycles through. */
  const SpeedPresets: set<real> := {0.25, 0.5, 1.0}

  datatype TransportState = TransportState(
    isPlaying: bool,
    playheadPos: real,
    sinkEmpty: bool,
    sinkSpeed: real,
    playbackSpeed: real,
    buffer: AudioBuffer)

  /** The state at start-up: a freshly built buffer, an empty sink at normal
      speed, the playhead at the left edge, not playing. `duration` is the
      buffer's length in seconds, as the audio library reports it. */
  function Initial(pixels: seq<Rgba>, windowWidth: real, duration: real): (s: TransportState)
    requires duration > 0.0
    ensures !s.isPlaying && s.sinkEmpty && s.playheadPos == 0.0 && s.sinkSpeed == 1.0
    ensures s.playbackSpeed * duration == windowWidth
    ensures s.buffer == Build(Transcode(pixels))
  {
    TransportState(false, 0.0, true, 1.0, windowWidth / duration, Build(Transcode(pixels)))
  }

  /** How far the playhead moves in a frame of `delta` seconds: never
      backwards when the rate, the sink speed and the frame time are all
      non-negative, and nothing at all in a zero-length frame. */
  function Increment(s: TransportState, delta: real): (inc: real)
    ensures 0.0 <= s.playbackSpeed && 0.0 <= s.sinkSpeed && 0.0 <= delta ==> 0.0 <= inc
    ensures delta == 0.0 ==> inc == 0.0
  {
    var scaled := s.playbackSpeed * s.sinkSpeed;
    MulNonNegative(s.playbackSpeed, s.sinkSpeed);
    MulNonNegative(scaled, delta);
    scaled * delta
  }

  /** The per-frame playhead update. */
  function Tick(s: TransportState, delta: real, windowWidth: real): (t: TransportState)
    ensures !s.isPlaying ==> t == s
    ensures t.isPlaying ==> s.isPlaying
    ensures t.sinkEmpty == s.sinkEmpty && t.sinkSpeed == s.sinkSpeed
    ensures t.playbackSpeed == s.playbackSpeed && t.buffer == s.buffer
  {
    if !s.isPlaying then s
    else if s.playheadPos < windowWidth then s.(playheadPos := s.playheadPos + Increment(s, delta))
    else s.(isPlaying := false, playheadPos := 0.0)
  }

  /** Loading a new image: stop the sink, rewind, install the new buffer and
      re-derive the playhead rate so that it crosses the window in the
      buffer's duration. The sink's speed is kept. */
  function Reload(s: TransportState, pixels: seq<Rgba>, windowWidth: real, duration: real): (t: TransportState)
    requires duration > 0.0
    ensures !t.isPlaying && t.sinkEmpty && t.playheadPos == 0.0
    ensures t.sinkSpeed == s.sinkSpeed
    ensures t.playbackSpeed * duration == windowWidth
    ensures t.buffer == Build(Transcode(pixels))
  {
    s.(sinkEmpty := true, isPlaying := false, playheadPos := 0.0,
       buffer := Build(Transcode(pixels)), playbackSpeed := windowWidth / duration)
  }

  /** The play/stop key: flip the play flag, and either queue the buffer on an
      empty sink or stop a busy one; the playhead rewinds either way. */
  function Toggle(s: TransportState): (t: TransportState)
    ensures t.isPlaying == !s.isPlaying
    ensures t.playheadPos == 0.0
    ensures t.sinkEmpty == !s.sinkEmpty
    ensures t.sinkSpeed == s.sinkSpeed && t.playbackSpeed == s.playbackSpeed && t.buffer == s.buffer
  {
    var flipped := s.(isPlaying := !s.isPlaying);
    if s.sinkEmpty then flipped.(playheadPos := 0.0, sinkEmpty := false)
    else flipped.(sinkEmpty := true, playheadPos := 0.0)
  }

  /** The next speed the speed key selects: 1 to 1/2 to 1/4 and back to 1;
      any other speed is left alone. */
  function CycleSpeed(speed: real): (next: real)
    ensures speed == 1.0 ==> next == 0.5
    ensures speed == 0.5 ==> next == 0.25
    ensures speed == 0.25 ==> next == 1.0
    ensures speed in SpeedPresets <==> next in SpeedPresets
    ensures speed in SpeedPresets ==> next != speed
    ensures speed !in SpeedPresets ==> next == speed
  {
    if speed == 1.0 then 0.5
    else if speed == 0.5 then 0.25
    else if speed == 0.25 then 1.0
    else speed
  }

  /** The speed key: only the sink's speed changes. */
  function PressSpeed(s: TransportState): (t: TransportState)
    ensures t.sinkSpeed == CycleSpeed(s.sinkSpeed)
    ensures t.(sinkSpeed := s.sinkSpeed) == s
  {
    s.(sinkSpeed := CycleSpeed(s.sinkSpeed))
  }

  /** The sink's own playback finishing its queued audio. The audio thread
      does this between frames; the main loop only observes it when it asks
      whether the sink is empty. */
  function Drain(s: TransportState): (t: TransportState)
    ensures t.sinkEmpty
    ensures t.(sinkEmpty := s.sinkEmpty) == s
  {
    s.(sinkEmpty := true)
  }

  /** An image load requested in a frame, with the new buffer's duration. */
  datatype ImageLoad = NoLoad | Load(pixels: seq<Rgba>, duration: real)

  /** One pass of the main loop: tick, then the image key, the play key and
      the speed key, in that order. `drained` says whether the sink finished
      its queued audio since the previous frame. */
  function Frame(s: TransportState, delta: real, windowWidth: real, drained: bool, load: ImageLoad,
                 playKey: bool, speedKey: bool): (t: TransportState)
    requires load.Load? ==> load.duration > 0.0
    ensures load.Load? && !playKey ==> !t.isPlaying && t.playheadPos == 0.0
    ensures playKey ==> t.playheadPos == 0.0
    ensures !speedKey ==> t.sinkSpeed == s.sinkSpeed
    ensures !drained && load.NoLoad? && !playKey ==> t.sinkEmpty == s.sinkEmpty
  {
    var heard := if drained then Drain(s) else s;
    var ticked := Tick(heard, delta, windowWidth);
    var loaded := if load.Load? then Reload(ticked, load.pixels, windowWidth, load.duration) else ticked;
    var toggled := if playKey then Toggle(loaded) else loaded;
    if speedKey then PressSpeed(toggled) else toggled
  }

  // ---------------------------------------------------------------------
  // Properties of the transitions

  /** While playing and left of the edge, a tick moves the playhead forward
      by one increment, so it never moves back for non-negative factors. */
  lemma TickAdvances(s: TransportState, delta: real, windowWidth: real)
    requires s.isPlaying && s.playheadPos < windowWidth
    ensures Tick(s, delta, windowWidth).isPlaying
    ensures Tick(s, delta, windowWidth).playheadPos == s.playheadPos + Increment(s, delta)
    ensures 0.0 <= s.playbackSpeed && 0.0 <= s.sinkSpeed && 0.0 <= delta ==>
      s.playheadPos <= Tick(s, delta, windowWidth).playheadPos < windowWidth + Increment(s, delta)
  {
  }

  /** A tick at or past the edge ends playback and rewinds the playhead. */
  lemma TickStopsAtEdge(s: TransportState, delta: real, windowWidth: real)
    requires s.isPlaying && s.playheadPos >= windowWidth
    ensures Tick(s, delta, windowWidth) == s.(isPlaying := false, playheadPos := 0.0)
  {
  }

  lemma MulNonNegative(a: real, b: real)
    ensures 0.0 <= a && 0.0 <= b ==> 0.0 <= a * b
  {
  }

  lemma MulMonotone(a: real, x: real, y: real)
    requires 0.0 <= a && x <= y
    ensures a * x <= a * y
  {
    MulNonNegative(a, y - x);
    assert a * (y - x) == a * y - a * x;
  }

  lemma IncrementBound(s: TransportState, delta: real, maxDelta: real)
    requires 0.0 <= s.playbackSpeed && 0.0 <= s.sinkSpeed <= 1.0 && 0.0 <= delta <= maxDelta
    ensures 0.0 <= Increment(s, delta) <= s.playbackSpeed * maxDelta
  {
    var rate, speed := s.playbackSpeed, s.sinkSpeed;
    var scaled := rate * speed;
    MulNonNegative(rate, speed);
    MulNonNegative(scaled, delta);
    MulMonotone(rate, speed, 1.0);
    MulMonotone(delta, scaled, rate);
    assert delta * scaled == scaled * delta && delta * rate == rate * delta;
    MulMonotone(rate, delta, maxDelta);
  }

  /** What every frame keeps true when frames last at most `maxDelta`
      seconds: the sink speed is a preset, the rate is non-negative, and the
      playhead is never negative and overshoots the edge by less than one
      maximal increment. */
  ghost predicate Sane(s: TransportState, windowWidth: real, maxDelta: real) {
    && s.sinkSpeed in SpeedPresets
    && 0.0 <= s.playbackSpeed
    && 0.0 <= s.playheadPos < windowWidth + s.playbackSpeed * maxDelta
  }

  lemma InitialSane(pixels: seq<Rgba>, windowWidth: real, duration: real, maxDelta: real)
    requires duration > 0.0 && windowWidth > 0.0 && maxDelta >= 0.0
    ensures Sane(Initial(pixels, windowWidth, duration), windowWidth, maxDelta)
  {
    var s := Initial(pixels, windowWidth, duration);
    assert 0.0 <= s.playbackSpeed * maxDelta;
  }

  lemma PresetBounds(speed: real)
    requires speed in SpeedPresets
    ensures 0.0 < speed <= 1.0
  {
  }

  lemma TickPreservesSane(s: TransportState, delta: real, windowWidth: real, maxDelta: real)
    requires Sane(s, windowWidth, maxDelta)
    requires 0.0 <= delta <= maxDelta && windowWidth > 0.0
    ensures Sane(Tick(s, delta, windowWidth), windowWidth, maxDelta)
  {
    var t := Tick(s, delta, windowWidth);
    if s.isPlaying && s.playheadPos < windowWidth {
      PresetBounds(s.sinkSpeed);
      IncrementBound(s, delta, maxDelta);
      assert t.playheadPos == s.playheadPos + Increment(s, delta);
    } else if s.isPlaying {
      assert t.playheadPos == 0.0;
      MulNonNegative(s.playbackSpeed, maxDelta);
    }
  }

  /** Every frame preserves `Sane`. */
  lemma FramePreservesSane(s: TransportState, delta: real, windowWidth: real, maxDelta: real,
                           drained: bool, load: ImageLoad, playKey: bool, speedKey: bool)
    requires Sane(s, windowWidth, maxDelta)
    requires 0.0 <= delta <= maxDelta && windowWidth > 0.0
    requires load.Load? ==> load.duration > 0.0
    ensures Sane(Frame(s, delta, windowWidth, drained, load, playKey, speedKey), windowWidth, maxDelta)
  {
    var heard := if drained then Drain(s) else s;
    var ticked := Tick(heard, delta, windowWidth);
    TickPreservesSane(heard, delta, windowWidth, maxDelta);
    var loaded := if load.Load? then Reload(ticked, load.pixels, windowWidth, load.duration) else ticked;
    if load.Load? {
      assert loaded.playbackSpeed == windowWidth / load.duration;
      MulNonNegative(loaded.playbackSpeed, maxDelta);
    }
    assert Sane(loaded, windowWidth, maxDelta);
  }

  /** The speed key returns to its starting speed after three presses, and
      not sooner for a preset speed. */
  lemma CycleSpeedPeriod(speed: real)
    ensures CycleSpeed(CycleSpeed(CycleSpeed(speed))) == speed
    ensures speed in SpeedPresets ==> CycleSpeed(CycleSpeed(speed)) != speed
  {
  }

  /** The play key twice leaves everything as it was, except that the
      playhead is rewound. */
  lemma ToggleTwice(s: TransportState)
    ensures Toggle(Toggle(s)) == s.(playheadPos := 0.0)
  {
  }

  /** `n` frames of `delta` seconds with no key pressed. */
  function Run(s: TransportState, n: nat, delta: real, windowWidth: real): TransportState {
    if n == 0 then s else Tick(Run(s, n - 1, delta, windowWidth), delta, windowWidth)
  }

  /** From the left edge, the playhead moves one fixed increment per frame
      while it has not yet reached the edge. */
  lemma {:induction false} RunAdvancesLinearly(s: TransportState, n: nat, delta: real, windowWidth: real)
    requires s.isPlaying && s.playheadPos == 0.0 && Increment(s, delta) >= 0.0
    requires n == 0 || (n - 1) as real * Increment(s, delta) < windowWidth
    ensures Run(s, n, delta, windowWidth) == s.(playheadPos := n as real * Increment(s, delta))
  {
    if n > 0 {
      var inc := Increment(s, delta);
      if n > 1 {
        assert (n - 2) as real * inc <= (n - 1) as real * inc;
      }
      RunAdvancesLinearly(s, n - 1, delta, windowWidth);
      var prev := Run(s, n - 1, delta, windowWidth);
      assert prev.playheadPos == (n - 1) as real * inc < windowWidth;
      assert Increment(prev, delta) == inc;
      assert (n - 1) as real * inc + inc == n as real * inc;
    }
  }

  /** With a positive increment, playback ends by itself: if `k` frames are
      the first to bring the playhead to the edge, it is then less than one
      increment past it, and the next frame stops playback and rewinds. */
  lemma PlaybackEnds(s: TransportState, k: nat, delta: real, windowWidth: real)
    requires s.isPlaying && s.playheadPos == 0.0 && Increment(s, delta) > 0.0
    requires k >= 1 && (k - 1) as real * Increment(s, delta) < windowWidth <= k as real * Increment(s, delta)
    ensures Run(s, k, delta, windowWidth).isPlaying
    ensures windowWidth <= Run(s, k, delta, windowWidth).playheadPos < windowWidth + Increment(s, delta)
    ensures Run(s, k + 1, delta, windowWidth) == s.(isPlaying := false, playheadPos := 0.0)
  {
    RunAdvancesLinearly(s, k, delta, windowWidth);
    assert k as real * Increment(s, delta) == (k - 1) as real * Increment(s, delta) + Increment(s, delta);
  }

  /** A 100-pixel window and a one-second buffer: the playhead runs at 100
      pixels per second, is at 50 after half a second, at the edge after one
      second, and the following frame stops playback. */
  lemma OneSecondAcrossOneHundredPixels(pixels: seq<Rgba>)
    ensures Toggle(Initial(pixels, 100.0, 1.0)).playbackSpeed == 100.0
    ensures Run(Toggle(Initial(pixels, 100.0, 1.0)), 1, 0.5, 100.0).playheadPos == 50.0
    ensures Run(Toggle(Initial(pixels, 100.0, 1.0)), 2, 0.5, 100.0).playheadPos == 100.0
    ensures !Run(Toggle(Initial(pixels, 100.0, 1.0)), 3, 0.5, 100.0).isPlaying
    ensures Run(Toggle(Initial(pixels, 100.0, 1.0)), 3, 0.5, 100.0).playheadPos == 0.0
  {
    var s := Toggle(Initial(pixels, 100.0, 1.0));
    assert Increment(s, 0.5) == 50.0;
    RunAdvancesLinearly(s, 1, 0.5, 100.0);
    PlaybackEnds(s, 2, 0.5, 100.0);
  }

  /** The play flag and the sink are updated independently. A one-second
      buffer in a 100-pixel window, played in one-second frames: the frame
      in which the playhead reaches the edge is also the one by which the
      audio has ended, but the flag only drops a frame later. A play key
      pressed in that frame clears the flag and queues the buffer again, so
      the audio plays while the playhead stays at the left edge, and the
      next frame does not move it. */
  lemma PlayKeyAtEdgeQueuesAudioWithPlayheadStopped(pixels: seq<Rgba>)
    ensures var started := Toggle(Initial(pixels, 100.0, 1.0));
            var pressed := Frame(started, 1.0, 100.0, true, NoLoad, true, false);
            && !pressed.isPlaying && !pressed.sinkEmpty && pressed.playheadPos == 0.0
            && Frame(pressed, 1.0, 100.0, false, NoLoad, false, false) == pressed
  {
    var started := Toggle(Initial(pixels, 100.0, 1.0));
    assert Increment(started, 1.0) == 100.0;
    var ticked := Tick(Drain(started), 1.0, 100.0);
    assert ticked.isPlaying && ticked.sinkEmpty && ticked.playheadPos == 100.0;
  }

  // ---------------------------------------------------------------------
  // The main loop's mutable state

  class Player {
    var isPlaying: bool
    var playheadPos: real
    var sinkEmpty: bool
    var sinkSpeed: real
    var playbackSpeed: real
    var buffer: AudioBuffer

    ghost function State(): TransportState
      reads this
    {
      TransportState(isPlaying, playheadPos, sinkEmpty, sinkSpeed, playbackSpeed, buffer)
    }

    /** Start-up: transcode the first image, build its buffer, open an empty
        sink and derive the playhead rate. */
    constructor (pixels: seq<Rgba>, windowWidth: real, duration: real)
      requires duration > 0.0
      ensures State() == Initial(pixels, windowWidth, duration)
    {
      var samples := CalculateBrightness(pixels);
      buffer := Build(samples);
      sinkEmpty, sinkSpeed := true, 1.0;
      playheadPos := 0.0;
      playbackSpeed := windowWidth / duration;
      isPlaying := false;
    }

    method TickPlayhead(delta: real, windowWidth: real)
      modifies this
      ensures State() == Tick(old(State()), delta, windowWidth)
    {
      if isPlaying {
        var increment := playbackSpeed * sinkSpeed * delta;
        if playheadPos < windowWidth {
          playheadPos := playheadPos + increment;
        } else {
          isPlaying := false;
          playheadPos := 0.0;
        }
      }
    }

    method ReloadImage(pixels: seq<Rgba>, windowWidth: real, duration: real)
      requires duration > 0.0
      modifies this
      ensures State() == Reload(old(State()), pixels, windowWidth, duration)
    {
      sinkEmpty := true;
      isPlaying := false;
      playheadPos := 0.0;
      var samples := CalculateBrightness(pixels);
      buffer := Build(samples);
      playbackSpeed := windowWidth / duration;
    }

    method TogglePlayback()
      modifies this
      ensures State() == Toggle(old(State()))
    {
      isPlaying := !isPlaying;
      if sinkEmpty {
        playheadPos := 0.0;
        sinkEmpty := false;
      } else {
        sinkEmpty := true;
        playheadPos := 0.0;
      }
    }

    method CycleSinkSpeed()
      modifies this
      ensures State() == PressSpeed(old(State()))
    {
      var current := sinkSpeed;
      if current == 1.0 {
        sinkSpeed := 0.5;
      } else if current == 0.5 {
        sinkSpeed := 0.25;
      } else if current == 0.25 {
        sinkSpeed := 1.0;
      }
    }

    /** The sink's playback thread reaching the end of its queue. */
    method AudioFinished()
      modifies this
      ensures State() == Drain(old(State()))
    {
      sinkEmpty := true;
    }

    method RunFrame(delta: real, windowWidth: real, drained: bool, load: ImageLoad, playKey: bool, speedKey: bool)
      requires load.Load? ==> load.duration > 0.0
      modifies this
      ensures State() == Frame(old(State()), delta, windowWidth, drained, load, playKey, speedKey)
    {
      if drained {
        AudioFinished();
      }
      TickPlayhead(delta, windowWidth);
      if load.Load? {
        ReloadImage(load.pixels, windowWidth, load.duration);
      }
      if playKey {
        TogglePlayback();
      }
      if speedKey {
        CycleSinkSpeed();
      }
    }
  }
}
