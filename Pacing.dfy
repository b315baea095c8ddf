/** Runs of the tick: what a sequence of `update` calls, as the animation
    frame scheduler delivers them, does to the player. The seek throttle,
    looping and stopping are properties of whole runs. */
module Pacing {
  import opened Js
  import opened Playback

  /** The clock readings of one tick: line 195 (`now`) and line 207 (`loopNow`,
      read only when the tick loops). */
  datatype Reading = Reading(now: real, loopNow: real)

  /** The clock never goes back, within a tick or from one tick to a later one. */
  predicate Monotone(clock: seq<Reading>) {
    && (forall i :: 0 <= i < |clock| ==> clock[i].now <= clock[i].loopNow)
    && (forall i, j :: 0 <= i < j < |clock| ==> clock[i].loopNow <= clock[j].now)
  }

  /** The state after one tick per reading, in order. */
  function Run(o: Options, s: State, clock: seq<Reading>): State
    decreases |clock|
  {
    if clock == [] then s
    else Run(o, UpdateStep(o, s, clock[0].now, clock[0].loopNow), clock[1..])
  }

  /** The readings at which the ticks of the run make the throttled seek to
      the elapsed time (line 200). The other writes of the position, the
      rewind to 0 of a looping tick (line 206) and the park of the pause at the
      end (line 181), are not throttle seeks and are not listed. */
  function SeekTimes(o: Options, s: State, clock: seq<Reading>): seq<real>
    decreases |clock|
  {
    if clock == [] then []
    else
      (if s.playing && SeekDue(o, s, clock[0].now) then [clock[0].now] else [])
      + SeekTimes(o, UpdateStep(o, s, clock[0].now, clock[0].loopNow), clock[1..])
  }

  /** Each time in `times` is at least a frame period after the one before it,
      and the first at least a frame period after `from`. */
  predicate Spaced(from: real, times: seq<real>, p: Period)
    decreases |times|
  {
    times == [] || (Reached((times[0] - from) * 0.001, p) && Spaced(times[0], times[1..], p))
  }

  lemma SpacedFromEarlier(a: real, b: real, times: seq<real>, p: Period)
    requires b <= a && Spaced(a, times, p)
    ensures Spaced(b, times, p)
  {
  }

  /** The tick never moves `lastUpdate` back, and after a seek at `now` it is
      at least `now`. */
  lemma {:induction false} TickLastUpdate(o: Options, s: State, r: Reading)
    requires AsNumber(s.lastUpdate) <= r.now <= r.loopNow
    ensures var n := UpdateStep(o, s, r.now, r.loopNow);
      && AsNumber(s.lastUpdate) <= AsNumber(n.lastUpdate) <= r.loopNow
      && (s.playing && SeekDue(o, s, r.now) ==> r.now <= AsNumber(n.lastUpdate))
  {
    var n := UpdateStep(o, s, r.now, r.loopNow);
    if s.playing {
      if !Ended(o, s, r.now) {
        assert n.lastUpdate == if SeekDue(o, s, r.now) then Some(r.now) else s.lastUpdate;
      } else if o.loop {
        assert n.lastUpdate == Some(r.loopNow);
      } else {
        assert n.lastUpdate == if SeekDue(o, s, r.now) then Some(r.now) else s.lastUpdate;
      }
    }
  }

  /** The seek throttle over a run: for a clock that never goes back, every
      throttled seek (line 200) comes at least a frame period after the
      previous one, and the first at least a frame period after the
      `lastUpdate` the run starts from. The run is made of ticks only: loop
      restarts (which move `lastUpdate`, line 207) and the end-of-media pause
      in between do not break this, though they write the position (lines
      181, 206) without being spaced themselves. Calls of `play` and `pause`
      between ticks are not part of a run. */
  lemma {:induction false} ThrottleSpacesSeeks(o: Options, s: State, clock: seq<Reading>)
    requires Monotone(clock)
    requires |clock| > 0 ==> AsNumber(s.lastUpdate) <= clock[0].now
    ensures Spaced(AsNumber(s.lastUpdate), SeekTimes(o, s, clock), FrameRate(o.fPS))
    decreases |clock|
  {
    if clock != [] {
      var r := clock[0];
      var n := UpdateStep(o, s, r.now, r.loopNow);
      var rest := clock[1..];
      assert Monotone(rest) by {
        forall i, j | 0 <= i < j < |rest| ensures rest[i].loopNow <= rest[j].now {
          assert rest[i] == clock[i + 1] && rest[j] == clock[j + 1];
        }
      }
      TickLastUpdate(o, s, r);
      if |rest| > 0 {
        assert clock[0].loopNow <= clock[1].now;
      }
      ThrottleSpacesSeeks(o, n, rest);
      if s.playing && SeekDue(o, s, r.now) {
        SpacedFromEarlier(AsNumber(n.lastUpdate), r.now, SeekTimes(o, n, rest), FrameRate(o.fPS));
        assert SeekTimes(o, s, clock) == [r.now] + SeekTimes(o, n, rest);
      } else {
        SpacedFromEarlier(AsNumber(n.lastUpdate), AsNumber(s.lastUpdate), SeekTimes(o, n, rest), FrameRate(o.fPS));
        assert SeekTimes(o, s, clock) == SeekTimes(o, n, rest);
      }
    }
  }

  lemma {:induction false} SpacedPairs(from: real, times: seq<real>, p: Period)
    requires Spaced(from, times, p)
    ensures forall i :: 0 < i < |times| ==> Reached((times[i] - times[i - 1]) * 0.001, p)
    decreases |times|
  {
    if |times| > 1 {
      SpacedPairs(times[0], times[1..], p);
      forall i | 0 < i < |times| ensures Reached((times[i] - times[i - 1]) * 0.001, p) {
        if i > 1 {
          assert times[i] == times[1..][i - 1] && times[i - 1] == times[1..][i - 2];
        }
      }
    }
  }

  /** Consecutive throttled seeks of a run are at least a frame period apart. */
  lemma ConsecutiveSeeksFramePeriodApart(o: Options, s: State, clock: seq<Reading>)
    requires Monotone(clock)
    requires |clock| > 0 ==> AsNumber(s.lastUpdate) <= clock[0].now
    ensures var seeks := SeekTimes(o, s, clock);
      forall i :: 0 < i < |seeks| ==> Reached((seeks[i] - seeks[i - 1]) * 0.001, FrameRate(o.fPS))
  {
    ThrottleSpacesSeeks(o, s, clock);
    SpacedPairs(AsNumber(s.lastUpdate), SeekTimes(o, s, clock), FrameRate(o.fPS));
  }

  /** With the default 25 frames per second, throttled seeks are at least
      40 ms apart, however often the tick runs. */
  lemma DefaultRateSeeksEvery40ms(s: State, clock: seq<Reading>)
    requires Monotone(clock)
    requires |clock| > 0 ==> AsNumber(s.lastUpdate) <= clock[0].now
    ensures var seeks := SeekTimes(Defaults(), s, clock);
      forall i :: 0 < i < |seeks| ==> seeks[i] - seeks[i - 1] >= 40.0
  {
    ConsecutiveSeeksFramePeriodApart(Defaults(), s, clock);
    assert FrameRate(Defaults().fPS) == Every(0.04);
  }

  /** Running one more tick after a run is the tick applied to the run's end. */
  lemma {:induction false} RunSnoc(o: Options, s: State, clock: seq<Reading>, r: Reading)
    ensures Run(o, s, clock + [r]) == UpdateStep(o, Run(o, s, clock), r.now, r.loopNow)
    decreases |clock|
  {
    if clock == [] {
      assert clock + [r] == [r];
      assert [r][1..] == [];
    } else {
      assert (clock + [r])[0] == clock[0];
      assert (clock + [r])[1..] == clock[1..] + [r];
      RunSnoc(o, UpdateStep(o, s, clock[0].now, clock[0].loopNow), clock[1..], r);
    }
  }

  /** Whether the tick at reading `r` restarts a looping player (lines 205-207). */
  predicate Loops(o: Options, s: State, r: Reading) {
    s.playing && o.loop && Ended(o, s, r.now)
  }

  /** Two consecutive ticks: `elapsed` does not go back unless the first one
      restarted the loop, and after a restart it counts from the restart. */
  lemma TickPairElapsed(o: Options, p: State, a: Reading, b: Reading)
    requires a.now <= a.loopNow <= b.now
    ensures var q := UpdateStep(o, p, a.now, a.loopNow);
      var r := UpdateStep(o, q, b.now, b.loopNow);
      && (q.playing && !Loops(o, p, a) ==> r.elapsed >= q.elapsed)
      && (Loops(o, p, a) ==> r.elapsed == (b.now - a.loopNow) * 0.001)
  {
  }

  /** While playing, `elapsed` never goes back from one tick of a run to the
      next, except right after a loop restart, when it is the time since the
      restart. */
  lemma ElapsedNeverGoesBack(o: Options, s: State, clock: seq<Reading>, i: nat)
    requires Monotone(clock) && 0 < i < |clock|
    ensures var p := Run(o, s, clock[..i - 1]);
      var q := Run(o, s, clock[..i]);
      var r := Run(o, s, clock[..i + 1]);
      && (q.playing && !Loops(o, p, clock[i - 1]) ==> r.elapsed >= q.elapsed)
      && (Loops(o, p, clock[i - 1]) ==> r.elapsed == (clock[i].now - clock[i - 1].loopNow) * 0.001)
  {
    RunSnoc(o, s, clock[..i - 1], clock[i - 1]);
    assert clock[..i - 1] + [clock[i - 1]] == clock[..i];
    RunSnoc(o, s, clock[..i], clock[i]);
    assert clock[..i] + [clock[i]] == clock[..i + 1];
    TickPairElapsed(o, Run(o, s, clock[..i - 1]), clock[i - 1], clock[i]);
  }

  /** With loop on, a playing player never stops on its own, and every tick
      schedules the next. */
  lemma {:induction false} LoopNeverStops(o: Options, s: State, clock: seq<Reading>)
    requires o.loop && s.playing
    ensures Run(o, s, clock).playing
    ensures Run(o, s, clock).pendingTicks == s.pendingTicks + |clock|
    decreases |clock|
  {
    if clock != [] {
      LoopNeverStops(o, UpdateStep(o, s, clock[0].now, clock[0].loopNow), clock[1..]);
    }
  }

  /** Ticks of a stopped player do nothing at all: no seek, no state change. */
  lemma {:induction false} StoppedRunIsIdle(o: Options, s: State, clock: seq<Reading>)
    requires !s.playing
    ensures Run(o, s, clock) == s
    ensures SeekTimes(o, s, clock) == []
    decreases |clock|
  {
    if clock != [] {
      StoppedRunIsIdle(o, s, clock[1..]);
    }
  }
}
