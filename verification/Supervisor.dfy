/** The supervisor's loop: wall deadlines beside the control stream. Each tick is one turn of the loop
    as the outside world answers it. */
module Supervisor {
  import opened Options
  import opened ControlStream

  /** All in seconds on one monotone clock. */
  datatype Limits = Limits(started: int, startup: int, request: int, active: int)

  function ActiveDeadline(l: Limits): int { l.started + l.active }

  /** The child has exited, or it is alive at clock reading `now` and the wait gave nothing or a read of
      some bytes (none at the end of the stream); `clock(k)` is the reading while the k-th line of that
      read is obeyed. */
  datatype Tick = Exited | Alive(now: int, read: Option<Bytes>, clock: nat -> int)

  /** `since` is the clock reading at which the current request started. */
  datatype Watch = Watch(control: Control, deadline: int, since: int)

  function Start(l: Limits): Watch { Watch(Fresh, l.started + l.startup, l.started) }

  function Min(a: int, b: int): int { if a <= b then a else b }

  predicate Starts(before: Mode, after: Mode) { before.Running? && after.Running? && !before.busy && after.busy }

  /** The deadline after a line has been obeyed at clock reading `at`. */
  function NextDeadline(before: Mode, after: Mode, deadline: int, at: int, l: Limits): int {
    if before.Stopped? || after.Stopped? then deadline
    else if Starts(before, after) then Min(at + l.request, ActiveDeadline(l))
    else ActiveDeadline(l)
  }

  function DrainTimed(w: Watch, clock: nat -> int, k: nat, l: Limits): Watch
    decreases |w.control.buffer|
  {
    var i := IndexOf(w.control.buffer);
    if w.control.mode.Stopped? || i == -1 then w
    else
      var mode := Obey(w.control.mode, w.control.buffer[..i]);
      DrainTimed(Watch(Control(mode, w.control.buffer[i + 1..]), NextDeadline(w.control.mode, mode, w.deadline, clock(k), l),
                       if Starts(w.control.mode, mode) then clock(k) else w.since), clock, k + 1, l)
  }

  function Stop(w: Watch, o: Outcome): Watch { w.(control := w.control.(mode := Stopped(o))) }

  /** One turn of the loop. */
  function Turn(w: Watch, t: Tick, l: Limits): Watch {
    if w.control.mode.Stopped? then w
    else
      match t
      case Exited => Stop(w, ProcessExit)
      case Alive(now, read, clock) =>
        if Min(w.deadline, ActiveDeadline(l)) - now <= 0 then Stop(w, WallDeadline)
        else if read.None? then w
        else if |read.value| == 0 then Stop(w, ProcessExit)
        else
          var buffer := w.control.buffer + read.value;
          if |buffer| > LIMIT then w.(control := Control(Stopped(InvalidControl), buffer))
          else DrainTimed(w.(control := Control(w.control.mode, buffer)), clock, 0, l)
  }

  function Run(ticks: seq<Tick>, l: Limits): Watch {
    if |ticks| == 0 then Start(l) else Turn(Run(ticks[..|ticks| - 1], l), ticks[|ticks| - 1], l)
  }

  // ---------- the loop itself ----------

  lemma {:induction false} RunStopped(ticks: seq<Tick>, i: nat, l: Limits)
    requires i <= |ticks| && Run(ticks[..i], l).control.mode.Stopped?
    ensures Run(ticks, l) == Run(ticks[..i], l)
    decreases |ticks|
  {
    if i == |ticks| {
      assert ticks[..i] == ticks;
    } else {
      var init := ticks[..|ticks| - 1];
      assert init[..i] == ticks[..i];
      RunStopped(init, i, l);
    }
  }

  lemma RunStep(ticks: seq<Tick>, i: nat, l: Limits)
    requires i < |ticks|
    ensures Run(ticks[..i + 1], l) == Turn(Run(ticks[..i], l), ticks[i], l)
  {
    assert ticks[..i + 1][..i] == ticks[..i];
  }

  /** Obeying the first whole line of the buffer. */
  lemma DrainStep(w: Watch, i: int, clock: nat -> int, k: nat, l: Limits)
    requires w.control.mode.Running? && i == IndexOf(w.control.buffer) && i != -1
    ensures var mode := Obey(w.control.mode, w.control.buffer[..i]);
            DrainTimed(w, clock, k, l) ==
            DrainTimed(Watch(Control(mode, w.control.buffer[i + 1..]), NextDeadline(w.control.mode, mode, w.deadline, clock(k), l),
                             if Starts(w.control.mode, mode) then clock(k) else w.since), clock, k + 1, l)
  {
    hide Obey, NextDeadline, Starts;
  }

  lemma DrainDone(w: Watch, clock: nat -> int, k: nat, l: Limits)
    requires w.control.mode.Stopped? || IndexOf(w.control.buffer) == -1
    ensures DrainTimed(w, clock, k, l) == w
  {
  }

  /** The inner loop: obey the whole lines of the buffer. */
  method ObeyLines(w: Watch, clock: nat -> int, l: Limits) returns (r: Watch)
    requires w.control.mode.Running?
    ensures r == DrainTimed(w, clock, 0, l)
  {
    hide DrainTimed, IndexOf, Ascii;
    var ready, busy, buffer := w.control.mode.ready, w.control.mode.busy, w.control.buffer;
    var deadline, since, k := w.deadline, w.since, 0;
    while IndexOf(buffer) != -1
      invariant DrainTimed(w, clock, 0, l) == DrainTimed(Watch(Control(Running(ready, busy), buffer), deadline, since), clock, k, l)
      decreases |buffer|
    {
      var i := IndexOf(buffer);
      var line, rest := buffer[..i], buffer[i + 1..];
      DrainStep(Watch(Control(Running(ready, busy), buffer), deadline, since), i, clock, k, l);
      if line == Ascii("BETA_READY") && !ready {
        ready := true;
        deadline := ActiveDeadline(l);
      } else if line == Ascii("BETA_START") && ready && !busy {
        busy := true;
        since := clock(k);
        deadline := Min(since + l.request, ActiveDeadline(l));
      } else if line == Ascii("BETA_DONE") && busy {
        busy := false;
        deadline := ActiveDeadline(l);
      } else {
        var verdict := if line == Ascii("BETA_ABORT") then ClientAbort else InvalidControl;
        r := Watch(Control(Stopped(verdict), rest), deadline, since);
        DrainDone(r, clock, k + 1, l);
        return;
      }
      buffer, k := rest, k + 1;
    }
    r := Watch(Control(Running(ready, busy), buffer), deadline, since);
    DrainDone(r, clock, k, l);
  }

  /** `supervise`: turn by turn, until the child exits, a deadline passes or a line ends it. */
  method Supervise(ticks: seq<Tick>, l: Limits) returns (w: Watch)
    ensures w == Run(ticks, l)
  {
    w := Watch(Fresh, l.started + l.startup, l.started);
    assert w == Run(ticks[..0], l);
    hide DrainTimed, Run;
    var i := 0;
    while i < |ticks| && w.control.mode.Running?
      invariant 0 <= i <= |ticks| && w == Run(ticks[..i], l)
    {
      RunStep(ticks, i, l);
      match ticks[i] {
        case Exited =>
          w := Stop(w, ProcessExit);
        case Alive(now, read, clock) =>
          var remaining := Min(w.deadline, ActiveDeadline(l)) - now;
          if remaining <= 0 {
            w := Stop(w, WallDeadline);
          } else if read.Some? {
            if |read.value| == 0 {
              w := Stop(w, ProcessExit);
            } else {
              var buffer := w.control.buffer + read.value;
              if |buffer| > LIMIT {
                w := w.(control := Control(Stopped(InvalidControl), buffer));
              } else {
                w := ObeyLines(w.(control := Control(w.control.mode, buffer)), clock, l);
              }
            }
          }
      }
      i := i + 1;
    }
    if i < |ticks| { RunStopped(ticks, i, l); } else { assert ticks[..i] == ticks; }
  }

  // ---------- deadlines ----------

  /** The deadline of each phase: starting up, idle, and serving a request. */
  ghost predicate Timely(w: Watch, l: Limits) {
    var m := w.control.mode;
    m.Running? ==>
      && (m.busy ==> m.ready)
      && w.deadline == (if !m.ready then l.started + l.startup
                        else if !m.busy then ActiveDeadline(l)
                        else Min(w.since + l.request, ActiveDeadline(l)))
  }

  lemma {:induction false} DrainTimely(w: Watch, clock: nat -> int, k: nat, l: Limits)
    requires Timely(w, l)
    ensures Timely(DrainTimed(w, clock, k, l), l)
    decreases |w.control.buffer|
  {
    hide IndexOf, Ascii;
    var i := IndexOf(w.control.buffer);
    if w.control.mode.Running? && i != -1 {
      var mode := Obey(w.control.mode, w.control.buffer[..i]);
      var next := Watch(Control(mode, w.control.buffer[i + 1..]), NextDeadline(w.control.mode, mode, w.deadline, clock(k), l),
                        if Starts(w.control.mode, mode) then clock(k) else w.since);
      assert Timely(next, l);
      DrainTimely(next, clock, k + 1, l);
    }
  }

  lemma {:induction false} RunTimely(ticks: seq<Tick>, l: Limits)
    ensures Timely(Run(ticks, l), l)
  {
    if |ticks| > 0 {
      var w, t := Run(ticks[..|ticks| - 1], l), ticks[|ticks| - 1];
      RunTimely(ticks[..|ticks| - 1], l);
      if w.control.mode.Running? && t.Alive? && t.read.Some? {
        DrainTimely(w.(control := Control(w.control.mode, w.control.buffer + t.read.value)), t.clock, 0, l);
      }
      hide DrainTimed;
    }
  }

  /** While the child is still supervised no turn has seen it past a deadline: not the active one, not the
      startup one before it was ready, and not its request's. */
  lemma {:induction false} NoTurnPastDeadline(ticks: seq<Tick>, i: nat, l: Limits)
    requires i < |ticks| && Run(ticks, l).control.mode.Running?
    ensures ticks[i].Alive? && ticks[i].now < ActiveDeadline(l) && Run(ticks[..i], l).control.mode.Running?
    ensures var w := Run(ticks[..i], l);
            && (!w.control.mode.ready ==> ticks[i].now < l.started + l.startup)
            && (w.control.mode.busy ==> ticks[i].now < w.since + l.request)
  {
    if Run(ticks[..i + 1], l).control.mode.Stopped? { RunStopped(ticks, i + 1, l); }
    if Run(ticks[..i], l).control.mode.Stopped? { RunStopped(ticks, i, l); }
    RunStep(ticks, i, l);
    RunTimely(ticks[..i], l);
    hide Run, DrainTimed;
  }

  /** A turn ends in a missed deadline exactly when the running child is seen alive past its phase's limit. */
  lemma WallDeadlineExactly(w: Watch, t: Tick, l: Limits)
    requires w.control.mode.Running?
    ensures Turn(w, t, l).control.mode == Stopped(WallDeadline) <==> t.Alive? && (t.now >= w.deadline || t.now >= ActiveDeadline(l))
    ensures Turn(w, t, l).control.mode == Stopped(ProcessExit) <==>
            t.Exited? || (t.now < w.deadline && t.now < ActiveDeadline(l) && t.read == Some([]))
  {
    if t.Alive? && t.read.Some? && t.now < w.deadline && t.now < ActiveDeadline(l) {
      DrainIsDrain(w.(control := Control(w.control.mode, w.control.buffer + t.read.value)), t.clock, 0, l);
      DrainVerdict(Control(w.control.mode, w.control.buffer + t.read.value));
    }
    hide DrainTimed;
  }

  lemma {:induction false} DrainVerdict(c: Control)
    requires c.mode.Running?
    ensures Drain(c).mode.Stopped? ==> Drain(c).mode.verdict == ClientAbort || Drain(c).mode.verdict == InvalidControl
    decreases |c.buffer|
  {
    hide IndexOf, Ascii;
    var i := IndexOf(c.buffer);
    if i != -1 && Obey(c.mode, c.buffer[..i]).Running? { DrainVerdict(Control(Obey(c.mode, c.buffer[..i]), c.buffer[i + 1..])); }
  }

  // ---------- the control stream within the loop ----------

  /** The reads of the turns. */
  function Reads(ticks: seq<Tick>): seq<Bytes> {
    if |ticks| == 0 then []
    else
      var t := ticks[|ticks| - 1];
      Reads(ticks[..|ticks| - 1]) + if t.Alive? && t.read.Some? then [t.read.value] else []
  }

  /** The watch after one buffered line. */
  function LineDone(w: Watch, i: nat, now: int, l: Limits): Watch
    requires i < |w.control.buffer|
  {
    var mode := Obey(w.control.mode, w.control.buffer[..i]);
    Watch(Control(mode, w.control.buffer[i + 1..]), NextDeadline(w.control.mode, mode, w.deadline, now, l),
          if Starts(w.control.mode, mode) then now else w.since)
  }

  /** One step of both drains. */
  lemma DrainOne(w: Watch, clock: nat -> int, k: nat, l: Limits)
    ensures var i := IndexOf(w.control.buffer);
            if w.control.mode.Running? && i != -1
            then DrainTimed(w, clock, k, l) == DrainTimed(LineDone(w, i, clock(k), l), clock, k + 1, l)
                 && Drain(w.control) == Drain(LineDone(w, i, clock(k), l).control)
            else DrainTimed(w, clock, k, l) == w && Drain(w.control) == w.control
  {
    hide Obey, IndexOf, NextDeadline, Starts;
  }

  lemma {:induction false} DrainIsDrain(w: Watch, clock: nat -> int, k: nat, l: Limits)
    ensures DrainTimed(w, clock, k, l).control == Drain(w.control)
    decreases |w.control.buffer|
  {
    DrainOne(w, clock, k, l);
    hide DrainTimed, Drain, Obey, IndexOf, NextDeadline, Starts;
    var i := IndexOf(w.control.buffer);
    if w.control.mode.Running? && i != -1 { DrainIsDrain(LineDone(w, i, clock(k), l), clock, k + 1, l); }
  }

  /** The clock and the child's exit had no part in it. */
  predicate LinesDecide(m: Mode) { m.Running? || m.verdict == ClientAbort || m.verdict == InvalidControl }

  lemma FeedAllAppend(chunks: seq<Bytes>, data: Bytes)
    ensures FeedAll(Fresh, chunks + [data]) == Feed(FeedAll(Fresh, chunks), data)
  {
    assert (chunks + [data])[..|chunks|] == chunks;
  }

  lemma TurnFeeds(w: Watch, t: Tick, l: Limits)
    requires LinesDecide(Turn(w, t, l).control.mode)
    ensures LinesDecide(w.control.mode)
    ensures Turn(w, t, l).control == if t.Alive? && t.read.Some? then Feed(w.control, t.read.value) else w.control
  {
    if w.control.mode.Running? && t.Alive? && t.read.Some? {
      DrainIsDrain(w.(control := Control(w.control.mode, w.control.buffer + t.read.value)), t.clock, 0, l);
    }
    hide DrainTimed, Drain;
  }

  /** Unless an exit or a deadline ended it, the run is where its reads lead. */
  lemma {:induction false} RunFeeds(ticks: seq<Tick>, l: Limits)
    requires LinesDecide(Run(ticks, l).control.mode)
    ensures Run(ticks, l).control == FeedAll(Fresh, Reads(ticks))
  {
    if |ticks| > 0 {
      var init, t := ticks[..|ticks| - 1], ticks[|ticks| - 1];
      TurnFeeds(Run(init, l), t, l);
      RunFeeds(init, l);
      if t.Alive? && t.read.Some? { FeedAllAppend(Reads(init), t.read.value); }
      hide Turn, FeedAll, Feed;
      assert Reads(init) + [] == Reads(init);
    }
  }

  /** However differently two runs wait, read and tell the time, if each is left to its control lines and
      the bytes are the same and within the limit, they agree on the verdict, on ready and busy, and on
      the unfinished line. */
  lemma SameBytesSameVerdict(a: seq<Tick>, b: seq<Tick>, la: Limits, lb: Limits)
    requires LinesDecide(Run(a, la).control.mode) && LinesDecide(Run(b, lb).control.mode)
    requires Concat(Reads(a)) == Concat(Reads(b)) && |Concat(Reads(a))| <= LIMIT
    ensures var x, y := Run(a, la).control, Run(b, lb).control;
            x.mode == y.mode && (x.mode.Running? ==> x.buffer == y.buffer)
    ensures Run(a, la).control.mode == Fold(Initial, Lines(Concat(Reads(a))).lines)
  {
    RunFeeds(a, la);
    RunFeeds(b, lb);
    ShortStreamsAgree(Reads(a), Reads(b));
    ReadsFollowLines(Reads(a));
  }
}
