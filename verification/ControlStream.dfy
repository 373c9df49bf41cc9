/** The control lines a supervised child writes, and how they are cut out of the bytes as they arrive. */
module ControlStream {
  type Byte = b: int | 0 <= b < 256
  type Bytes = seq<Byte>

  const NEWLINE: Byte := 10
  const LIMIT := 4096

  function Ascii(s: string): (r: Bytes)
    ensures |r| == |s|
  {
    seq(|s|, i requires 0 <= i < |s| => s[i] as int % 256)
  }

  datatype Outcome = ProcessExit | WallDeadline | ClientAbort | InvalidControl

  /** What the supervisor knows of the child, or why it has stopped it. */
  datatype Mode = Running(ready: bool, busy: bool) | Stopped(verdict: Outcome)

  /** One whole line. */
  function Obey(m: Mode, line: Bytes): Mode {
    if m.Stopped? then m
    else if line == Ascii("BETA_READY") && !m.ready then Running(true, m.busy)
    else if line == Ascii("BETA_START") && m.ready && !m.busy then Running(m.ready, true)
    else if line == Ascii("BETA_DONE") && m.busy then Running(m.ready, false)
    else if line == Ascii("BETA_ABORT") then Stopped(ClientAbort)
    else Stopped(InvalidControl)
  }

  // ---------- the protocol over whole lines ----------

  /** The whole lines of a stream, without their newlines, and what follows the last newline. */
  datatype Cut = Cut(lines: seq<Bytes>, rest: Bytes)

  function Lines(s: Bytes): Cut {
    if |s| == 0 then Cut([], [])
    else
      var before, b := Lines(s[..|s| - 1]), s[|s| - 1];
      if b == NEWLINE then Cut(before.lines + [before.rest], []) else Cut(before.lines, before.rest + [b])
  }

  function Fold(m: Mode, lines: seq<Bytes>): Mode {
    if |lines| == 0 then m else Obey(Fold(m, lines[..|lines| - 1]), lines[|lines| - 1])
  }

  const Initial := Running(false, false)

  // ---------- the protocol over reads ----------

  /** The supervisor between reads. */
  datatype Control = Control(mode: Mode, buffer: Bytes)

  function IndexOf(s: Bytes): (i: int)
    ensures i == -1 ==> NEWLINE !in s
    ensures i != -1 ==> 0 <= i < |s| && s[i] == NEWLINE && NEWLINE !in s[..i]
  {
    if |s| == 0 then -1
    else if s[0] == NEWLINE then 0
    else
      var i := IndexOf(s[1..]);
      if i == -1 then -1 else
        assert s[..i + 1] == [s[0]] + s[1..][..i];
        i + 1
  }

  /** Obey every whole line in the buffer, until one of them stops the child. */
  function Drain(c: Control): Control
    decreases |c.buffer|
  {
    var i := IndexOf(c.buffer);
    if c.mode.Stopped? || i == -1 then c
    else Drain(Control(Obey(c.mode, c.buffer[..i]), c.buffer[i + 1..]))
  }

  /** One read: a stopped child is read no more. */
  function Feed(c: Control, data: Bytes): Control {
    if c.mode.Stopped? then c
    else if |c.buffer + data| > LIMIT then Control(Stopped(InvalidControl), c.buffer + data)
    else Drain(Control(c.mode, c.buffer + data))
  }

  function FeedAll(c: Control, chunks: seq<Bytes>): Control {
    if |chunks| == 0 then c else Feed(FeedAll(c, chunks[..|chunks| - 1]), chunks[|chunks| - 1])
  }

  function Concat(chunks: seq<Bytes>): Bytes {
    if |chunks| == 0 then [] else Concat(chunks[..|chunks| - 1]) + chunks[|chunks| - 1]
  }

  const Fresh := Control(Initial, [])

  /** A way the bytes may arrive: each read takes at least one of them and at most `LIMIT`. */
  ghost predicate Chunking(chunks: seq<Bytes>, s: Bytes) {
    Concat(chunks) == s && forall c | c in chunks :: 1 <= |c| <= LIMIT
  }

  // ---------- lines ----------

  lemma LinesAppend(s: Bytes, b: Byte)
    ensures Lines(s + [b]) == if b == NEWLINE then Cut(Lines(s).lines + [Lines(s).rest], []) else Cut(Lines(s).lines, Lines(s).rest + [b])
  {
    assert (s + [b])[..|s|] == s;
  }

  /** Bytes without a newline only lengthen the unfinished line. */
  lemma {:induction false} LinesUnfinished(s: Bytes, t: Bytes)
    requires NEWLINE !in t
    ensures Lines(s + t) == Cut(Lines(s).lines, Lines(s).rest + t)
  {
    if |t| == 0 {
      assert s + t == s && Lines(s).rest + t == Lines(s).rest;
    } else {
      var init, b := t[..|t| - 1], t[|t| - 1];
      assert t == init + [b] && s + t == (s + init) + [b];
      LinesUnfinished(s, init);
      LinesAppend(s + init, b);
      assert Lines(s).rest + init + [b] == Lines(s).rest + t;
    }
  }

  /** A whole line after finished ones. */
  lemma LinesNext(s: Bytes, line: Bytes)
    requires Lines(s).rest == [] && NEWLINE !in line
    ensures Lines(s + line + [NEWLINE]) == Cut(Lines(s).lines + [line], [])
  {
    LinesUnfinished(s, line);
    LinesAppend(s + line, NEWLINE);
    assert [] + line == line;
  }

  lemma {:induction false} RestIsSuffix(s: Bytes)
    ensures |Lines(s).rest| <= |s| && s[|s| - |Lines(s).rest|..] == Lines(s).rest && NEWLINE !in Lines(s).rest
    ensures Lines(s[..|s| - |Lines(s).rest|]) == Cut(Lines(s).lines, [])
  {
    if |s| > 0 {
      var init, b := s[..|s| - 1], s[|s| - 1];
      RestIsSuffix(init);
      if b == NEWLINE {
        assert s[..|s|] == s;
      } else {
        var n := |init| - |Lines(init).rest|;
        assert s[..n] == init[..n];
        assert s[n..] == init[n..] + [b];
      }
    } else {
      assert s[..0] == s;
    }
  }

  lemma FoldAppend(m: Mode, lines: seq<Bytes>, line: Bytes)
    ensures Fold(m, lines + [line]) == Obey(Fold(m, lines), line)
  {
    assert (lines + [line])[..|lines|] == lines;
  }

  // ---------- reads against lines ----------

  /** The supervisor is where the whole lines of the stream lead, and while it runs it holds the rest. */
  ghost predicate Tracks(c: Control, s: Bytes) {
    && c.mode == Fold(Initial, Lines(s).lines)
    && (c.mode.Running? ==> c.buffer == Lines(s).rest)
  }

  lemma {:induction false} StoppedTracks(c: Control, s: Bytes, t: Bytes)
    requires Tracks(c, s) && c.mode.Stopped?
    ensures Tracks(c, s + t)
    decreases |t|
  {
    if |t| == 0 {
      assert s + t == s;
    } else {
      var init, b := t[..|t| - 1], t[|t| - 1];
      assert s + t == (s + init) + [b];
      StoppedTracks(c, s, init);
      LinesAppend(s + init, b);
      FoldAppend(Initial, Lines(s + init).lines, Lines(s + init).rest);
    }
  }

  /** Draining a buffer that follows finished lines. */
  lemma {:induction false} DrainTracks(c: Control, done: Bytes)
    requires c.mode == Fold(Initial, Lines(done).lines) && Lines(done).rest == []
    ensures Tracks(Drain(c), done + c.buffer)
    decreases |c.buffer|
  {
    hide Obey, Lines, Fold, Ascii;
    var i := IndexOf(c.buffer);
    if c.mode.Stopped? {
      StoppedTracks(c, done, c.buffer);
    } else if i == -1 {
      LinesUnfinished(done, c.buffer);
      assert [] + c.buffer == c.buffer;
    } else {
      var line, after := c.buffer[..i], c.buffer[i + 1..];
      LinesNext(done, line);
      FoldAppend(Initial, Lines(done).lines, line);
      assert (done + line + [NEWLINE]) + after == done + c.buffer by { assert c.buffer == line + [NEWLINE] + after; }
      DrainTracks(Control(Obey(c.mode, line), after), done + line + [NEWLINE]);
    }
  }

  /** A read that fits keeps track of the stream. */
  lemma FeedTracks(c: Control, s: Bytes, data: Bytes)
    requires Tracks(c, s) && (c.mode.Running? ==> |c.buffer + data| <= LIMIT)
    ensures Tracks(Feed(c, data), s + data)
  {
    hide Drain, Lines, Fold;
    if c.mode.Stopped? {
      StoppedTracks(c, s, data);
    } else {
      RestIsSuffix(s);
      var done := s[..|s| - |c.buffer|];
      assert s == done + c.buffer;
      assert done + (c.buffer + data) == s + data;
      DrainTracks(Control(c.mode, c.buffer + data), done);
    }
  }

  /** A short stream: however it is read, the supervisor ends where the fold over its whole lines ends. */
  lemma {:induction false} ReadsFollowLines(chunks: seq<Bytes>)
    requires |Concat(chunks)| <= LIMIT
    ensures Tracks(FeedAll(Fresh, chunks), Concat(chunks))
  {
    if |chunks| > 0 {
      var init := chunks[..|chunks| - 1];
      ReadsFollowLines(init);
      RestIsSuffix(Concat(init));
      FeedTracks(FeedAll(Fresh, init), Concat(init), chunks[|chunks| - 1]);
    }
  }

  /** Two ways of reading the same short stream agree on the mode, and on the buffer while running. */
  lemma ShortStreamsAgree(a: seq<Bytes>, b: seq<Bytes>)
    requires Concat(a) == Concat(b) && |Concat(a)| <= LIMIT
    ensures var x, y := FeedAll(Fresh, a), FeedAll(Fresh, b);
            x.mode == y.mode && (x.mode.Running? ==> x.buffer == y.buffer)
  {
    ReadsFollowLines(a);
    ReadsFollowLines(b);
  }

  // ---------- longer streams ----------

  /** Either the reads follow the lines, or an oversized buffer has stopped the child. */
  lemma {:induction false} ReadsFollowOrStop(chunks: seq<Bytes>)
    ensures Tracks(FeedAll(Fresh, chunks), Concat(chunks)) || FeedAll(Fresh, chunks).mode == Stopped(InvalidControl)
  {
    if |chunks| > 0 {
      var init, data := chunks[..|chunks| - 1], chunks[|chunks| - 1];
      ReadsFollowOrStop(init);
      var c := FeedAll(Fresh, init);
      if Tracks(c, Concat(init)) && (c.mode.Running? ==> |c.buffer + data| <= LIMIT) { FeedTracks(c, Concat(init), data); }
    }
  }

  /** One byte at a time. */
  function ByBytes(s: Bytes): seq<Bytes> { seq(|s|, i requires 0 <= i < |s| => [s[i]]) }

  lemma {:induction false} ByBytesChunking(s: Bytes)
    ensures Chunking(ByBytes(s), s)
  {
    if |s| > 0 {
      var init := s[..|s| - 1];
      ByBytesChunking(init);
      assert ByBytes(s)[..|s| - 1] == ByBytes(init);
      assert s == init + [s[|s| - 1]];
    }
  }

  function Slowly(s: Bytes): Mode { FeedAll(Fresh, ByBytes(s)).mode }

  lemma SlowStep(s: Bytes, b: Byte)
    ensures FeedAll(Fresh, ByBytes(s + [b])) == Feed(FeedAll(Fresh, ByBytes(s)), [b])
  {
    assert ByBytes(s + [b])[..|s|] == ByBytes(s);
  }

  lemma {:induction false} StoppedStays(c: Control, chunks: seq<Bytes>)
    requires c.mode.Stopped?
    ensures FeedAll(c, chunks) == c
  {
    if |chunks| > 0 { StoppedStays(c, chunks[..|chunks| - 1]); }
  }

  lemma {:induction false} FeedAllConcat(c: Control, a: seq<Bytes>, b: seq<Bytes>)
    ensures FeedAll(c, a + b) == FeedAll(FeedAll(c, a), b)
    decreases |b|
  {
    if |b| == 0 {
      assert a + b == a;
    } else {
      assert (a + b)[..|a + b| - 1] == a + b[..|b| - 1];
      FeedAllConcat(c, a, b[..|b| - 1]);
    }
  }

  lemma {:induction false} ConcatConcat(a: seq<Bytes>, b: seq<Bytes>)
    ensures Concat(a + b) == Concat(a) + Concat(b)
    decreases |b|
  {
    if |b| == 0 {
      assert a + b == a && Concat(a) + [] == Concat(a);
    } else {
      assert (a + b)[..|a + b| - 1] == a + b[..|b| - 1];
      ConcatConcat(a, b[..|b| - 1]);
    }
  }

  /** If reading slowly ends in an invalid control, every reading does. */
  lemma {:induction false} SlowlyInvalid(s: Bytes, chunks: seq<Bytes>)
    requires Chunking(chunks, s) && Slowly(s) == Stopped(InvalidControl)
    ensures FeedAll(Fresh, chunks).mode == Stopped(InvalidControl)
  {
    ReadsFollowOrStop(chunks);
    if FeedAll(Fresh, chunks).mode != Stopped(InvalidControl) {
      TracksEverywhere(s, chunks);
      assert false;
    }
  }

  /** Reading that is not stopped for size has every unfinished line within the limit while the child runs;
      then reading slowly is not stopped for size either. */
  lemma {:induction false} TracksEverywhere(s: Bytes, chunks: seq<Bytes>)
    requires Chunking(chunks, s) && FeedAll(Fresh, chunks).mode != Stopped(InvalidControl)
    ensures Slowly(s) == FeedAll(Fresh, chunks).mode
    ensures Tracks(FeedAll(Fresh, ByBytes(s)), s)
    decreases |chunks|
  {
    if |chunks| == 0 {
      assert s == [] && ByBytes(s) == [];
      assert Tracks(Fresh, s);
    } else {
      var init, data := chunks[..|chunks| - 1], chunks[|chunks| - 1];
      var c, p := FeedAll(Fresh, init), Concat(init);
      assert c.mode != Stopped(InvalidControl);
      TracksEverywhere(p, init);
      ReadsFollowOrStop(init);
      ReadsFollowOrStop(chunks);
      if c.mode.Running? {
        assert |c.buffer + data| <= LIMIT;
      }
      SlowData(p, data);
    }
  }

  /** Reading on slowly, when the buffer and all the new bytes would fit at once. */
  lemma {:induction false} SlowData(p: Bytes, data: Bytes)
    requires Tracks(FeedAll(Fresh, ByBytes(p)), p)
    requires Slowly(p).Running? ==> |Lines(p).rest| + |data| <= LIMIT
    ensures Tracks(FeedAll(Fresh, ByBytes(p + data)), p + data)
    ensures Slowly(p + data).Running? ==> |Lines(p + data).rest| <= |Lines(p).rest| + |data|
    decreases |data|
  {
    if |data| == 0 {
      assert p + data == p;
    } else {
      var init, b := data[..|data| - 1], data[|data| - 1];
      SlowData(p, init);
      assert p + data == (p + init) + [b];
      SlowStep(p + init, b);
      var c := FeedAll(Fresh, ByBytes(p + init));
      if c.mode.Running? && Slowly(p).Stopped? { SlowStopped(p, init); }
      FeedTracks(c, p + init, [b]);
      LinesAppend(p + init, b);
    }
  }

  lemma SlowStopped(p: Bytes, data: Bytes)
    requires Slowly(p).Stopped?
    ensures Slowly(p + data) == Slowly(p)
  {
    assert ByBytes(p + data) == ByBytes(p) + ByBytes(p + data)[|p|..];
    FeedAllConcat(Fresh, ByBytes(p), ByBytes(p + data)[|p|..]);
    StoppedStays(FeedAll(Fresh, ByBytes(p)), ByBytes(p + data)[|p|..]);
  }

  // ---------- exactly when the reads do not matter ----------

  ghost predicate Independent(s: Bytes) {
    forall a, b | Chunking(a, s) && Chunking(b, s) :: FeedAll(Fresh, a).mode == FeedAll(Fresh, b).mode
  }

  /** One byte, then as many as a read takes: the buffer overflows. */
  function Greedy(s: Bytes): seq<Bytes>
    requires |s| > LIMIT
  {
    [s[..1], s[1..LIMIT + 1]] + ByBytes(s[LIMIT + 1..])
  }

  lemma GreedyInvalid(s: Bytes)
    requires |s| > LIMIT
    ensures Chunking(Greedy(s), s) && FeedAll(Fresh, Greedy(s)).mode == Stopped(InvalidControl)
  {
    var head, tail := [s[..1], s[1..LIMIT + 1]], s[LIMIT + 1..];
    GreedyChunks(s);
    HeadInvalid(s);
    hide FeedAll, Chunking, ByBytes;
    FeedAllConcat(Fresh, head, ByBytes(tail));
    StoppedStays(FeedAll(Fresh, head), ByBytes(tail));
  }

  lemma GreedyChunks(s: Bytes)
    requires |s| > LIMIT
    ensures Chunking(Greedy(s), s)
  {
    var head, tail := [s[..1], s[1..LIMIT + 1]], s[LIMIT + 1..];
    ByBytesChunking(tail);
    ConcatConcat(head, ByBytes(tail));
    var none: seq<Bytes> := [];
    assert head[..1] == [s[..1]] && head[..1][..0] == none;
    assert Concat(head[..1][..0]) == [];
    assert Concat(head[..1]) == s[..1];
    assert Concat(head) == Concat(head[..1]) + head[1];
    assert s[..1] + s[1..LIMIT + 1] == s[..LIMIT + 1];
    assert s == s[..LIMIT + 1] + tail;
    hide ByBytes, Concat;
    forall c | c in Greedy(s) ensures 1 <= |c| <= LIMIT { assert c in head || c in ByBytes(tail); }
  }

  lemma HeadInvalid(s: Bytes)
    requires |s| > LIMIT
    ensures FeedAll(Fresh, [s[..1], s[1..LIMIT + 1]]).mode == Stopped(InvalidControl)
  {
    var one, two := s[..1], s[1..LIMIT + 1];
    var none: seq<Bytes> := [];
    assert [one, two][..1] == [one] && [one][..0] == none;
    var c := Feed(Fresh, one);
    assert FeedAll(Fresh, [one]) == c;
    assert Fresh.buffer + one == one;
    if one[0] == NEWLINE {
      assert IndexOf(one) == 0 && one[..0] == [];
      assert Obey(Initial, []) == Stopped(InvalidControl);
      assert c == Drain(Control(Stopped(InvalidControl), one[1..]));
    } else {
      assert IndexOf(one) == -1;
      assert c == Control(Initial, one);
      assert |one + two| == LIMIT + 1;
    }
  }

  /** The whole lines are in order but for an invalid one, or the last, unfinished, line is too long. */
  predicate RefusedAnyway(s: Bytes) {
    var m := Fold(Initial, Lines(s).lines);
    m == Stopped(InvalidControl) || (m.Running? && |Lines(s).rest| > LIMIT)
  }

  lemma LongLineInvalid(m: Mode, line: Bytes)
    requires m.Running? && |line| >= LIMIT
    ensures Obey(m, line) == Stopped(InvalidControl)
  {
  }

  /** What a further byte does to a refused stream: nothing. */
  lemma RefusedStays(s: Bytes, b: Byte)
    requires RefusedAnyway(s)
    ensures RefusedAnyway(s + [b])
  {
    LinesAppend(s, b);
    FoldAppend(Initial, Lines(s).lines, Lines(s).rest);
    var m := Fold(Initial, Lines(s).lines);
    if m.Running? { LongLineInvalid(m, Lines(s).rest); }
    hide Lines, Fold, Ascii;
  }

  /** A full buffer and one byte more: the line is too long, ended or not. */
  lemma FullBufferRefused(s: Bytes, b: Byte)
    requires Fold(Initial, Lines(s).lines).Running? && |Lines(s).rest| == LIMIT
    ensures RefusedAnyway(s + [b])
  {
    LinesAppend(s, b);
    FoldAppend(Initial, Lines(s).lines, Lines(s).rest);
    LongLineInvalid(Fold(Initial, Lines(s).lines), Lines(s).rest);
    hide Lines, Fold, Obey;
  }

  /** Reading one by one refuses exactly the streams that their lines refuse. */
  lemma {:induction false} SlowlyByLines(s: Bytes)
    ensures if RefusedAnyway(s) then Slowly(s) == Stopped(InvalidControl) else Tracks(FeedAll(Fresh, ByBytes(s)), s)
    ensures Slowly(s) == Stopped(InvalidControl) ==> RefusedAnyway(s)
  {
    if |s| == 0 {
      assert ByBytes(s) == [];
    } else {
      var init, b := s[..|s| - 1], s[|s| - 1];
      assert s == init + [b];
      SlowlyByLines(init);
      SlowStep(init, b);
      hide Lines, Fold, Feed, FeedAll, ByBytes;
      SlowOneMore(init, b);
    }
  }

  lemma SlowOneMore(init: Bytes, b: Byte)
    requires if RefusedAnyway(init) then Slowly(init) == Stopped(InvalidControl) else Tracks(FeedAll(Fresh, ByBytes(init)), init)
    ensures var c := Feed(FeedAll(Fresh, ByBytes(init)), [b]);
            && (if RefusedAnyway(init + [b]) then c.mode == Stopped(InvalidControl) else Tracks(c, init + [b]))
            && (c.mode == Stopped(InvalidControl) ==> RefusedAnyway(init + [b]))
  {
    hide Lines, Fold, FeedAll, ByBytes, Drain;
    var c := FeedAll(Fresh, ByBytes(init));
    if RefusedAnyway(init) {
      RefusedStays(init, b);
    } else if c.mode.Running? && |c.buffer| == LIMIT {
      FullBufferRefused(init, b);
    } else {
      FeedTracks(c, init, [b]);
      RestGrowsByOne(init, b);
    }
  }

  lemma RestGrowsByOne(s: Bytes, b: Byte)
    ensures |Lines(s + [b]).rest| <= |Lines(s).rest| + 1
  {
    LinesAppend(s, b);
  }

  /** The verdict does not depend on how the bytes are read exactly when there are no more than the limit
      of them, or their lines are refused anyway. */
  lemma IndependentExactly(s: Bytes)
    ensures Independent(s) <==> |s| <= LIMIT || RefusedAnyway(s)
  {
    ByBytesChunking(s);
    SlowlyByLines(s);
    hide RefusedAnyway;
    if |s| <= LIMIT {
      forall a, b | Chunking(a, s) && Chunking(b, s) ensures FeedAll(Fresh, a).mode == FeedAll(Fresh, b).mode { ShortStreamsAgree(a, b); }
    } else if Slowly(s) == Stopped(InvalidControl) {
      forall a, b | Chunking(a, s) && Chunking(b, s) ensures FeedAll(Fresh, a).mode == FeedAll(Fresh, b).mode {
        SlowlyInvalid(s, a);
        SlowlyInvalid(s, b);
      }
    } else {
      GreedyInvalid(s);
      assert FeedAll(Fresh, Greedy(s)).mode != FeedAll(Fresh, ByBytes(s)).mode;
    }
  }

  // ---------- a well-behaved child that is refused ----------

  /** A child that becomes ready and serves `n` requests. */
  function Session(n: nat): Bytes {
    if n == 0 then Ascii("BETA_READY") + [NEWLINE]
    else Session(n - 1) + Ascii("BETA_START") + [NEWLINE] + Ascii("BETA_DONE") + [NEWLINE]
  }

  lemma NoNewline(text: string)
    requires forall c | c in text :: c == '_' || 'A' <= c <= 'Z'
    ensures NEWLINE !in Ascii(text)
  {
    assert forall i | 0 <= i < |text| :: text[i] in text;
  }

  /** Each line of a session is obeyed. */
  lemma SessionObeyed()
    ensures Obey(Initial, Ascii("BETA_READY")) == Running(true, false)
    ensures Obey(Running(true, false), Ascii("BETA_START")) == Running(true, true)
    ensures Obey(Running(true, true), Ascii("BETA_DONE")) == Running(true, false)
  {
    assert Ascii("BETA_START")[5] != Ascii("BETA_READY")[5];
  }

  /** One more whole line of a stream that ends with a newline. */
  lemma NextLine(s: Bytes, line: Bytes, m: Mode)
    requires Lines(s).rest == [] && NEWLINE !in line && Fold(Initial, Lines(s).lines) == m
    ensures var t := s + line + [NEWLINE]; Lines(t).rest == [] && Fold(Initial, Lines(t).lines) == Obey(m, line)
  {
    hide Lines, Fold, Obey;
    LinesNext(s, line);
    FoldAppend(Initial, Lines(s).lines, line);
  }

  lemma {:induction false} SessionLines(n: nat)
    ensures |Session(n)| == 11 + 21 * n && Lines(Session(n)).rest == []
    ensures Fold(Initial, Lines(Session(n)).lines) == Running(true, false)
  {
    NoNewline("BETA_READY");
    NoNewline("BETA_START");
    NoNewline("BETA_DONE");
    SessionObeyed();
    assert Lines([]).rest == [] && Fold(Initial, Lines([]).lines) == Initial;
    hide Ascii, Lines, Fold, Obey;
    if n == 0 {
      NextLine([], Ascii("BETA_READY"), Initial);
      assert [] + Ascii("BETA_READY") == Ascii("BETA_READY");
    } else {
      SessionLines(n - 1);
      NextLine(Session(n - 1), Ascii("BETA_START"), Running(true, false));
      NextLine(Session(n - 1) + Ascii("BETA_START") + [NEWLINE], Ascii("BETA_DONE"), Running(true, true));
    }
  }

  /** Two hundred requests in one go: served when read byte by byte, refused when read greedily. */
  lemma LongSessionDepends()
    ensures var s := Session(200);
            && |s| > LIMIT && !Independent(s)
            && Slowly(s) == Running(true, false) && FeedAll(Fresh, Greedy(s)).mode == Stopped(InvalidControl)
  {
    SessionLines(200);
    hide Session;
    ServedWhole(Session(200));
  }

  /** A long stream whose lines end in order depends on the splits. */
  lemma ServedWhole(s: Bytes)
    requires |s| > LIMIT && Lines(s).rest == [] && Fold(Initial, Lines(s).lines) == Running(true, false)
    ensures !Independent(s) && Slowly(s) == Running(true, false) && FeedAll(Fresh, Greedy(s)).mode == Stopped(InvalidControl)
  {
    hide Lines, Fold, Independent, FeedAll, Greedy;
    SlowlyByLines(s);
    IndependentExactly(s);
    GreedyInvalid(s);
  }

  // ---------- the sessions that are served ----------

  /** The lines of a session so far: nothing before READY; then START and DONE in turn. */
  predicate SessionSoFar(lines: seq<Bytes>, ready: bool, busy: bool) {
    if !ready then !busy && lines == []
    else
      && |lines| > 0
      && var init, last := lines[..|lines| - 1], lines[|lines| - 1];
         if busy then last == Ascii("BETA_START") && SessionSoFar(init, true, false)
         else (init == [] && last == Ascii("BETA_READY")) || (last == Ascii("BETA_DONE") && SessionSoFar(init, true, true))
  }

  lemma DistinctWords()
    ensures Ascii("BETA_READY") != Ascii("BETA_START") && Ascii("BETA_READY") != Ascii("BETA_DONE") && Ascii("BETA_READY") != Ascii("BETA_ABORT")
    ensures Ascii("BETA_START") != Ascii("BETA_DONE") && Ascii("BETA_START") != Ascii("BETA_ABORT") && Ascii("BETA_DONE") != Ascii("BETA_ABORT")
  {
    assert Ascii("BETA_READY")[5] == 82 && Ascii("BETA_START")[5] == 83 && Ascii("BETA_ABORT")[5] == 65;
  }

  /** The child is still served exactly while its whole lines are a session. */
  lemma {:induction false} ServedExactly(lines: seq<Bytes>, ready: bool, busy: bool)
    ensures Fold(Initial, lines) == Running(ready, busy) <==> SessionSoFar(lines, ready, busy)
    decreases lines
  {
    if |lines| > 0 {
      var init, last := lines[..|lines| - 1], lines[|lines| - 1];
      DistinctWords();
      ServedExactly(init, false, false);
      ServedExactly(init, true, false);
      ServedExactly(init, true, true);
      ServedExactly(init, false, true);
      var m := Fold(Initial, init);
      hide Ascii;
      assert m.Running? ==> SessionSoFar(init, m.ready, m.busy) by { if m.Running? { ServedExactly(init, m.ready, m.busy); } }
      assert Fold(Initial, lines) == Obey(m, last);
      hide Fold;
    }
  }

  /** The client gave up at the i-th line, after a session so far. */
  ghost predicate AbortsAt(lines: seq<Bytes>, i: nat) {
    i < |lines| && lines[i] == Ascii("BETA_ABORT") && exists ready, busy :: SessionSoFar(lines[..i], ready, busy)
  }

  /** Of the sessions that are not served any more, those end in the client's abort that say so after a
      session so far; all others in an invalid control. */
  lemma {:induction false} AbortExactly(lines: seq<Bytes>)
    ensures Fold(Initial, lines) == Stopped(ClientAbort) <==> exists i: nat :: AbortsAt(lines, i)
    ensures Fold(Initial, lines).Stopped? ==> Fold(Initial, lines).verdict in {ClientAbort, InvalidControl}
  {
    if |lines| > 0 {
      var n := |lines| - 1;
      var init := lines[..n];
      AbortExactly(init);
      DistinctWords();
      var m := Fold(Initial, init);
      if m.Running? { ServedExactly(init, m.ready, m.busy); }
      forall ready, busy ensures SessionSoFar(init, ready, busy) ==> m == Running(ready, busy) { ServedExactly(init, ready, busy); }
      assert Fold(Initial, lines) == Obey(m, lines[n]);
      hide Fold, SessionSoFar, Ascii;
      forall i: nat ensures i < n ==> (AbortsAt(lines, i) <==> AbortsAt(init, i)) { if i < n { assert lines[..i] == init[..i]; } }
      assert AbortsAt(lines, n) <==> m.Running? && lines[n] == Ascii("BETA_ABORT");
      if i: nat :| AbortsAt(init, i) { assert AbortsAt(lines, i); }
      if i: nat :| AbortsAt(lines, i) { assert i == n || AbortsAt(init, i); }
      if i: nat :| AbortsAt(init, i) { StoppedBefore(lines); }
    }
  }

  lemma StoppedBefore(lines: seq<Bytes>)
    requires |lines| > 0 && Fold(Initial, lines[..|lines| - 1]).Stopped?
    ensures Fold(Initial, lines) == Fold(Initial, lines[..|lines| - 1])
  {
  }
}
