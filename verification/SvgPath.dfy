/** Path data of the approved SVG subset: reading it, translating it to canvas path calls, and what
    both trace (sections 9.3.3 to 9.3.7 of SVG 2). Coordinates are reals. */
module SvgPath {
  import opened Options

  datatype Token = Letter(c: char) | Num(value: real)

  datatype Point = Point(x: real, y: real)

  const ORIGIN := Point(0.0, 0.0)

  datatype Command =
    | MoveTo(p: Point) | LineTo(p: Point) | Horizontal(x: real) | Vertical(y: real)
    | Cubic(c1: Point, c2: Point, p: Point) | Quadratic(c: Point, p: Point)
    | ClosePath

  const KNOWN: set<char> := {'M', 'L', 'H', 'V', 'C', 'Q'}

  function Count(letter: char): nat
    requires letter in KNOWN
  {
    match letter
    case 'M' => 2
    case 'L' => 2
    case 'H' => 1
    case 'V' => 1
    case 'C' => 6
    case _ => 4
  }

  /** The numbers that follow a command letter. */
  predicate HasNumbers(tokens: seq<Token>, n: nat) { |tokens| >= n && forall i | 0 <= i < n :: tokens[i].Num? }

  function Make(letter: char, tokens: seq<Token>): Command
    requires letter in KNOWN && HasNumbers(tokens, Count(letter))
  {
    var v := i requires 0 <= i < Count(letter) => tokens[i].value;
    match letter
    case 'M' => MoveTo(Point(v(0), v(1)))
    case 'L' => LineTo(Point(v(0), v(1)))
    case 'H' => Horizontal(v(0))
    case 'V' => Vertical(v(0))
    case 'C' => Cubic(Point(v(0), v(1)), Point(v(2), v(3)), Point(v(4), v(5)))
    case _ => Quadratic(Point(v(0), v(1)), Point(v(2), v(3)))
  }

  /** The command that further numbers repeat: a line after a move, nothing after a close. */
  function Implied(letter: char): char { if letter == 'M' then 'L' else letter }

  /** Path data as commands; None where the translator's assertions fail. `letter` is the command
      that numbers without a letter of their own continue. */
  function Parse(tokens: seq<Token>, letter: Option<char>): Option<seq<Command>>
    decreases |tokens|
  {
    if |tokens| == 0 then Some([])
    else if tokens[0].Letter? then
      if tokens[0].c == 'Z' then Prepend(ClosePath, Parse(tokens[1..], None))
      else ParseNumbers(tokens[1..], tokens[0].c)
    else if letter.None? then None
    else if letter.value in KNOWN && HasNumbers(tokens, Count(letter.value))
    then Prepend(Make(letter.value, tokens), Parse(tokens[Count(letter.value)..], Some(Implied(letter.value))))
    else None
  }

  function ParseNumbers(tokens: seq<Token>, letter: char): Option<seq<Command>>
    decreases |tokens|
  {
    if letter in KNOWN && HasNumbers(tokens, Count(letter))
    then Prepend(Make(letter, tokens), Parse(tokens[Count(letter)..], Some(Implied(letter))))
    else None
  }

  function Prepend<T>(x: T, xs: Option<seq<T>>): Option<seq<T>> { if xs.None? then None else Some([x] + xs.value) }

  // ---------- the grammar ----------

  function LetterOf(c: Command): char {
    match c
    case MoveTo(_) => 'M'
    case LineTo(_) => 'L'
    case Horizontal(_) => 'H'
    case Vertical(_) => 'V'
    case Cubic(_, _, _) => 'C'
    case Quadratic(_, _) => 'Q'
    case ClosePath => 'Z'
  }

  function Numbers(c: Command): seq<Token> {
    match c
    case MoveTo(p) => [Num(p.x), Num(p.y)]
    case LineTo(p) => [Num(p.x), Num(p.y)]
    case Horizontal(x) => [Num(x)]
    case Vertical(y) => [Num(y)]
    case Cubic(a, b, p) => [Num(a.x), Num(a.y), Num(b.x), Num(b.y), Num(p.x), Num(p.y)]
    case Quadratic(a, p) => [Num(a.x), Num(a.y), Num(p.x), Num(p.y)]
    case ClosePath => []
  }

  /** A command may drop its letter when the previous command implies it. */
  predicate MayOmit(c: Command, letter: Option<char>) { !c.ClosePath? && letter == Some(LetterOf(c)) }

  function After(c: Command): Option<char> { if c.ClosePath? then None else Some(Implied(LetterOf(c))) }

  /** `tokens` spells `cs`: each command in full, or without its letter where that is implied. */
  ghost predicate Spells(tokens: seq<Token>, cs: seq<Command>, letter: Option<char>)
    decreases |cs|
  {
    if |cs| == 0 then tokens == []
    else
      var full := [Letter(LetterOf(cs[0]))] + Numbers(cs[0]);
      || (full <= tokens && Spells(tokens[|full|..], cs[1..], After(cs[0])))
      || (MayOmit(cs[0], letter) && Numbers(cs[0]) <= tokens && Spells(tokens[|Numbers(cs[0])|..], cs[1..], After(cs[0])))
  }

  lemma MakeReads(c: Command, tokens: seq<Token>)
    requires !c.ClosePath? && Numbers(c) <= tokens
    ensures LetterOf(c) in KNOWN && Count(LetterOf(c)) == |Numbers(c)|
    ensures HasNumbers(tokens, |Numbers(c)|) && Make(LetterOf(c), tokens) == c
  {
    var n := Numbers(c);
    assert forall i | 0 <= i < |n| :: tokens[i] == n[i];
  }

  lemma MakeWrites(letter: char, tokens: seq<Token>)
    requires letter in KNOWN && HasNumbers(tokens, Count(letter))
    ensures var c := Make(letter, tokens);
            !c.ClosePath? && LetterOf(c) == letter && Numbers(c) == tokens[..Count(letter)]
  {
  }

  /** Every spelling of a command list is read back as that list. */
  lemma {:induction false} ParseSpelling(tokens: seq<Token>, cs: seq<Command>, letter: Option<char>)
    requires Spells(tokens, cs, letter)
    ensures Parse(tokens, letter) == Some(cs)
    decreases |cs|
  {
    if |cs| > 0 {
      var c := cs[0];
      var n := Numbers(c);
      var full := [Letter(LetterOf(c))] + n;
      assert cs == [c] + cs[1..];
      if full <= tokens && Spells(tokens[|full|..], cs[1..], After(c)) {
        ParseSpelling(tokens[|full|..], cs[1..], After(c));
        assert tokens[0] == full[0];
        assert tokens[1..][|n|..] == tokens[|full|..];
        if !c.ClosePath? {
          assert n <= tokens[1..] by { assert full[1..] == n && tokens[..|full|] == full; }
          MakeReads(c, tokens[1..]);
          hide Make, Count;
        }
      } else {
        ParseSpelling(tokens[|n|..], cs[1..], After(c));
        MakeReads(c, tokens);
        hide Make, Count;
        assert tokens[0] == n[0];
      }
    }
  }

  /** Whatever is accepted is a spelling of the commands it is read as. */
  lemma {:induction false} ParsedIsSpelled(tokens: seq<Token>, letter: Option<char>)
    requires Parse(tokens, letter).Some?
    ensures Spells(tokens, Parse(tokens, letter).value, letter)
    decreases |tokens|
  {
    if |tokens| > 0 {
      var cs := Parse(tokens, letter).value;
      var c := cs[0];
      var explicit := tokens[0].Letter?;
      if explicit && tokens[0].c == 'Z' {
        ParsedIsSpelled(tokens[1..], None);
        assert [Letter('Z')] + Numbers(c) == [Letter('Z')];
        assert cs[1..] == Parse(tokens[1..], None).value;
      } else {
        var l := if explicit then tokens[0].c else letter.value;
        var args := if explicit then tokens[1..] else tokens;
        MakeWrites(l, args);
        ParseStep(tokens, letter);
        hide Make, Count, Parse;
        assert c == Make(l, args);
        ParsedIsSpelled(args[Count(l)..], Some(Implied(l)));
        assert cs[1..] == Parse(args[Count(l)..], Some(Implied(l))).value;
        if explicit {
          var full := [Letter(l)] + Numbers(c);
          hide Numbers;
          assert tokens == [tokens[0]] + tokens[1..];
          assert tokens[|full|..] == args[Count(l)..];
        }
      }
    }
  }

  // ---------- what a path traces ----------

  datatype Segment =
    | Line(a: Point, b: Point)
    | CubicCurve(a: Point, c1: Point, c2: Point, b: Point)
    | QuadraticCurve(a: Point, c: Point, b: Point)
    | Closing(a: Point, b: Point)

  /** Path data begins with a move, or is in error as a whole. */
  predicate BeginsWithMove(cs: seq<Command>) { |cs| == 0 || cs[0].MoveTo? }

  /** What SVG draws for path data: nothing when it is in error. */
  function SvgShape(cs: seq<Command>): seq<Segment> { if BeginsWithMove(cs) then SvgTrace(cs, ORIGIN, ORIGIN) else [] }

  /** SVG: a closed subpath leaves the current point at its start. */
  function SvgTrace(cs: seq<Command>, cur: Point, start: Point): seq<Segment> {
    if |cs| == 0 then []
    else
      match cs[0]
      case MoveTo(p) => SvgTrace(cs[1..], p, p)
      case LineTo(p) => [Line(cur, p)] + SvgTrace(cs[1..], p, start)
      case Horizontal(x) => [Line(cur, Point(x, cur.y))] + SvgTrace(cs[1..], Point(x, cur.y), start)
      case Vertical(y) => [Line(cur, Point(cur.x, y))] + SvgTrace(cs[1..], Point(cur.x, y), start)
      case Cubic(a, b, p) => [CubicCurve(cur, a, b, p)] + SvgTrace(cs[1..], p, start)
      case Quadratic(a, p) => [QuadraticCurve(cur, a, p)] + SvgTrace(cs[1..], p, start)
      case ClosePath => [Closing(cur, start)] + SvgTrace(cs[1..], start, start)
  }

  /** The canvas path calls the translator emits. */
  datatype Call = MoveCall(p: Point) | LineCall(p: Point) | CubicCall(c1: Point, c2: Point, p: Point) | QuadraticCall(c: Point, p: Point) | CloseCall

  function CallTrace(calls: seq<Call>, cur: Point, start: Point): seq<Segment> {
    if |calls| == 0 then []
    else
      match calls[0]
      case MoveCall(p) => CallTrace(calls[1..], p, p)
      case LineCall(p) => [Line(cur, p)] + CallTrace(calls[1..], p, start)
      case CubicCall(a, b, p) => [CubicCurve(cur, a, b, p)] + CallTrace(calls[1..], p, start)
      case QuadraticCall(a, p) => [QuadraticCurve(cur, a, p)] + CallTrace(calls[1..], p, start)
      case CloseCall => [Closing(cur, start)] + CallTrace(calls[1..], start, start)
  }

  /** What the canvas draws for the calls: an empty path starts at the origin, and closing it does nothing. */
  function Traced(calls: seq<Call>): seq<Segment> {
    if |calls| > 0 && calls[0].CloseCall? then Traced(calls[1..]) else CallTrace(calls, ORIGIN, ORIGIN)
  }

  /** One command's call, given the end of the last drawn piece. */
  function CallFor(c: Command, last: Point): Call {
    match c
    case MoveTo(p) => MoveCall(p)
    case LineTo(p) => LineCall(p)
    case Horizontal(x) => LineCall(Point(x, last.y))
    case Vertical(y) => LineCall(Point(last.x, y))
    case Cubic(a, b, p) => CubicCall(a, b, p)
    case Quadratic(a, p) => QuadraticCall(a, p)
    case ClosePath => CloseCall
  }

  /** Closing leaves the translator's own point where it was. */
  function EndOf(c: Command, last: Point): Point {
    match CallFor(c, last)
    case MoveCall(p) => p
    case LineCall(p) => p
    case CubicCall(_, _, p) => p
    case QuadraticCall(_, p) => p
    case CloseCall => last
  }

  function Emit(cs: seq<Command>, last: Point): seq<Call> {
    if |cs| == 0 then [] else [CallFor(cs[0], last)] + Emit(cs[1..], EndOf(cs[0], last))
  }

  /** Every H is drawn at the height, and every V at the abscissa, where the pen was before any
      closing: a fact about the path alone. */
  predicate ShorthandSafe(cs: seq<Command>, cur: Point, start: Point, last: Point) {
    |cs| > 0 ==>
      match cs[0]
      case MoveTo(p) => ShorthandSafe(cs[1..], p, p, p)
      case LineTo(p) => ShorthandSafe(cs[1..], p, start, p)
      case Horizontal(x) => cur.y == last.y && ShorthandSafe(cs[1..], Point(x, cur.y), start, Point(x, cur.y))
      case Vertical(y) => cur.x == last.x && ShorthandSafe(cs[1..], Point(cur.x, y), start, Point(cur.x, y))
      case Cubic(_, _, p) => ShorthandSafe(cs[1..], p, start, p)
      case Quadratic(_, p) => ShorthandSafe(cs[1..], p, start, p)
      case ClosePath => ShorthandSafe(cs[1..], start, start, last)
  }

  /** Nothing but closes of the empty path and then moves. */
  predicate Idle(cs: seq<Command>) {
    if |cs| > 0 && cs[0].ClosePath? then Idle(cs[1..]) else forall c | c in cs :: c.MoveTo?
  }

  /** The data begins with a move and its shorthands are safe, or it is in error and would draw nothing. */
  predicate Faithful(cs: seq<Command>) {
    if BeginsWithMove(cs) then ShorthandSafe(cs, ORIGIN, ORIGIN, ORIGIN) else Idle(cs)
  }

  lemma HeadsAndTails<T>(x: T, xs: seq<T>, y: T, ys: seq<T>)
    ensures [x] + xs == [y] + ys <==> x == y && xs == ys
  {
    if [x] + xs == [y] + ys {
      assert ([x] + xs)[0] == x && ([y] + ys)[0] == y;
      assert ([x] + xs)[1..] == xs && ([y] + ys)[1..] == ys;
    }
  }

  /** The emitted calls trace what the path traces exactly when its shorthands are safe. */
  lemma {:induction false} EmitTraces(cs: seq<Command>, cur: Point, start: Point, last: Point)
    ensures CallTrace(Emit(cs, last), cur, start) == SvgTrace(cs, cur, start) <==> ShorthandSafe(cs, cur, start, last)
    decreases cs, 1
  {
    if |cs| > 0 {
      var c := cs[0];
      var end := EndOf(c, last);
      var rest := Emit(cs[1..], end);
      assert Emit(cs, last)[1..] == rest;
      match c {
        case MoveTo(p) => EmitTraces(cs[1..], p, p, end);
        case ClosePath =>
          EmitTraces(cs[1..], start, start, end);
          HeadsAndTails(Closing(cur, start), CallTrace(rest, start, start), Closing(cur, start), SvgTrace(cs[1..], start, start));
        case LineTo(p) => EmitTracesNext(cs, cur, start, last, Line(cur, p), p);
        case Horizontal(x) =>
          var p := Point(x, cur.y);
          EmitTraces(cs[1..], end, start, end);
          HeadsAndTails(Line(cur, end), CallTrace(rest, end, start), Line(cur, p), SvgTrace(cs[1..], p, start));
        case Vertical(y) =>
          var p := Point(cur.x, y);
          EmitTraces(cs[1..], end, start, end);
          HeadsAndTails(Line(cur, end), CallTrace(rest, end, start), Line(cur, p), SvgTrace(cs[1..], p, start));
        case Cubic(a, b, p) => EmitTracesNext(cs, cur, start, last, CubicCurve(cur, a, b, p), p);
        case Quadratic(a, p) => EmitTracesNext(cs, cur, start, last, QuadraticCurve(cur, a, p), p);
      }
    }
  }

  lemma {:induction false} EmitTracesNext(cs: seq<Command>, cur: Point, start: Point, last: Point, piece: Segment, p: Point)
    requires |cs| > 0 && p == EndOf(cs[0], last)
    ensures [piece] + CallTrace(Emit(cs[1..], p), p, start) == [piece] + SvgTrace(cs[1..], p, start) <==> ShorthandSafe(cs[1..], p, start, p)
    decreases cs, 0
  {
    EmitTraces(cs[1..], p, start, p);
    HeadsAndTails(piece, CallTrace(Emit(cs[1..], p), p, start), piece, SvgTrace(cs[1..], p, start));
  }

  lemma {:induction false} OnlyMovesTraceNothing(cs: seq<Command>, cur: Point, start: Point, last: Point)
    ensures CallTrace(Emit(cs, last), cur, start) == [] <==> forall c | c in cs :: c.MoveTo?
  {
    if |cs| > 0 {
      assert Emit(cs, last)[1..] == Emit(cs[1..], EndOf(cs[0], last));
      assert cs == [cs[0]] + cs[1..];
      if cs[0].MoveTo? {
        OnlyMovesTraceNothing(cs[1..], cs[0].p, cs[0].p, cs[0].p);
      } else {
        assert cs[0] in cs;
      }
    }
  }

  lemma {:induction false} IdleTracesNothing(cs: seq<Command>)
    ensures Traced(Emit(cs, ORIGIN)) == [] <==> Idle(cs)
  {
    if |cs| > 0 && cs[0].ClosePath? {
      assert Emit(cs, ORIGIN)[1..] == Emit(cs[1..], ORIGIN);
      IdleTracesNothing(cs[1..]);
    } else {
      OnlyMovesTraceNothing(cs, ORIGIN, ORIGIN, ORIGIN);
    }
  }

  lemma EmitDraws(cs: seq<Command>)
    ensures Traced(Emit(cs, ORIGIN)) == SvgShape(cs) <==> Faithful(cs)
  {
    if BeginsWithMove(cs) {
      EmitTraces(cs, ORIGIN, ORIGIN, ORIGIN);
    } else {
      IdleTracesNothing(cs);
    }
  }

  /** H or V directly after a close. */
  predicate NoShorthandAfterClose(cs: seq<Command>) {
    forall i | 0 <= i < |cs| - 1 && cs[i].ClosePath? :: !cs[i + 1].Horizontal? && !cs[i + 1].Vertical?
  }

  lemma {:induction false} SafeWithout(cs: seq<Command>, cur: Point, start: Point, last: Point)
    requires NoShorthandAfterClose(cs)
    requires cur == last || (|cs| > 0 ==> !cs[0].Horizontal? && !cs[0].Vertical?)
    ensures ShorthandSafe(cs, cur, start, last)
  {
    if |cs| > 0 {
      assert NoShorthandAfterClose(cs[1..]) by {
        forall i | 0 <= i < |cs[1..]| - 1 && cs[1..][i].ClosePath? ensures !cs[1..][i + 1].Horizontal? && !cs[1..][i + 1].Vertical? {
          assert cs[i + 1].ClosePath?;
        }
      }
      match cs[0] {
        case MoveTo(p) => SafeWithout(cs[1..], p, p, p);
        case LineTo(p) => SafeWithout(cs[1..], p, start, p);
        case Horizontal(x) => SafeWithout(cs[1..], Point(x, cur.y), start, Point(x, cur.y));
        case Vertical(y) => SafeWithout(cs[1..], Point(cur.x, y), start, Point(cur.x, y));
        case Cubic(_, _, p) => SafeWithout(cs[1..], p, start, p);
        case Quadratic(_, p) => SafeWithout(cs[1..], p, start, p);
        case ClosePath => SafeWithout(cs[1..], start, start, last);
      }
    }
  }

  // ---------- the translator ----------

  function Translate(tokens: seq<Token>): Option<seq<Call>> {
    match Parse(tokens, None)
    case None => None
    case Some(cs) => Some(Emit(cs, ORIGIN))
  }

  /** Calls emitted so far, then those of the commands still to be read. */
  function Joined(done: seq<Call>, rest: Option<seq<Command>>, last: Point): Option<seq<Call>> {
    match rest
    case None => None
    case Some(cs) => Some(done + Emit(cs, last))
  }

  lemma JoinedStep(done: seq<Call>, c: Command, rest: Option<seq<Command>>, last: Point)
    ensures Joined(done, Prepend(c, rest), last) == Joined(done + [CallFor(c, last)], rest, EndOf(c, last))
  {
    if rest.Some? {
      var cs := [c] + rest.value;
      assert cs[1..] == rest.value;
      var tail := Emit(rest.value, EndOf(c, last));
      assert Emit(cs, last) == [CallFor(c, last)] + tail;
      assert done + ([CallFor(c, last)] + tail) == done + [CallFor(c, last)] + tail;
    }
  }

  /** How reading goes on at a letter or at a bare number. */
  lemma ParseStep(tokens: seq<Token>, letter: Option<char>)
    requires |tokens| > 0
    ensures tokens[0] == Letter('Z') ==> Parse(tokens, letter) == Prepend(ClosePath, Parse(tokens[1..], None))
    ensures var l := if tokens[0].Letter? then Some(tokens[0].c) else letter;
            var args := if tokens[0].Letter? then tokens[1..] else tokens;
            tokens[0] != Letter('Z') ==>
              if l.Some? && l.value in KNOWN && HasNumbers(args, Count(l.value))
              then Parse(tokens, letter) == Prepend(Make(l.value, args), Parse(args[Count(l.value)..], Some(Implied(l.value))))
              else Parse(tokens, letter) == None
  {
    hide Make, Count;
  }

  /** The call for a letter and its numbers, H and V already completed to a point. */
  function CallOf(letter: char, v: seq<real>): Call
    requires letter in KNOWN && |v| == (if letter in {'H', 'V'} then 2 else Count(letter))
  {
    match letter
    case 'M' => MoveCall(Point(v[0], v[1]))
    case 'C' => CubicCall(Point(v[0], v[1]), Point(v[2], v[3]), Point(v[4], v[5]))
    case 'Q' => QuadraticCall(Point(v[0], v[1]), Point(v[2], v[3]))
    case _ => LineCall(Point(v[0], v[1]))
  }

  /** One turn of the loop on the numbers of a command. */
  lemma CallOfMakes(letter: char, tokens: seq<Token>, v: seq<real>, last: Point)
    requires letter in KNOWN && HasNumbers(tokens, Count(letter))
    requires v == (if letter == 'H' then [tokens[0].value, last.y] else if letter == 'V' then [last.x, tokens[0].value]
                   else seq(Count(letter), i requires 0 <= i < Count(letter) => tokens[i].value))
    ensures |v| >= 2 && CallOf(letter, v) == CallFor(Make(letter, tokens), last)
    ensures Point(v[|v| - 2], v[|v| - 1]) == EndOf(Make(letter, tokens), last)
  {
  }

  /** `path_calls`: one pass over the tokens, keeping the current command and the last point. It
      succeeds exactly on the spellings of a command list and then emits that list's calls. */
  method PathCalls(tokens: seq<Token>) returns (r: Option<seq<Call>>)
    ensures r == Translate(tokens)
  {
    var i, command, x, y := 0, None, 0.0, 0.0;
    var result: seq<Call> := [];
    assert tokens[0..] == tokens;
    assert Translate(tokens) == Joined(result, Parse(tokens, None), ORIGIN) by {
      if Parse(tokens, None).Some? { assert [] + Emit(Parse(tokens, None).value, ORIGIN) == Emit(Parse(tokens, None).value, ORIGIN); }
    }
    while i < |tokens|
      invariant 0 <= i <= |tokens|
      invariant Translate(tokens) == Joined(result, Parse(tokens[i..], command), Point(x, y))
    {
      hide Translate, Joined, Make, Count, CallFor, EndOf, Parse, CallOf;
      ParseStep(tokens[i..], command);
      assert tokens[i..][0] == tokens[i] && tokens[i..][1..] == tokens[i + 1..];
      if tokens[i].Letter? {
        command := Some(tokens[i].c);
        i := i + 1;
        if command == Some('Z') {
          JoinedStep(result, ClosePath, Parse(tokens[i..], None), Point(x, y));
          assert CallFor(ClosePath, Point(x, y)) == CloseCall && EndOf(ClosePath, Point(x, y)) == Point(x, y) by { CloseIsClose(Point(x, y)); }
          result := result + [CloseCall];
          command := None;
          continue;
        }
      }
      if command.None? || command.value !in KNOWN || !HasNumbers(tokens[i..], Count(command.value)) {
        NothingJoined(result, Point(x, y));
        return None;
      }
      var count := Count(command.value);
      ghost var args := tokens[i..];
      ghost var last := Point(x, y);
      ghost var c := Make(command.value, args);
      var values := seq(count, k requires 0 <= k < count => tokens[i..][k].value);
      CountIsPositive(command.value);
      i := i + count;
      if command == Some('H') { values := [values[0], y]; } else if command == Some('V') { values := [x, values[0]]; }
      CallOfMakes(command.value, args, values, last);
      assert args[count..] == tokens[i..];
      JoinedStep(result, c, Parse(tokens[i..], Some(Implied(command.value))), last);
      x, y := values[|values| - 2], values[|values| - 1];
      result := result + [CallOf(command.value, values)];
      if command == Some('M') { command := Some('L'); }
    }
    assert tokens[i..] == [] && result + Emit([], Point(x, y)) == result;
    r := Some(result);
  }

  lemma CloseIsClose(p: Point)
    ensures CallFor(ClosePath, p) == CloseCall && EndOf(ClosePath, p) == p
  {
  }

  lemma CountIsPositive(letter: char)
    requires letter in KNOWN
    ensures Count(letter) > 0 && (letter in {'H', 'V'} ==> Count(letter) == 1)
  {
  }

  lemma NothingJoined(done: seq<Call>, last: Point)
    ensures Joined(done, None, last) == None
  {
  }

  // ---------- main results ----------

  /** Acceptance is spelling: the translator accepts exactly the spellings of command lists. */
  lemma AcceptedIffSpelled(tokens: seq<Token>)
    ensures Translate(tokens).Some? <==> exists cs :: Spells(tokens, cs, None)
  {
    if Translate(tokens).Some? { ParsedIsSpelled(tokens, None); }
    if cs :| Spells(tokens, cs, None) { ParseSpelling(tokens, cs, None); }
  }

  /** Every spelling of a path is translated, and the canvas draws what SVG draws if and only if the data
      begins with a move and each H and V that follows a close finds the pen where it stood before the
      close, or the data is in error and its calls draw nothing; in particular whenever it begins with a
      move and no H or V directly follows a close. */
  lemma TranslationPreservesGeometry(tokens: seq<Token>, cs: seq<Command>)
    requires Spells(tokens, cs, None)
    ensures Translate(tokens).Some?
    ensures Traced(Translate(tokens).value) == SvgShape(cs) <==> Faithful(cs)
    ensures BeginsWithMove(cs) && NoShorthandAfterClose(cs) ==> Traced(Translate(tokens).value) == SvgShape(cs)
  {
    ParseSpelling(tokens, cs, None);
    EmitDraws(cs);
    if BeginsWithMove(cs) && NoShorthandAfterClose(cs) { SafeWithout(cs, ORIGIN, ORIGIN, ORIGIN); }
  }

  /** Data that begins with a line is accepted and drawn from the origin, where SVG draws nothing: L 1 1. */
  lemma NoLeadingMoveMisdraws()
    ensures var tokens := [Letter('L'), Num(1.0), Num(1.0)];
            && Spells(tokens, [LineTo(Point(1.0, 1.0))], None) && Translate(tokens) == Some([LineCall(Point(1.0, 1.0))])
            && Traced([LineCall(Point(1.0, 1.0))]) == [Line(ORIGIN, Point(1.0, 1.0))] && SvgShape([LineTo(Point(1.0, 1.0))]) == []
  {
    var tokens := [Letter('L'), Num(1.0), Num(1.0)];
    var numbers := [Num(1.0), Num(1.0)];
    assert tokens[1..] == numbers && numbers[2..] == [];
    assert Parse([], Some('L')) == Some([]);
    assert HasNumbers(numbers, Count('L')) && numbers[Count('L')..] == [] && Make('L', numbers) == LineTo(Point(1.0, 1.0));
    assert [LineTo(Point(1.0, 1.0))] + [] == [LineTo(Point(1.0, 1.0))];
    assert ParseNumbers(numbers, 'L') == Some([LineTo(Point(1.0, 1.0))]);
    assert Parse(tokens, None) == Some([LineTo(Point(1.0, 1.0))]);
    ParsedIsSpelled(tokens, None);
    var cs := [LineTo(Point(1.0, 1.0))];
    assert cs[1..] == [] && Emit([], cs[0].p) == [];
    assert Emit(cs, ORIGIN) == [LineCall(Point(1.0, 1.0))];
    assert [LineCall(Point(1.0, 1.0))][1..] == [];
  }

  /** The failing family of shorthands in its smallest form: M 0 0 L 1 1 Z H 5 draws to height 1 instead of 0. */
  lemma ShorthandAfterCloseMisdraws()
    ensures var cs := [MoveTo(Point(0.0, 0.0)), LineTo(Point(1.0, 1.0)), ClosePath, Horizontal(5.0)];
            && Emit(cs, ORIGIN) == [MoveCall(ORIGIN), LineCall(Point(1.0, 1.0)), CloseCall, LineCall(Point(5.0, 1.0))]
            && Traced(Emit(cs, ORIGIN)) != SvgShape(cs)
  {
    var h := [Horizontal(5.0)];
    var z := [ClosePath] + h;
    var l := [LineTo(Point(1.0, 1.0))] + z;
    var cs := [MoveTo(Point(0.0, 0.0)), LineTo(Point(1.0, 1.0)), ClosePath, Horizontal(5.0)];
    var one := Point(1.0, 1.0);
    assert cs[1..] == l && l[1..] == z && z[1..] == h && h[1..] == [];
    assert Emit(h, one) == [LineCall(Point(5.0, 1.0))];
    assert Emit(z, one) == [CloseCall] + Emit(h, one);
    assert Emit(l, ORIGIN) == [LineCall(one)] + Emit(z, one);
    assert !ShorthandSafe(h, ORIGIN, ORIGIN, one);
    assert !ShorthandSafe(z, one, ORIGIN, one);
    assert !ShorthandSafe(l, ORIGIN, ORIGIN, ORIGIN);
    EmitDraws(cs);
  }
}
