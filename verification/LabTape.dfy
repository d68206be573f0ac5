/**
 The tape of an experiment. The parser checks one event at a time against four counters; `IsTape` says
 what a tape looks like as a whole. `ParserIsGrammar` says that they agree on every list of events.
 */
module LabTape {
  import opened Wrappers
  import opened LabState

  const LAB_MAX_EVENTS := 20_000

  datatype Entry =
    | Fundamental(sequence: int, tick: int, value: int)
    | Public(sequence: int, tick: int, value: int)
    | Ordered(sequence: int, tick: int, actor: string, id: string, side: Side, quantity: int, price: Option<int>)
    | Cancelled(sequence: int, tick: int, actor: string, id: string)
    | Sampled(sequence: int, tick: int)

  datatype TapeError = Events | Sequence | Range | Actor

  /** The parser's counters. */
  datatype Scan = Scan(sampled: int, previous: int, fundamental: int, public: int)

  const START := Scan(-1, 0, -1, -1)

  predicate ValuesFit(e: Entry) {
    match e
    case Fundamental(_, _, value) => 5_000 <= value <= 15_000
    case Public(_, _, value) => 5_000 <= value <= 15_000
    case Ordered(_, _, _, _, _, quantity, price) =>
      1 <= quantity <= 50_000 && (price.Some? ==> 100 <= price.value <= 10_000_000)
    case _ => true
  }

  predicate Named(e: Entry, actors: set<string>)
    requires e.Ordered? || e.Cancelled?
  {
    e.actor in actors && 1 <= |e.id| <= 128
  }

  /** One event: the counters after it, or the complaint. */
  function Check(s: Scan, e: Entry, sequence: int, ticks: int, actors: set<string>): Result<Scan, TapeError> {
    if e.sequence != sequence then Failure(Sequence)
    else if !(0 <= e.tick < ticks) then Failure(Range)
    else if e.tick < s.previous || e.tick > s.sampled + 1 || e.tick <= s.sampled then Failure(Sequence)
    else
      var t := s.(previous := e.tick);
      match e
      case Fundamental(_, tick, value) =>
        if s.fundamental == tick then Failure(Sequence) else if !ValuesFit(e) then Failure(Range)
          else Success(t.(fundamental := tick))
      case Public(_, tick, value) =>
        if s.public == tick then Failure(Sequence) else if !ValuesFit(e) then Failure(Range)
          else Success(t.(public := tick))
      case Sampled(_, tick) =>
        if s.fundamental != tick || s.public != tick then Failure(Sequence) else Success(t.(sampled := tick))
      case _ =>
        if s.fundamental != e.tick || s.public != e.tick then Failure(Sequence)
        else if !Named(e, actors) then Failure(Actor)
        else if !ValuesFit(e) then Failure(Range) else Success(t)
  }

  function Checks(s: Scan, events: seq<Entry>, first: int, ticks: int, actors: set<string>): Result<Scan, TapeError>
    decreases |events|
  {
    if events == [] then (if s.sampled == ticks - 1 then Success(s) else Failure(Sequence))
    else
      var r := Check(s, events[0], first, ticks, actors);
      if r.Failure? then r else Checks(r.value, events[1..], first + 1, ticks, actors)
  }

  /** Reads a tape event by event. */
  method ParseTape(events: seq<Entry>, ticks: nat, actors: set<string>) returns (error: Option<TapeError>)
    requires 60 <= ticks <= 300
    ensures error.None? <==> |events| <= LAB_MAX_EVENTS && IsTape(events, 0, ticks, 0, actors)
  {
    TapeIsLong(events, 0, ticks, 0, actors);
    hide IsTape, Check;
    if |events| > LAB_MAX_EVENTS || |events| < ticks * 3 { return Some(Events); }
    ParserIsGrammar(events, ticks, actors);
    var scan := START;
    for sequence := 0 to |events|
      invariant Checks(START, events, 0, ticks, actors) == Checks(scan, events[sequence..], sequence, ticks, actors)
    {
      assert events[sequence..][1..] == events[sequence + 1..];
      var r := Check(scan, events[sequence], sequence, ticks, actors);
      if r.Failure? { return Some(r.error); }
      scan := r.value;
    }
    if scan.sampled != ticks - 1 { return Some(Sequence); }
    return None;
  }

  // ---- What a tape is ----

  predicate IsAction(e: Entry, actors: set<string>) { (e.Ordered? || e.Cancelled?) && Named(e, actors) && ValuesFit(e) }

  /** One tick: both values in either order, then actions, then the sample. */
  ghost predicate IsBlock(b: seq<Entry>, tick: int, first: int, actors: set<string>) {
    && |b| >= 3
    && (forall i :: 0 <= i < |b| ==> b[i].sequence == first + i && b[i].tick == tick)
    && ((b[0].Fundamental? && b[1].Public?) || (b[0].Public? && b[1].Fundamental?)) && ValuesFit(b[0])
    && ValuesFit(b[1])
    && (forall i :: 2 <= i < |b| - 1 ==> IsAction(b[i], actors))
    && b[|b| - 1].Sampled?
  }

  /** One block for each tick from `tick` on. */
  ghost predicate IsTape(events: seq<Entry>, tick: int, ticks: int, first: int, actors: set<string>)
    decreases ticks - tick
  {
    if tick >= ticks then events == []
    else exists k :: 0 < k <= |events| && IsBlock(events[..k], tick, first, actors)
                     && IsTape(events[k..], tick + 1, ticks, first + k, actors)
  }

  lemma {:induction false} TapeIsLong(events: seq<Entry>, tick: int, ticks: int, first: int, actors: set<string>)
    requires tick <= ticks
    ensures IsTape(events, tick, ticks, first, actors) ==> |events| >= 3 * (ticks - tick)
    decreases ticks - tick
  {
    if tick < ticks && IsTape(events, tick, ticks, first, actors) {
      var k :| 0 < k <= |events| && IsBlock(events[..k], tick, first, actors)
               && IsTape(events[k..], tick + 1, ticks, first + k, actors);
      TapeIsLong(events[k..], tick + 1, ticks, first + k, actors);
    }
  }

  /** The rest of a block, when `f` and `p` say which values have been seen. */
  ghost predicate BlockTail(b: seq<Entry>, tick: int, f: bool, p: bool, first: int, actors: set<string>)
    decreases |b|
  {
    && b != [] && b[0].sequence == first && b[0].tick == tick
    && match b[0]
       case Fundamental(_, _, _) => !f && ValuesFit(b[0]) && BlockTail(b[1..], tick, true, p, first + 1, actors)
       case Public(_, _, _) => !p && ValuesFit(b[0]) && BlockTail(b[1..], tick, f, true, first + 1, actors)
       case Sampled(_, _) => f && p && |b| == 1
       case _ => f && p && IsAction(b[0], actors) && BlockTail(b[1..], tick, f, p, first + 1, actors)
  }

  /** A block's end: actions, then the sample. */
  ghost predicate IsEnd(b: seq<Entry>, tick: int, first: int, actors: set<string>) {
    && b != []
    && (forall i :: 0 <= i < |b| ==> b[i].sequence == first + i && b[i].tick == tick)
    && (forall i :: 0 <= i < |b| - 1 ==> IsAction(b[i], actors))
    && b[|b| - 1].Sampled?
  }

  lemma {:induction false} TailIsEnd(b: seq<Entry>, tick: int, first: int, actors: set<string>)
    ensures BlockTail(b, tick, true, true, first, actors) <==> IsEnd(b, tick, first, actors)
    decreases |b|
  {
    if |b| > 1 {
      TailIsEnd(b[1..], tick, first + 1, actors);
      var c := b[1..];
      assert c[|c| - 1] == b[|b| - 1];
      if IsEnd(b, tick, first, actors) {
        assert forall i :: 0 <= i < |c| ==> c[i] == b[i + 1];
      }
      if IsEnd(c, tick, first + 1, actors) {
        assert forall i :: 1 <= i < |b| ==> b[i] == c[i - 1];
      }
    }
  }

  lemma TailIsBlock(b: seq<Entry>, tick: int, first: int, actors: set<string>)
    ensures BlockTail(b, tick, false, false, first, actors) <==> IsBlock(b, tick, first, actors)
  {
    if |b| >= 3 {
      var c := b[2..];
      assert b[1..][1..] == c && b[1..][0] == b[1];
      TailIsEnd(c, tick, first + 2, actors);
      BlockIsEnd(b, c, tick, first, actors);
      hide IsBlock, IsEnd;
    } else if |b| == 2 {
      assert b[1..] == [b[1]];
      LoneTail(b[1], tick, true, false, first + 1, actors);
      LoneTail(b[1], tick, false, true, first + 1, actors);
    }
  }

  lemma LoneTail(e: Entry, tick: int, f: bool, p: bool, first: int, actors: set<string>)
    ensures BlockTail([e], tick, f, p, first, actors) ==> f && p
  {
    assert [e][1..] == [];
    assert !BlockTail([], tick, true, p, first + 1, actors) && !BlockTail([], tick, f, true, first + 1, actors);
  }

  lemma BlockIsEnd(b: seq<Entry>, c: seq<Entry>, tick: int, first: int, actors: set<string>)
    requires |b| >= 3 && c == b[2..]
    ensures IsBlock(b, tick, first, actors) <==>
      && b[0].sequence == first && b[0].tick == tick && b[1].sequence == first + 1 && b[1].tick == tick
      && ((b[0].Fundamental? && b[1].Public?) || (b[0].Public? && b[1].Fundamental?)) && ValuesFit(b[0])
      && ValuesFit(b[1])
      && IsEnd(c, tick, first + 2, actors)
  {
    assert forall i :: 0 <= i < |c| ==> c[i] == b[i + 2];
    assert forall i :: 2 <= i < |b| ==> b[i] == c[i - 2];
  }

  /** The counters say: `tick` is under way, and these of its values have been seen. */
  ghost predicate Fits(s: Scan, tick: int, f: bool, p: bool) {
    && s.sampled == tick - 1 && s.previous <= tick && s.fundamental <= tick && s.public <= tick
    && (f <==> s.fundamental == tick) && (p <==> s.public == tick)
  }

  /** The rest of a tape in the middle of a block. */
  ghost predicate Rest(events: seq<Entry>, tick: int, f: bool, p: bool, first: int, ticks: int, actors: set<string>) {
    if tick >= ticks then events == []
    else exists k :: 0 < k <= |events| && BlockTail(events[..k], tick, f, p, first, actors)
                     && IsTape(events[k..], tick + 1, ticks, first + k, actors)
  }

  lemma RestIsTape(events: seq<Entry>, tick: int, first: int, ticks: int, actors: set<string>)
    ensures Rest(events, tick, false, false, first, ticks, actors) <==> IsTape(events, tick, ticks, first, actors)
  {
    forall k | 0 < k <= |events|
      ensures BlockTail(events[..k], tick, false, false, first, actors) <==> IsBlock(events[..k], tick, first, actors)
    {
      TailIsBlock(events[..k], tick, first, actors);
    }
    hide BlockTail, IsBlock;
    if tick < ticks {
      if k :| 0 < k <= |events| && IsBlock(events[..k], tick, first, actors)
              && IsTape(events[k..], tick + 1, ticks, first + k, actors) {
        assert BlockTail(events[..k], tick, false, false, first, actors);
      }
      if k :| 0 < k <= |events| && BlockTail(events[..k], tick, false, false, first, actors)
              && IsTape(events[k..], tick + 1, ticks, first + k, actors) {
        assert IsBlock(events[..k], tick, first, actors);
      }
    }
  }

  /** Whether the first event may come now, and which values have been seen after it. */
  predicate Continues(e: Entry, tick: int, f: bool, p: bool, first: int, actors: set<string>) {
    && e.sequence == first && e.tick == tick
    && match e
       case Fundamental(_, _, _) => !f && ValuesFit(e)
       case Public(_, _, _) => !p && ValuesFit(e)
       case Sampled(_, _) => false
       case _ => f && p && IsAction(e, actors)
  }

  lemma RestSteps(events: seq<Entry>, tick: int, f: bool, p: bool, first: int, ticks: int, actors: set<string>)
    requires events != [] && tick < ticks && !events[0].Sampled?
    ensures Rest(events, tick, f, p, first, ticks, actors) <==>
      && Continues(events[0], tick, f, p, first, actors)
      && Rest(events[1..], tick, f || events[0].Fundamental?, p || events[0].Public?, first + 1, ticks, actors)
  {
    var e, rest := events[0], events[1..];
    forall k | 0 < k <= |events|
      ensures BlockTail(events[..k], tick, f, p, first, actors) <==>
        && Continues(e, tick, f, p, first, actors) && k > 1
        && BlockTail(rest[..k - 1], tick, f || e.Fundamental?, p || e.Public?, first + 1, actors)
      ensures k > 0 ==> events[k..] == rest[k - 1..]
    {
      assert events[..k][1..] == rest[..k - 1];
    }
    hide BlockTail, IsTape, Continues;
    if k :| 0 < k <= |events| && BlockTail(events[..k], tick, f, p, first, actors)
            && IsTape(events[k..], tick + 1, ticks, first + k, actors) {
      assert 0 < k - 1 <= |rest| && IsTape(rest[k - 1..], tick + 1, ticks, (first + 1) + (k - 1), actors);
    }
    var f2, p2 := f || e.Fundamental?, p || e.Public?;
    if k :| 0 < k <= |rest| && BlockTail(rest[..k], tick, f2, p2, first + 1, actors)
            && IsTape(rest[k..], tick + 1, ticks, first + 1 + k, actors) {
      assert BlockTail(events[..k + 1], tick, f, p, first, actors) <==> Continues(e, tick, f, p, first, actors);
      assert events[k + 1..] == rest[k..] && first + (k + 1) == first + 1 + k;
      assert IsTape(events[k + 1..], tick + 1, ticks, first + (k + 1), actors);
    }
  }

  lemma RestEnds(events: seq<Entry>, tick: int, f: bool, p: bool, first: int, ticks: int, actors: set<string>)
    requires events != [] && tick < ticks && events[0].Sampled?
    ensures Rest(events, tick, f, p, first, ticks, actors) <==>
      && events[0].sequence == first && events[0].tick == tick && f && p
      && IsTape(events[1..], tick + 1, ticks, first + 1, actors)
  {
    forall k | 0 < k <= |events|
      ensures BlockTail(events[..k], tick, f, p, first, actors) <==>
        k == 1 && events[0].sequence == first && events[0].tick == tick && f && p
    {
    }
    hide BlockTail, IsTape;
  }

  lemma {:induction false} ParserFollows(s: Scan, events: seq<Entry>, tick: int, f: bool, p: bool, first: int,
                                         ticks: int, actors: set<string>)
    requires Fits(s, tick, f, p) && 0 <= tick <= ticks && (tick == ticks ==> !f && !p)
    ensures Checks(s, events, first, ticks, actors).Success? <==> Rest(events, tick, f, p, first, ticks, actors)
    decreases |events|
  {
    hide IsTape, BlockTail;
    if events == [] {
    } else if tick == ticks {
      assert Check(s, events[0], first, ticks, actors).Failure?;
    } else {
      var e, rest := events[0], events[1..];
      var r := Check(s, e, first, ticks, actors);
      hide Rest;
      if e.Sampled? {
        RestEnds(events, tick, f, p, first, ticks, actors);
        RestIsTape(rest, tick + 1, first + 1, ticks, actors);
        if r.Success? { ParserFollows(r.value, rest, tick + 1, false, false, first + 1, ticks, actors); }
      } else {
        RestSteps(events, tick, f, p, first, ticks, actors);
        if r.Success? { ParserFollows(r.value, rest, tick, f || e.Fundamental?, p || e.Public?, first + 1, ticks,
                                      actors); }
      }
    }
  }

  /** The parser accepts exactly the tapes. */
  lemma ParserIsGrammar(events: seq<Entry>, ticks: nat, actors: set<string>)
    requires ticks >= 1
    ensures Checks(START, events, 0, ticks, actors).Success? <==> IsTape(events, 0, ticks, 0, actors)
  {
    hide Checks, IsTape, Rest;
    ParserFollows(START, events, 0, false, false, 0, ticks, actors);
    RestIsTape(events, 0, 0, ticks, actors);
  }
}
