/** Log producers that share a run flag (assets/dora/logging_service.rb and
    assets/loggregator-load-generator-go/loggregator-load-generator.go): any number of
    loops interleave, one atomic action at a time, with stops. */
module LogProducers {

  /** Which loop a producer runs: dora's numbered one with its limit (no limit when it is
      not positive), or the load generator's sleeping and non-sleeping ones. */
  datatype Kind = Dora(limit: int) | GoSpeed | GoBytesize

  /** What a producer does next. */
  datatype Pc = SetRun | SetNumber | Check | Sleep | Print | LimitTest | Increment | ClearRun | Done

  datatype Producer = Producer(kind: Kind, pc: Pc, printed: nat)

  /** `log` holds, for every line, who printed it and under which number. */
  datatype System = System(run: bool, number: int, producers: seq<Producer>, log: seq<(nat, int)>)

  datatype Act = Stop | Spawn(kind: Kind) | Move(producer: nat)

  function NextPc(s: System, p: Producer): Pc {
    match p.pc
    case SetRun => if p.kind.Dora? then SetNumber else Check
    case SetNumber => Check
    case Check =>
      if s.run then (if p.kind.GoBytesize? then Print else Sleep)
      else if p.kind.Dora? then ClearRun else Done
    case Sleep => Print
    case Print => if p.kind.Dora? then LimitTest else Check
    case LimitTest => if p.kind.Dora? && p.kind.limit > 0 && s.number >= p.kind.limit then ClearRun else Increment
    case Increment => Check
    case ClearRun => Done
    case Done => Done
  }

  function Next(s: System, a: Act): System {
    match a
    case Stop => s.(run := false)
    case Spawn(kind) => s.(producers := s.producers + [Producer(kind, SetRun, 0)])
    case Move(i) =>
      if i >= |s.producers| then s
      else
        var p := s.producers[i];
        var moved := p.(pc := NextPc(s, p), printed := if p.pc.Print? then p.printed + 1 else p.printed);
        System(if p.pc.SetRun? then true else if p.pc.ClearRun? then false else s.run,
               if p.pc.SetNumber? then 1 else if p.pc.Increment? then s.number + 1 else s.number,
               s.producers[i := moved],
               if p.pc.Print? then s.log + [(i, s.number)] else s.log)
  }

  function Run(s: System, acts: seq<Act>): System {
    if acts == [] then s else Next(Run(s, acts[..|acts| - 1]), acts[|acts| - 1])
  }

  /** The producer a move names exists and has not finished. */
  predicate Enabled(s: System, a: Act) {
    a.Move? ==> a.producer < |s.producers| && s.producers[a.producer].pc != Done
  }

  predicate SetsRun(s: System, a: Act) {
    a.Move? && a.producer < |s.producers| && s.producers[a.producer].pc == SetRun
  }

  /** A schedule of enabled acts in which nobody sets the run flag. */
  ghost predicate NoRestart(s: System, acts: seq<Act>) {
    forall i :: 0 <= i < |acts| ==> Enabled(Run(s, acts[..i]), acts[i]) && !SetsRun(Run(s, acts[..i]), acts[i])
  }

  function Moves(acts: seq<Act>): nat {
    if acts == [] then 0 else Moves(acts[..|acts| - 1]) + if acts[|acts| - 1].Move? then 1 else 0
  }

  // ----- after a stop -----

  /** How many actions a producer has left while the flag is down and nobody raises it. */
  function ActionsLeft(p: Producer): nat {
    match p.pc
    case SetRun => 0
    case SetNumber => 3
    case Check => 2
    case Sleep => 6
    case Print => 5
    case LimitTest => 4
    case Increment => 3
    case ClearRun => 1
    case Done => 0
  }

  function LinesLeft(p: Producer): nat {
    if p.pc.Sleep? || p.pc.Print? then 1 else 0
  }

  function TotalLeft(ps: seq<Producer>): nat {
    if ps == [] then 0 else TotalLeft(ps[..|ps| - 1]) + ActionsLeft(ps[|ps| - 1])
  }

  lemma {:induction false} TotalAfterUpdate(ps: seq<Producer>, i: nat, p: Producer)
    requires i < |ps|
    ensures TotalLeft(ps[i := p]) == TotalLeft(ps) - ActionsLeft(ps[i]) + ActionsLeft(p)
    decreases |ps|
  {
    var init := ps[..|ps| - 1];
    if i < |ps| - 1 {
      assert ps[i := p][..|ps| - 1] == init[i := p];
      TotalAfterUpdate(init, i, p);
    } else {
      assert ps[i := p][..|ps| - 1] == init;
    }
  }

  lemma StoppedStep(s: System, a: Act)
    requires !s.run && Enabled(s, a) && !SetsRun(s, a)
    ensures !Next(s, a).run && |s.producers| <= |Next(s, a).producers|
    ensures TotalLeft(Next(s, a).producers) + (if a.Move? then 1 else 0) <= TotalLeft(s.producers)
    ensures forall p :: 0 <= p < |s.producers| ==>
      Next(s, a).producers[p].printed + LinesLeft(Next(s, a).producers[p]) <= s.producers[p].printed + LinesLeft(s.producers[p])
    ensures forall p :: |s.producers| <= p < |Next(s, a).producers| ==>
      Next(s, a).producers[p].printed + LinesLeft(Next(s, a).producers[p]) == 0
  {
    match a {
      case Stop =>
      case Spawn(kind) =>
        assert (s.producers + [Producer(kind, SetRun, 0)])[..|s.producers|] == s.producers;
      case Move(i) =>
        TotalAfterUpdate(s.producers, i, Next(s, a).producers[i]);
    }
  }

  /** Once the flag is down and nobody raises it again, however the producers interleave
      and however many there are: each of them prints at most one more line, later ones
      print none, and the producers make at most TotalLeft more moves altogether. */
  lemma {:induction false} StopIsFinal(s: System, acts: seq<Act>)
    requires !s.run && NoRestart(s, acts)
    ensures !Run(s, acts).run && |s.producers| <= |Run(s, acts).producers|
    ensures Moves(acts) + TotalLeft(Run(s, acts).producers) <= TotalLeft(s.producers)
    ensures forall p :: 0 <= p < |s.producers| ==>
      Run(s, acts).producers[p].printed + LinesLeft(Run(s, acts).producers[p]) <= s.producers[p].printed + LinesLeft(s.producers[p])
    ensures forall p :: |s.producers| <= p < |Run(s, acts).producers| ==>
      Run(s, acts).producers[p].printed + LinesLeft(Run(s, acts).producers[p]) == 0
    decreases |acts|
  {
    if acts != [] {
      var init, last := acts[..|acts| - 1], acts[|acts| - 1];
      assert forall i :: 0 <= i < |init| ==> init[..i] == acts[..i];
      StopIsFinal(s, init);
      StoppedStep(Run(s, init), last);
    }
  }

  lemma AtMostOneMoreLine(s: System, acts: seq<Act>, p: nat)
    requires NoRestart(Next(s, Stop), acts) && p < |s.producers|
    ensures p < |Run(Next(s, Stop), acts).producers|
    ensures Run(Next(s, Stop), acts).producers[p].printed <= s.producers[p].printed + 1
    ensures Moves(acts) <= TotalLeft(s.producers)
  {
    StopIsFinal(Next(s, Stop), acts);
  }

  lemma RunOneMore(s: System, acts: seq<Act>, a: Act)
    ensures Run(s, acts + [a]) == Next(Run(s, acts), a)
  {
  }

  lemma {:induction false} RunSplit(s: System, a: seq<Act>, b: seq<Act>)
    ensures Run(s, a + b) == Run(Run(s, a), b)
    decreases |b|
  {
    if b == [] {
      assert a + b == a;
    } else {
      assert (a + b)[..|a + b| - 1] == a + b[..|b| - 1];
      RunSplit(s, a, b[..|b| - 1]);
    }
  }

  // ----- a stop, as one producer sees it -----

  /** The act is producer `p` testing the flag. */
  predicate Looks(s: System, a: Act, p: nat) {
    a == Move(p) && p < |s.producers| && s.producers[p].pc == Check
  }

  /** `p` tests the flag at some point of the schedule. */
  predicate Looked(s: System, acts: seq<Act>, p: nat) {
    acts != [] && (Looked(s, acts[..|acts| - 1], p) || Looks(Run(s, acts[..|acts| - 1]), acts[|acts| - 1], p))
  }

  /** If `p` tests the flag during the schedule, it finds it down the first time. */
  predicate FirstLookIsDown(s: System, acts: seq<Act>, p: nat) {
    acts == [] ||
    (var init, last := acts[..|acts| - 1], acts[|acts| - 1];
     FirstLookIsDown(s, init, p) && (Looks(Run(s, init), last, p) && !Looked(s, init, p) ==> !Run(s, init).run))
  }

  function PrintedBy(s: System, p: nat): nat {
    if p < |s.producers| then s.producers[p].printed else 0
  }

  /** The lines `p` has printed, with the one it is bound to print before it looks again. */
  function Committed(s: System, p: nat): nat
    requires p < |s.producers|
  {
    s.producers[p].printed + LinesLeft(s.producers[p])
  }

  lemma LookStep(s: System, a: Act, p: nat)
    requires p < |s.producers| && (Looks(s, a, p) ==> !s.run)
    ensures p < |Next(s, a).producers| && Committed(Next(s, a), p) == Committed(s, p)
    ensures Looks(s, a, p) || s.producers[p].pc in {ClearRun, Done} ==> Next(s, a).producers[p].pc in {ClearRun, Done}
  {
  }

  /** However others start and stop: a producer whose first look at the flag finds it down
      prints no line but the one it was bound to print, and is finished for good. */
  lemma {:induction false} FirstLookDown(s: System, acts: seq<Act>, p: nat)
    requires p < |s.producers| && FirstLookIsDown(s, acts, p)
    ensures p < |Run(s, acts).producers| && Committed(Run(s, acts), p) == Committed(s, p)
    ensures Looked(s, acts, p) ==> Run(s, acts).producers[p].pc in {ClearRun, Done}
    decreases |acts|
  {
    if acts != [] {
      var init, last := acts[..|acts| - 1], acts[|acts| - 1];
      FirstLookDown(s, init, p);
      LookStep(Run(s, init), last, p);
    }
  }

  /** Moves of `p` alone. */
  function Repeat(p: nat, n: nat): seq<Act> {
    if n == 0 then [] else [Move(p)] + Repeat(p, n - 1)
  }

  function Moved(s: System, p: nat, n: nat): System
    decreases n
  {
    if n == 0 then s else Moved(Next(s, Move(p)), p, n - 1)
  }

  lemma {:induction false} RunRepeat(s: System, p: nat, n: nat)
    ensures Run(s, Repeat(p, n)) == Moved(s, p, n)
    decreases n
  {
    if n > 0 {
      RunOneMore(s, [], Move(p));
      assert [] + [Move(p)] == [Move(p)];
      RunSplit(s, [Move(p)], Repeat(p, n - 1));
      RunRepeat(Next(s, Move(p)), p, n - 1);
    }
  }

  lemma {:induction false} MovedSplit(s: System, p: nat, m: nat, n: nat)
    ensures Moved(s, p, m + n) == Moved(Moved(s, p, m), p, n)
    decreases m
  {
    if m > 0 {
      MovedSplit(Next(s, Move(p)), p, m - 1, n);
    }
  }

  /** The next `n` lines of `p`: dora's go on with the current number, the others' all carry it. */
  function NextLines(s: System, p: nat, n: nat): seq<(nat, int)>
    requires p < |s.producers|
  {
    seq(n, i requires 0 <= i < n => (p, if s.producers[p].kind.Dora? then s.number + i else s.number))
  }

  /** Where a producer of the kind stands right behind a line. */
  function BehindLine(kind: Kind): Pc {
    if kind.Dora? then LimitTest else Check
  }

  /** `t` comes `n` lines of `p` after `s`, with `p` right behind the last of them. */
  ghost predicate LinesLater(s: System, t: System, p: nat, n: nat) {
    && p < |s.producers| && p < |t.producers| && t.run
    && t.producers[p] == s.producers[p].(pc := BehindLine(s.producers[p].kind), printed := s.producers[p].printed + n)
    && t.number == (if s.producers[p].kind.Dora? then s.number + n - 1 else s.number)
    && t.log == s.log + NextLines(s, p, n)
  }

  /** From a test that finds the flag up to the line behind it. */
  lemma LineFollows(s: System, p: nat) returns (moves: nat)
    requires Looks(s, Move(p), p) && s.run
    ensures moves > 0 && LinesLater(s, Moved(s, p, moves), p, 1)
  {
    var a := Next(s, Move(p));
    var b := Next(a, Move(p));
    var c := Next(b, Move(p));
    assert Moved(c, p, 0) == c && Moved(b, p, 0) == b;
    assert Moved(b, p, 1) == c && Moved(a, p, 1) == b;
    assert Moved(a, p, 2) == c;
    moves := if s.producers[p].kind.GoBytesize? then 2 else 3;
    assert NextLines(s, p, 1) == [(p, s.number)];
  }

  /** From dora's limit test, when it lets the loop go on, to the next test of the flag. */
  lemma LoopGoesOn(s: System, p: nat)
    requires p < |s.producers| && s.producers[p].kind.Dora? && s.producers[p].pc == LimitTest
    requires s.producers[p].kind.limit > 0 ==> s.number < s.producers[p].kind.limit
    ensures var t := Moved(s, p, 2);
      t == System(s.run, s.number + 1, s.producers[p := s.producers[p].(pc := Check)], s.log)
  {
    var a := Next(s, Move(p));
    var b := Next(a, Move(p));
    assert Moved(b, p, 0) == b && Moved(a, p, 1) == b;
  }

  /** dora's limit, if there is one, is not reached before `n` lines from the current number
      on; the first of them is printed whatever the number is. */
  predicate Allows(s: System, p: nat, n: nat)
    requires p < |s.producers|
  {
    var kind := s.producers[p].kind;
    kind.Dora? && kind.limit > 0 && n > 1 ==> s.number + n - 1 <= kind.limit
  }

  /** The loop goes on from behind a line: `t` is at the next test of the flag. */
  lemma NextRound(s: System, p: nat) returns (moves: nat)
    requires p < |s.producers| && s.run && s.producers[p].pc == BehindLine(s.producers[p].kind)
    requires s.producers[p].kind.Dora? && s.producers[p].kind.limit > 0 ==> s.number < s.producers[p].kind.limit
    ensures var t := Moved(s, p, moves);
      t == System(true, if s.producers[p].kind.Dora? then s.number + 1 else s.number,
                  s.producers[p := s.producers[p].(pc := Check)], s.log)
  {
    if s.producers[p].kind.Dora? {
      LoopGoesOn(s, p);
      moves := 2;
    } else {
      moves := 0;
    }
  }

  lemma LinesAdd(s: System, t: System, u: System, v: System, p: nat, n: nat)
    requires LinesLater(s, t, p, 1) && LinesLater(u, v, p, n) && n > 0
    requires u == System(true, if t.producers[p].kind.Dora? then t.number + 1 else t.number,
                         t.producers[p := t.producers[p].(pc := Check)], t.log)
    requires s.producers[p].pc == Check
    ensures LinesLater(s, v, p, n + 1)
  {
    assert NextLines(s, p, n + 1) == NextLines(s, p, 1) + NextLines(u, p, n);
  }

  /** One line, and on to the next test of the flag. */
  lemma LineAndRound(s: System, p: nat) returns (moves: nat, t: System)
    requires Looks(s, Move(p), p) && s.run && Allows(s, p, 2)
    ensures LinesLater(s, t, p, 1)
    ensures moves > 0 && Moved(s, p, moves) ==
      System(true, if t.producers[p].kind.Dora? then t.number + 1 else t.number,
             t.producers[p := t.producers[p].(pc := Check)], t.log)
  {
    moves := LineFollows(s, p);
    t := Moved(s, p, moves);
    var round := NextRound(t, p);
    MovedSplit(s, p, moves, round);
    moves := moves + round;
  }

  /** A producer that looks while the flag is up prints, left to itself, as many lines as its
      limit allows: any number if it has none. */
  lemma {:induction false} PrintsOn(s: System, p: nat, n: nat) returns (moves: nat)
    requires Looks(s, Move(p), p) && s.run && 0 < n && Allows(s, p, n)
    ensures moves > 0 && LinesLater(s, Moved(s, p, moves), p, n)
    decreases n
  {
    if n == 1 {
      moves := LineFollows(s, p);
    } else {
      var round, t := LineAndRound(s, p);
      var u := Moved(s, p, round);
      var rest := PrintsOn(u, p, n - 1);
      LinesAdd(s, t, u, Moved(u, p, rest), p, n - 1);
      MovedSplit(s, p, round, rest);
      moves := round + rest;
    }
  }

  /** A new producer raises the flag, dora's also restarts the numbering, before its loop. */
  function InLoop(s: System, p: nat, kind: Kind): System
    requires p < |s.producers|
  {
    System(true, if kind.Dora? then 1 else s.number, s.producers[p := Producer(kind, Check, 0)], s.log)
  }

  lemma ReachesLoop(s: System, p: nat, kind: Kind) returns (moves: nat)
    requires p < |s.producers| && s.producers[p] == Producer(kind, SetRun, 0)
    ensures Moved(s, p, moves) == InLoop(s, p, kind)
  {
    var a := Next(s, Move(p));
    var b := Next(a, Move(p));
    assert Moved(b, p, 0) == b && Moved(a, p, 0) == a && Moved(a, p, 1) == b;
    moves := if kind.Dora? then 2 else 1;
  }

  lemma NewProducerPrints(s: System, p: nat, kind: Kind, n: nat) returns (moves: nat)
    requires p < |s.producers| && s.producers[p] == Producer(kind, SetRun, 0)
    requires 0 < n && (kind.Dora? && kind.limit > 0 ==> n <= kind.limit)
    ensures LinesLater(InLoop(s, p, kind), Run(s, Repeat(p, moves)), p, n)
  {
    var start := ReachesLoop(s, p, kind);
    var rest := PrintsOn(InLoop(s, p, kind), p, n);
    MovedSplit(s, p, start, rest);
    moves := start + rest;
    RunRepeat(s, p, moves);
  }

  lemma RunSpawned(s: System, kind: Kind, acts: seq<Act>)
    ensures Run(s, [Spawn(kind)] + acts) == Run(s.(producers := s.producers + [Producer(kind, SetRun, 0)]), acts)
  {
    RunOneMore(s, [], Spawn(kind));
    assert [] + [Spawn(kind)] == [Spawn(kind)];
    RunSplit(s, [Spawn(kind)], acts);
  }

  /** Starting a producer of any kind, whatever the flag says: left to itself it then prints
      any number of lines, or as many as dora's limit allows, dora's numbered from one; after
      each of them the flag is up and the producer stands in its loop. */
  lemma StartPrints(s: System, kind: Kind, n: nat) returns (moves: nat)
    requires 0 < n && (kind.Dora? && kind.limit > 0 ==> n <= kind.limit)
    ensures
      var p, t := |s.producers|, Run(s, [Spawn(kind)] + Repeat(|s.producers|, moves));
      && p < |t.producers| && t.run && t.producers[p] == Producer(kind, BehindLine(kind), n)
      && t.log == s.log + seq(n, i requires 0 <= i < n => (p, if kind.Dora? then i + 1 else s.number))
  {
    var p := |s.producers|;
    var spawned := s.(producers := s.producers + [Producer(kind, SetRun, 0)]);
    moves := NewProducerPrints(spawned, p, kind, n);
    RunSpawned(s, kind, Repeat(p, moves));
    assert NextLines(InLoop(spawned, p, kind), p, n) == seq(n, i requires 0 <= i < n => (p, if kind.Dora? then i + 1 else s.number));
  }

  lemma LooksUp(s: System, acts: seq<Act>, p: nat) returns (more: seq<Act>)
    requires p < |s.producers| && !Looked(s, acts, p) && Looks(Run(s, acts), Move(p), p) && Run(s, acts).run
    ensures PrintedBy(Run(s, acts + [Move(p)] + more), p) == Committed(s, p) + 1
  {
    NoLookYet(s, acts, p);
    FirstLookDown(s, acts, p);
    var moves := PrintsOn(Run(s, acts), p, 1);
    RunRepeat(Run(s, acts), p, moves);
    more := Repeat(p, moves - 1);
    RunSplit(s, acts, Repeat(p, moves));
    assert acts + Repeat(p, moves) == acts + [Move(p)] + more;
  }

  lemma LooksDown(s: System, acts: seq<Act>, p: nat, more: seq<Act>)
    requires p < |s.producers| && !Looked(s, acts, p) && Looks(Run(s, acts), Move(p), p) && !Run(s, acts).run
    ensures PrintedBy(Run(s, acts + [Move(p)] + more), p) <= Committed(s, p)
  {
    LookedDown(s, acts, p, more);
    FirstLookDown(s, acts + [Move(p)] + more, p);
  }

  /** The first look after a stop decides: the producer is held to the line it was bound to
      print, whatever happens afterwards, exactly when it finds the flag down. */
  lemma FirstLookDecides(s: System, acts: seq<Act>, p: nat)
    requires p < |s.producers| && !Looked(s, acts, p) && Looks(Run(s, acts), Move(p), p)
    ensures (forall more :: PrintedBy(Run(s, acts + [Move(p)] + more), p) <= Committed(s, p)) <==> !Run(s, acts).run
  {
    if Run(s, acts).run {
      var more := LooksUp(s, acts, p);
    } else {
      forall more
        ensures PrintedBy(Run(s, acts + [Move(p)] + more), p) <= Committed(s, p)
      {
        LooksDown(s, acts, p, more);
      }
    }
  }

  lemma {:induction false} LookedDown(s: System, acts: seq<Act>, p: nat, more: seq<Act>)
    requires !Looked(s, acts, p) && Looks(Run(s, acts), Move(p), p) && !Run(s, acts).run
    ensures Looked(s, acts + [Move(p)] + more, p) && FirstLookIsDown(s, acts + [Move(p)] + more, p)
    decreases |more|
  {
    var all := acts + [Move(p)] + more;
    if more == [] {
      assert all[..|all| - 1] == acts;
      NoLookYet(s, acts, p);
    } else {
      assert all[..|all| - 1] == acts + [Move(p)] + more[..|more| - 1];
      LookedDown(s, acts, p, more[..|more| - 1]);
    }
  }

  lemma {:induction false} NoLookYet(s: System, acts: seq<Act>, p: nat)
    requires !Looked(s, acts, p)
    ensures FirstLookIsDown(s, acts, p)
  {
    if acts != [] {
      NoLookYet(s, acts[..|acts| - 1], p);
    }
  }

  // ----- one dora producer under arbitrary stops -----

  ghost predicate NumberedFromOne(log: seq<(nat, int)>) {
    forall i :: 0 <= i < |log| ==> log[i] == (0, i + 1)
  }

  /** What holds before each action of a single producer, n lines having been printed. */
  ghost predicate Alone(s: System, limit: int) {
    && |s.producers| == 1 && s.producers[0].kind == Dora(limit)
    && NumberedFromOne(s.log)
    && var n := |s.log|;
       match s.producers[0].pc
       case SetRun => n == 0
       case SetNumber => n == 0
       case Check => s.number == n + 1 && (limit > 0 ==> n < limit)
       case Sleep => s.number == n + 1 && (limit > 0 ==> n < limit)
       case Print => s.number == n + 1 && (limit > 0 ==> n < limit)
       case LimitTest => s.number == n && (limit > 0 ==> n <= limit)
       case Increment => s.number == n && (limit > 0 ==> n < limit)
       case ClearRun => (s.number == n == limit && limit > 0) || (s.number == n + 1 && (limit > 0 ==> n < limit))
       case Done => !s.run && ((s.number == n == limit && limit > 0) || (s.number == n + 1 && (limit > 0 ==> n < limit)))
  }

  /** Without a stop the flag stays up until the limit is reached. */
  ghost predicate Undisturbed(s: System, limit: int) {
    && Alone(s, limit)
    && (s.producers[0].pc !in {SetRun, ClearRun, Done} ==> s.run)
    && (s.producers[0].pc in {ClearRun, Done} ==> limit > 0 && |s.log| == limit)
  }

  lemma AloneStep(s: System, limit: int, a: Act)
    requires Alone(s, limit) && !a.Spawn?
    ensures Alone(Next(s, a), limit)
    ensures Undisturbed(s, limit) && !a.Stop? ==> Undisturbed(Next(s, a), limit)
  {
  }

  /** Whatever stops arrive between its actions, a producer numbers its lines 1..n without
      gap or repeat, with n at most the limit; without a stop n is the limit; and the count
      reported after it finishes is n exactly when it reached its limit, and n + 1 when it
      was stopped. */
  lemma {:induction false} SingleProducer(s: System, limit: int, acts: seq<Act>)
    requires s.producers == [Producer(Dora(limit), SetRun, 0)] && s.log == []
    requires forall a :: a in acts ==> !a.Spawn?
    ensures var t := Run(s, acts);
      && NumberedFromOne(t.log) && (limit > 0 ==> |t.log| <= limit)
      && |t.producers| == 1
      && (t.producers[0].pc.Done? ==>
            && (t.number == |t.log| || t.number == |t.log| + 1)
            && (t.number == |t.log| <==> limit > 0 && |t.log| == limit)
            && (Stop !in acts ==> limit > 0 && |t.log| == limit))
    ensures Alone(Run(s, acts), limit)
    ensures Stop !in acts ==> Undisturbed(Run(s, acts), limit)
    decreases |acts|
  {
    if acts != [] {
      var init, last := acts[..|acts| - 1], acts[|acts| - 1];
      SingleProducer(s, limit, init);
      assert last in acts;
      AloneStep(Run(s, init), limit, last);
    }
  }

  // ----- the same actions on objects -----

  /** The shared state and the producers, updated in place. */
  class Service {
    var run: bool
    var number: int
    var producers: seq<Producer>
    var log: seq<(nat, int)>

    constructor ()
      ensures State() == System(false, 0, [], [])
    {
      run, number, producers, log := false, 0, [], [];
    }

    function State(): System
      reads this
    {
      System(run, number, producers, log)
    }

    method StopLogs()
      modifies this
      ensures State() == Next(old(State()), Stop)
    {
      run := false;
    }

    method StartProducer(kind: Kind)
      modifies this
      ensures State() == Next(old(State()), Spawn(kind))
    {
      producers := producers + [Producer(kind, SetRun, 0)];
    }

    /** One atomic action of one producer. */
    method Advance(i: nat)
      modifies this
      ensures State() == Next(old(State()), Move(i))
    {
      if i >= |producers| {
        return;
      }
      var p := producers[i];
      match p.pc {
        case SetRun =>
          run := true;
          p := p.(pc := if p.kind.Dora? then SetNumber else Check);
        case SetNumber =>
          number := 1;
          p := p.(pc := Check);
        case Check =>
          if run {
            p := p.(pc := if p.kind.GoBytesize? then Print else Sleep);
          } else {
            p := p.(pc := if p.kind.Dora? then ClearRun else Done);
          }
        case Sleep =>
          p := p.(pc := Print);
        case Print =>
          log := log + [(i, number)];
          p := p.(pc := if p.kind.Dora? then LimitTest else Check, printed := p.printed + 1);
        case LimitTest =>
          p := p.(pc := if p.kind.Dora? && p.kind.limit > 0 && number >= p.kind.limit then ClearRun else Increment);
        case Increment =>
          number := number + 1;
          p := p.(pc := Check);
        case ClearRun =>
          run := false;
          p := p.(pc := Done);
        case Done =>
      }
      producers := producers[i := p];
    }

    /** Runs a whole interleaving. */
    method Schedule(acts: seq<Act>)
      modifies this
      ensures State() == Run(old(State()), acts)
    {
      var k := 0;
      while k < |acts|
        invariant 0 <= k <= |acts|
        invariant State() == Run(old(State()), acts[..k])
      {
        assert acts[..k + 1][..k] == acts[..k];
        match acts[k] {
          case Stop => StopLogs();
          case Spawn(kind) => StartProducer(kind);
          case Move(i) => Advance(i);
        }
        k := k + 1;
      }
      assert acts[..k] == acts;
    }
  }

  /** The numbers 1 to n. */
  function Numbers(n: int): seq<int>
    requires 0 <= n
  {
    seq(n, i => i + 1)
  }

  /** dora's service on its own: `stops[i]` tells whether a stop arrived before the i-th
      test of the flag, and the loop is observed for as many tests as there are entries. */
  class LoggingService {
    var run: bool
    var sequenceNumber: int
    var output: seq<int>

    constructor ()
      ensures !run && sequenceNumber == 0 && output == []
    {
      run, sequenceNumber, output := false, 0, [];
    }

    method StopService()
      modifies this`run
      ensures !run
    {
      run := false;
    }

    method ProduceLogspeedOutput(limit: int, stops: seq<bool>) returns (finished: bool)
      modifies this
      ensures old(output) <= output && output == old(output) + Numbers(|output| - |old(output)|)
      ensures var n := |output| - |old(output)|;
        && n <= |stops| && (limit > 0 ==> n <= limit)
        && (forall i :: 0 <= i < n ==> !stops[i])
        && (finished ==> !run)
        && (finished <==> (n < |stops| && stops[n]) || (limit > 0 && n == limit))
        && sequenceNumber == if finished && limit > 0 && n == limit then n else n + 1
    {
      run := true;
      sequenceNumber := 1;
      finished := false;
      var tests := 0;
      while tests < |stops| && !finished
        invariant 0 <= tests <= |stops| && (!finished ==> run)
        invariant output == old(output) + Numbers(tests)
        invariant forall i :: 0 <= i < tests ==> !stops[i]
        invariant limit > 0 && tests > 0 ==> tests < limit || (finished && tests == limit)
        invariant finished ==> (limit > 0 && tests == limit) || (tests < |stops| && stops[tests])
        invariant sequenceNumber == if finished && limit > 0 && tests == limit then tests else tests + 1
        decreases |stops| - tests, !finished
      {
        if stops[tests] {
          StopService();
        }
        if !run {
          finished := true;
        } else {
          output := output + [sequenceNumber];
          tests := tests + 1;
          if limit > 0 && sequenceNumber >= limit {
            finished := true;
          } else {
            sequenceNumber := sequenceNumber + 1;
          }
        }
      }
      if finished {
        run := false;
      }
    }
  }
}
