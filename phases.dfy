/** The animators of the view as a transition table. The main loop
    Rise1 -> RiseFast -> Rise2 -> Sink -> Rise1 repeats for ever; when RiseFast
    ends it also starts the eye chain Blink2 -> TurnRight -> Blink1 -> TurnLeft,
    which then stops. The ray spin is a separate animator that repeats for ever
    and never hands over, so it is not a phase here. */
module Phases {

  datatype Phase = Rise1 | RiseFast | Rise2 | Sink | Blink2 | TurnRight | Blink1 | TurnLeft

  predicate InMainLoop(p: Phase) {
    p.Rise1? || p.RiseFast? || p.Rise2? || p.Sink?
  }

  predicate InEyeChain(p: Phase) {
    !InMainLoop(p)
  }

  /** The animators an animator's end listeners start. */
  function Successors(p: Phase): (r: set<Phase>)
    ensures p !in r
    ensures r == {} <==> p == TurnLeft
    ensures InEyeChain(p) ==> forall q :: q in r ==> InEyeChain(q)
    ensures forall q, q' :: q in r && q' in r && q != q' ==> p == RiseFast
  {
    match p
    case Rise1 => {RiseFast}
    case RiseFast => {Blink2, Rise2}
    case Rise2 => {Sink}
    case Sink => {Rise1}
    case Blink2 => {TurnRight}
    case TurnRight => {Blink1}
    case Blink1 => {TurnLeft}
    case TurnLeft => {}
  }

  /** The one main-loop phase that follows a main-loop phase. */
  function LoopSuccessor(p: Phase): (q: Phase)
    requires InMainLoop(p)
    ensures InMainLoop(q) && q in Successors(p)
    ensures forall r :: r in Successors(p) && InMainLoop(r) ==> r == q
    ensures forall r :: r in Successors(p) && r != q ==> p == RiseFast && r == Blink2
  {
    match p
    case Rise1 => RiseFast
    case RiseFast => Rise2
    case Rise2 => Sink
    case Sink => Rise1
  }

  /** The main loop has period four and visits each of its phases once. */
  lemma MainLoopPeriod(p: Phase)
    requires InMainLoop(p)
    ensures LoopSuccessor(LoopSuccessor(LoopSuccessor(LoopSuccessor(p)))) == p
    ensures {p, LoopSuccessor(p), LoopSuccessor(LoopSuccessor(p)),
             LoopSuccessor(LoopSuccessor(LoopSuccessor(p)))} == {Rise1, RiseFast, Rise2, Sink}
  {
  }

  /** Distance of an eye-chain phase from the end of the chain. */
  function EyeRank(p: Phase): nat {
    match p
    case Blink2 => 3
    case TurnRight => 2
    case Blink1 => 1
    case _ => 0
  }

  /** The rest of the eye chain from p on, following the end listeners until one starts nothing. */
  function EyeChainFrom(p: Phase): (c: seq<Phase>)
    requires InEyeChain(p)
    decreases EyeRank(p)
    ensures |c| == EyeRank(p) + 1 && c[0] == p
    ensures forall i :: 0 <= i < |c| ==> InEyeChain(c[i])
    ensures forall i :: 1 <= i < |c| ==> Successors(c[i - 1]) == {c[i]}
    ensures Successors(c[|c| - 1]) == {}
  {
    match p
    case TurnLeft => [p]
    case Blink1 => [p] + EyeChainFrom(TurnLeft)
    case TurnRight => [p] + EyeChainFrom(Blink1)
    case Blink2 => [p] + EyeChainFrom(TurnRight)
  }

  /** The chain RiseFast starts is Blink2, TurnRight, Blink1, TurnLeft, and nothing follows TurnLeft. */
  lemma EyeChainOrder()
    ensures EyeChainFrom(Blink2) == [Blink2, TurnRight, Blink1, TurnLeft]
    ensures Successors(TurnLeft) == {}
  {
  }

  /** Start delay of each animator, in milliseconds. */
  function StartDelayMillis(p: Phase): nat {
    match p
    case Blink2 => 400
    case TurnRight => 200
    case Blink1 => 600
    case TurnLeft => 800
    case _ => 0
  }

  /** Duration of each animator, in milliseconds. */
  function DurationMillis(p: Phase): nat {
    match p
    case Rise1 => 2500
    case RiseFast => 200
    case Rise2 => 3000
    case Sink => 200
    case Blink2 => 500
    case TurnRight => 150
    case Blink1 => 100
    case TurnLeft => 150
  }

  /** Time from starting the first of a run of chained animators to the end of the last. */
  function SpanMillis(run: seq<Phase>): nat {
    if run == [] then 0 else StartDelayMillis(run[0]) + DurationMillis(run[0]) + SpanMillis(run[1..])
  }

  /** The eye chain started at one RiseFast end is over before the next RiseFast
      ends, so two eye chains never run at once. */
  lemma EyeChainEndsWithinLoop()
    ensures SpanMillis(EyeChainFrom(Blink2)) == 2900
    ensures SpanMillis(EyeChainFrom(Blink2)) < SpanMillis([Rise2, Sink, Rise1, RiseFast])
  {
    EyeChainOrder();
  }
}
