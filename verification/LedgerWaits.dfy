/** The in-memory ledger under overlapping calls: each call waits once, between what it reads and what it writes. */
module LedgerWaits {
  import opened Prelude
  import opened Ledgers

  datatype Call =
    | ConsumeCall(jti: string, limit: Option<int>, request: Option<string>)
    | ReleaseCall(jti: string, request: Option<string>)

  /** What the first half of a call, up to its wait, has seen: its request already, or a count. */
  datatype Look = SeenBefore(count: nat) | CountSeen(current: nat)

  function LookUp(l: Ledger, call: Call): Look {
    if call.ConsumeCall? && Replays(l, call.jti, call.request) then SeenBefore(Count(l, call.jti))
    else CountSeen(Count(l, call.jti))
  }

  /** The second half, resumed on what the ledger is by then. */
  function Resume(l: Ledger, look: Look, call: Call): (Ledger, Option<Consumed>) {
    match call
    case ConsumeCall(jti, limit, request) =>
      (match look
       case SeenBefore(count) => (l, Some(Consumed(true, count, true)))
       case CountSeen(current) =>
         if limit.Some? && current >= limit.value then (l, Some(Consumed(false, current, false)))
         else
           var seen := if Tracked(request) then l.requests[jti := RequestsOf(l, jti) + {request.value}] else l.requests;
           (Ledger(l.counts[jti := current + 1], seen), Some(Consumed(true, current + 1, false))))
    case ReleaseCall(jti, request) =>
      var current := match look case SeenBefore(count) => count case CountSeen(count) => count;
      (Ledger(
         if current > 0 then l.counts[jti := current - 1] else l.counts,
         if Tracked(request) && jti in l.requests then l.requests[jti := l.requests[jti] - {request.value}] else l.requests),
       None)
  }

  /** The call as one undisturbed step. */
  function AtOnce(l: Ledger, call: Call): (Ledger, Option<Consumed>) {
    match call
    case ConsumeCall(jti, limit, request) => var (l', r) := Reserve(l, jti, limit, request); (l', Some(r))
    case ReleaseCall(jti, request) => (Unreserve(l, jti, request), None)
  }

  // ------------------------------------------------------------------ schedules

  /** What the event loop does next: a call starts and waits, a waiting call finishes, or a reset, which does not wait. */
  datatype Turn = Start(id: nat, call: Call) | Finish(id: nat) | Drop(jti: string)

  datatype Waiting = Waiting(call: Call, look: Look)

  datatype Answer = Answer(id: nat, result: Option<Consumed>)

  datatype Loop = Loop(ledger: Ledger, waiting: map<nat, Waiting>, answers: seq<Answer>)

  function Begin(l: Ledger): Loop {
    Loop(l, map[], [])
  }

  function Take(s: Loop, turn: Turn): Loop {
    match turn
    case Start(id, call) => s.(waiting := s.waiting[id := Waiting(call, LookUp(s.ledger, call))])
    case Finish(id) =>
      if id !in s.waiting then s
      else
        var (ledger, result) := Resume(s.ledger, s.waiting[id].look, s.waiting[id].call);
        Loop(ledger, s.waiting - {id}, s.answers + [Answer(id, result)])
    case Drop(jti) => s.(ledger := Forget(s.ledger, jti))
  }

  /** The same turn where every call acts at once when it finishes. */
  function TakeAtOnce(s: Loop, turn: Turn): Loop {
    match turn
    case Finish(id) =>
      if id !in s.waiting then s
      else
        var (ledger, result) := AtOnce(s.ledger, s.waiting[id].call);
        Loop(ledger, s.waiting - {id}, s.answers + [Answer(id, result)])
    case _ => Take(s, turn)
  }

  function Run(s: Loop, turns: seq<Turn>): Loop
    decreases |turns|
  {
    if turns == [] then s else Run(Take(s, turns[0]), turns[1..])
  }

  function RunAtOnce(s: Loop, turns: seq<Turn>): Loop
    decreases |turns|
  {
    if turns == [] then s else RunAtOnce(TakeAtOnce(s, turns[0]), turns[1..])
  }

  /** No call on the token is waiting. */
  predicate Idle(waiting: map<nat, Waiting>, jti: string) {
    forall id :: id in waiting ==> waiting[id].call.jti != jti
  }

  /** The calls each token has waiting, as a caller can keep track of them without looking into the ledger. */
  function WaitingAfter(waiting: map<nat, string>, turn: Turn): map<nat, string> {
    match turn
    case Start(id, call) => waiting[id := call.jti]
    case Finish(id) => waiting - {id}
    case Drop(_) => waiting
  }

  /** In the whole schedule no call starts, and no reset runs, while another call of the same token waits. */
  predicate NeverOverlap(waiting: map<nat, string>, turns: seq<Turn>)
    decreases |turns|
  {
    turns == [] ||
    (&& (match turns[0]
         case Start(id, call) => id !in waiting && forall other :: other in waiting ==> waiting[other] != call.jti
         case Finish(_) => true
         case Drop(jti) => forall other :: other in waiting ==> waiting[other] != jti)
     && NeverOverlap(WaitingAfter(waiting, turns[0]), turns[1..]))
  }

  function Tokens(s: Loop): map<nat, string> {
    map id | id in s.waiting :: s.waiting[id].call.jti
  }

  /** What every waiting call has seen still holds, and no two of them are on one token. */
  predicate Current(s: Loop) {
    && (forall id :: id in s.waiting ==> s.waiting[id].look == LookUp(s.ledger, s.waiting[id].call))
    && (forall a, b :: a in s.waiting && b in s.waiting && s.waiting[a].call.jti == s.waiting[b].call.jti ==> a == b)
  }

  lemma ResumedIsAtOnce(l: Ledger, call: Call)
    ensures Resume(l, LookUp(l, call), call) == AtOnce(l, call)
  {
  }

  lemma OthersSeeTheSame(l: Ledger, call: Call, other: Call)
    requires call.jti != other.jti
    ensures LookUp(AtOnce(l, call).0, other) == LookUp(l, other)
  {
  }

  lemma FinishStaysCurrent(s: Loop, id: nat)
    requires Current(s) && id in s.waiting
    ensures Take(s, Finish(id)) == TakeAtOnce(s, Finish(id)) && Current(Take(s, Finish(id)))
  {
    var call := s.waiting[id].call;
    ResumedIsAtOnce(s.ledger, call);
    forall other | other in s.waiting && other != id
      ensures LookUp(AtOnce(s.ledger, call).0, s.waiting[other].call) == s.waiting[other].look
    {
      OthersSeeTheSame(s.ledger, call, s.waiting[other].call);
    }
  }

  lemma StartStaysCurrent(s: Loop, id: nat, call: Call)
    requires Current(s) && id !in s.waiting && Idle(s.waiting, call.jti)
    ensures Current(Take(s, Start(id, call)))
  {
  }

  lemma DropStaysCurrent(s: Loop, jti: string)
    requires Current(s) && Idle(s.waiting, jti)
    ensures Current(Take(s, Drop(jti)))
  {
    forall id | id in s.waiting ensures LookUp(Forget(s.ledger, jti), s.waiting[id].call) == s.waiting[id].look {
      assert s.waiting[id].call.jti != jti;
    }
  }

  lemma TokensFollow(s: Loop, turn: Turn)
    ensures Tokens(Take(s, turn)) == WaitingAfter(Tokens(s), turn)
  {
  }

  lemma NoneWaitingIsIdle(s: Loop, jti: string)
    requires forall other :: other in Tokens(s) ==> Tokens(s)[other] != jti
    ensures Idle(s.waiting, jti)
  {
    forall id | id in s.waiting ensures s.waiting[id].call.jti != jti {
      assert Tokens(s)[id] == s.waiting[id].call.jti;
    }
  }

  lemma TurnStaysCurrent(s: Loop, turns: seq<Turn>)
    requires Current(s) && turns != [] && NeverOverlap(Tokens(s), turns)
    ensures Take(s, turns[0]) == TakeAtOnce(s, turns[0]) && Current(Take(s, turns[0]))
  {
    match turns[0]
    case Finish(id) => if id in s.waiting { FinishStaysCurrent(s, id); }
    case Start(id, call) =>
      NoneWaitingIsIdle(s, call.jti);
      StartStaysCurrent(s, id, call);
    case Drop(jti) =>
      NoneWaitingIsIdle(s, jti);
      DropStaysCurrent(s, jti);
  }

  /** Every schedule in which no two calls of one token overlap gives the answers and the ledger of the atomic run. */
  lemma {:induction false} SeparateCallsAreAtomic(s: Loop, turns: seq<Turn>)
    requires Current(s) && NeverOverlap(Tokens(s), turns)
    ensures Run(s, turns) == RunAtOnce(s, turns)
    decreases |turns|
  {
    if turns != [] {
      TurnStaysCurrent(s, turns);
      TokensFollow(s, turns[0]);
      SeparateCallsAreAtomic(Take(s, turns[0]), turns[1..]);
    }
  }

  /** From a ledger with nothing waiting, in terms of the schedule alone. */
  lemma SeparateSchedulesAreAtomic(l: Ledger, turns: seq<Turn>)
    requires NeverOverlap(map[], turns)
    ensures Run(Begin(l), turns) == RunAtOnce(Begin(l), turns)
  {
    assert Tokens(Begin(l)) == map[];
    SeparateCallsAreAtomic(Begin(l), turns);
  }

  // -------------------------------------------------------------------- overlap

  /** Two overlapping calls: both look, `b` finishes, and `a` finishes on what it saw before. */
  function Around(l: Ledger, a: Call, b: Call): (Ledger, Option<Consumed>, Option<Consumed>) {
    var (mid, rb) := Resume(l, LookUp(l, b), b);
    var (end, ra) := Resume(mid, LookUp(l, a), a);
    (end, ra, rb)
  }

  lemma RunFour(s: Loop, t: Turn, u: Turn, v: Turn, w: Turn)
    ensures Run(s, [t, u, v, w]) == Take(Take(Take(Take(s, t), u), v), w)
  {
    assert [t, u, v, w][1..] == [u, v, w] && [u, v, w][1..] == [v, w] && [v, w][1..] == [w];
    calc {
      Run(s, [t, u, v, w]);
      Run(Take(s, t), [u, v, w]);
      Run(Take(Take(s, t), u), [v, w]);
      Run(Take(Take(Take(s, t), u), v), [w]);
      Take(Take(Take(Take(s, t), u), v), w);
    }
  }

  /** Whichever of the two starts first. */
  lemma OverlapsAreAround(l: Ledger, a: Call, b: Call)
    ensures var (end, ra, rb) := Around(l, a, b);
            && Run(Begin(l), [Start(0, a), Start(1, b), Finish(1), Finish(0)]) == Loop(end, map[], [Answer(1, rb), Answer(0, ra)])
            && Run(Begin(l), [Start(1, b), Start(0, a), Finish(1), Finish(0)]) == Loop(end, map[], [Answer(1, rb), Answer(0, ra)])
  {
    var both := map[0 := Waiting(a, LookUp(l, a)), 1 := Waiting(b, LookUp(l, b))];
    assert both - {1} - {0} == map[];
    RunFour(Begin(l), Start(0, a), Start(1, b), Finish(1), Finish(0));
    RunFour(Begin(l), Start(1, b), Start(0, a), Finish(1), Finish(0));
  }

  /** One after the other, `b` first. */
  function InTurn(l: Ledger, a: Call, b: Call): (Ledger, Option<Consumed>, Option<Consumed>) {
    var (mid, rb) := AtOnce(l, b);
    var (end, ra) := AtOnce(mid, a);
    (end, ra, rb)
  }

  /** One after the other, `a` first. */
  function OtherTurn(l: Ledger, a: Call, b: Call): (Ledger, Option<Consumed>, Option<Consumed>) {
    var (mid, ra) := AtOnce(l, a);
    var (end, rb) := AtOnce(mid, b);
    (end, ra, rb)
  }

  /** Ledger and answers are those of the two calls made one after the other, in one order or the other. */
  predicate Serial(l: Ledger, a: Call, b: Call) {
    Around(l, a, b) == InTurn(l, a, b) || Around(l, a, b) == OtherTurn(l, a, b)
  }

  predicate Granted(r: Option<Consumed>) {
    r.Some? && r.value.allowed && !r.value.replay
  }

  /** How a call moves the count it finds: a fresh grant up, a release of a positive count down, anything else not at all. */
  function Moves(l: Ledger, call: Call): int {
    Count(AtOnce(l, call).0, call.jti) - Count(l, call.jti)
  }

  /** Calls of different tokens do not meet. */
  lemma OtherTokensAreSerial(l: Ledger, a: Call, b: Call)
    requires a.jti != b.jti
    ensures Around(l, a, b) == InTurn(l, a, b)
  {
    ResumedIsAtOnce(l, b);
    OthersSeeTheSame(l, b, a);
    ResumedIsAtOnce(AtOnce(l, b).0, a);
  }

  /** A consume that finishes last does harm exactly when it would be granted and the other call moves the count. */
  lemma OverlappedConsumeIsSerialExactly(l: Ledger, a: Call, b: Call)
    requires a.jti == b.jti && a.ConsumeCall?
    ensures Serial(l, a, b) <==> !Granted(AtOnce(l, a).1) || Moves(l, b) == 0
  {
    ResumedIsAtOnce(l, b);
    var (end, ra, rb) := Around(l, a, b);
    var (later, _, _) := InTurn(l, a, b);
    var (earlier, _, _) := OtherTurn(l, a, b);
    if !Granted(AtOnce(l, a).1) {
      assert end == AtOnce(l, b).0 == earlier;
    } else if Moves(l, b) == 0 {
      ResumedIsAtOnce(AtOnce(l, b).0, a);
    } else if b.ReleaseCall? {
      assert Count(end, a.jti) == Count(l, a.jti) + 1;
      assert Count(later, a.jti) == Count(l, a.jti) == Count(earlier, a.jti);
    }
  }

  /** A release that finishes last acts as the later of the two exactly when the count it saw does as well as the one left. */
  lemma OverlappedReleaseIsLaterExactly(l: Ledger, a: Call, b: Call)
    requires a.jti == b.jti && a.ReleaseCall?
    ensures Around(l, a, b) == InTurn(l, a, b) <==> Moves(l, b) == 0 || (Moves(l, b) == -1 && Count(l, a.jti) == 1)
  {
    ResumedIsAtOnce(l, b);
    var end, later := Around(l, a, b).0, InTurn(l, a, b).0;
    if Moves(l, b) == 0 || (Moves(l, b) == -1 && Count(l, a.jti) == 1) {
      assert end.counts == later.counts && end.requests == later.requests;
    } else {
      assert Count(end, a.jti) != Count(later, a.jti);
    }
  }

  /** Around a granted consume it acts as the earlier one exactly when there was no count to give back, nor that request. */
  lemma OverlappedReleaseIsEarlierExactly(l: Ledger, a: Call, b: Call)
    requires a.jti == b.jti && a.ReleaseCall? && Granted(AtOnce(l, b).1)
    ensures Around(l, a, b) == OtherTurn(l, a, b) <==>
            Count(l, a.jti) == 0 && !(Tracked(a.request) && a.request == b.request)
  {
    ResumedIsAtOnce(l, b);
    var end, earlier := Around(l, a, b).0, OtherTurn(l, a, b).0;
    if Count(l, a.jti) == 0 {
      assert end.counts == earlier.counts;
      if Tracked(a.request) && a.request == b.request {
        assert a.request.value !in RequestsOf(end, a.jti) && a.request.value in RequestsOf(earlier, a.jti);
      } else {
        assert RequestsOf(end, a.jti) == RequestsOf(earlier, a.jti);
        assert end.requests == earlier.requests;
      }
    }
  }

  /**
   * So a release that finishes last does harm exactly around a granted consume, when there was a count to give back or it
   * frees that very request, and around a release that gives back one count of several.
   */
  lemma OverlappedReleaseIsSerialExactly(l: Ledger, a: Call, b: Call)
    requires a.jti == b.jti && a.ReleaseCall?
    ensures Serial(l, a, b) <==>
            if Granted(AtOnce(l, b).1) then Count(l, a.jti) == 0 && !(Tracked(a.request) && a.request == b.request)
            else b.ConsumeCall? || Count(l, a.jti) <= 1
  {
    ResumedIsAtOnce(l, b);
    OverlappedReleaseIsLaterExactly(l, a, b);
    if Granted(AtOnce(l, b).1) { OverlappedReleaseIsEarlierExactly(l, a, b); }
  }

  /** Two overlapping consumes one below the limit are both granted, and the ledger counts only one of them. */
  lemma OverlappingConsumesOverdraw(l: Ledger, jti: string, a: Option<string>, b: Option<string>)
    requires !Replays(l, jti, a) && !Replays(l, jti, b)
    ensures var limit := Some(Count(l, jti) + 1);
            var (end, first, second) := Around(l, ConsumeCall(jti, limit, a), ConsumeCall(jti, limit, b));
            Granted(first) && Granted(second) && Count(end, jti) == limit.value
  {
    ResumedIsAtOnce(l, ConsumeCall(jti, Some(Count(l, jti) + 1), b));
  }

  /** A consume granted while a release waits is lost from the count: one action more than counted may follow. */
  lemma ReleaseAroundConsumeLosesIt(l: Ledger, jti: string, limit: Option<int>, request: Option<string>, released: Option<string>)
    requires Count(l, jti) > 0 && Granted(AtOnce(l, ConsumeCall(jti, limit, request)).1)
    ensures var (end, _, granted) := Around(l, ReleaseCall(jti, released), ConsumeCall(jti, limit, request));
            Granted(granted) && Count(end, jti) == Count(l, jti) - 1
  {
    ResumedIsAtOnce(l, ConsumeCall(jti, limit, request));
  }
}
