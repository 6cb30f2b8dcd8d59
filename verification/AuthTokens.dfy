/**
  Deferred authorization: operations wait for a hardware auth token that carries their challenge,
  while tokens arrive, operations are dropped and the receiver map is swept, in any order.
 */
module AuthTokens {
  import opened Prelude

  datatype Hat = Hat(challenge: int, userId: int, authenticatorId: int, authenticatorType: bv32)

  type TimeStampToken = int

  datatype RequestKind = OpAuth | TimeStampedOpAuth | TimeStamp

  datatype AuthState =
    | NoAuthRequired
    | OpAuthRequired
    | TimeStampRequired(hat: Hat)
    | TimeStampedOpAuthRequired
    | Waiting(request: int)
    | Token(token: Hat, timestamp: Option<TimeStampToken>)

  datatype TokenError = NotAuthenticated | TimeStampFailed

  type Tokens = Result<(Option<Hat>, Option<TimeStampToken>), TokenError>

  const CLEANUP_PERIOD := 25

  // ---------------------------------------------------------------------------------------------
  // The objects

  /** `AuthRequest`: the token is taken by the first attempt to use it, even if that attempt fails. */
  class AuthRequest {
    const kind: RequestKind
    var hat: Option<Hat>

    constructor (kind: RequestKind, hat: Option<Hat>)
      ensures this.kind == kind && this.hat == hat
    {
      this.kind, this.hat := kind, hat;
    }

    method AddAuthToken(h: Hat)
      modifies this
      ensures hat == Some(h)
    {
      hat := Some(h);
    }

    /** `answer` is what the timestamp service sends, or nothing if it fails or hangs up. */
    method GetAuthTokens(answer: Option<TimeStampToken>) returns (r: Result<(Hat, Option<TimeStampToken>), TokenError>)
      modifies this
      ensures (r, hat) == TakeTokens(kind, old(hat), answer)
    {
      var taken := hat;
      hat := None;
      if taken.None? {
        return Err(NotAuthenticated);
      }
      match kind {
        case OpAuth => return Ok((taken.value, None));
        case _ =>
          if answer.None? {
            return Err(TimeStampFailed);
          }
          return Ok((taken.value, answer));
      }
    }
  }

  function TakeTokens(kind: RequestKind, hat: Option<Hat>, answer: Option<TimeStampToken>)
    : (Result<(Hat, Option<TimeStampToken>), TokenError>, Option<Hat>)
  {
    if hat.None? then (Err(NotAuthenticated), None)
    else if kind.OpAuth? then (Ok((hat.value, None)), None)
    else if answer.None? then (Err(TimeStampFailed), None)
    else (Ok((hat.value, answer)), None)
  }

  /** `TokenReceiverMap`: receivers by challenge, swept of dead ones every 26 insertions. */
  class TokenReceiverMap {
    var receivers: map<int, int>
    var cleanupCounter: int

    constructor ()
      ensures receivers == map[] && cleanupCounter == CLEANUP_PERIOD + 1
    {
      receivers, cleanupCounter := map[], CLEANUP_PERIOD + 1;
    }

    /** Remove and return the receiver waiting for this challenge. */
    method TakeReceiver(challenge: int) returns (recv: Option<int>)
      modifies this`receivers
      ensures recv == if challenge in old(receivers) then Some(old(receivers)[challenge]) else None
      ensures receivers == old(receivers) - {challenge}
    {
      recv := if challenge in receivers then Some(receivers[challenge]) else None;
      receivers := receivers - {challenge};
    }

    /** `alive` are the requests that somebody still holds. */
    method AddReceiver(challenge: int, recv: int, alive: set<int>)
      requires 1 <= cleanupCounter <= CLEANUP_PERIOD + 1
      modifies this
      ensures (receivers, cleanupCounter) == Register(old(receivers), old(cleanupCounter), challenge, recv, alive)
    {
      receivers := receivers[challenge := recv];
      cleanupCounter := cleanupCounter - 1;
      if cleanupCounter == 0 {
        receivers := map c | c in receivers && receivers[c] in alive :: receivers[c];
        cleanupCounter := CLEANUP_PERIOD + 1;
      }
    }
  }

  function Register(receivers: map<int, int>, counter: int, challenge: int, recv: int, alive: set<int>): (map<int, int>, int) {
    var added := receivers[challenge := recv];
    if counter - 1 == 0 then (map c | c in added && added[c] in alive :: added[c], CLEANUP_PERIOD + 1)
    else (added, counter - 1)
  }

  // ---------------------------------------------------------------------------------------------
  // The protocol

  /** A request with the challenge it was made for and the number of tokens ever delivered to it. */
  datatype Request = Request(kind: RequestKind, hat: Option<Hat>, challenge: int, delivered: nat)

  /** `perOp` operations were created in a state that demands a token for this very operation. */
  datatype Operation = Operation(state: AuthState, challenge: Option<int>, perOp: bool)

  datatype Delivery = Delivery(request: int, hat: Hat)

  datatype System = System(
    receivers: map<int, int>,
    counter: int,
    requests: map<int, Request>,
    ops: map<int, Operation>,
    inFlight: map<int, Delivery>)    // by thread: taken off the map, not handed over yet

  const START := System(map[], CLEANUP_PERIOD + 1, map[], map[], map[])

  datatype Step =
    | CreateOp(op: int, state: AuthState)
    | Finalize(op: int, challenge: int, request: int)
    | TokenArrives(thread: int, hat: Hat)
    | Deliver(thread: int)
    | BeforeUse(op: int, answer: Option<TimeStampToken>)
    | DropOp(op: int)

  /** A request lives as long as an operation waits on it. */
  predicate Alive(s: System, r: int) {
    exists o :: o in s.ops && s.ops[o].state == Waiting(r)
  }

  function AliveSet(s: System): set<int> {
    set r | r in s.requests && Alive(s, r)
  }

  predicate PerOp(state: AuthState) {
    state == OpAuthRequired || state == TimeStampedOpAuthRequired
  }

  predicate Enabled(s: System, step: Step) {
    match step
    case CreateOp(o, state) => o !in s.ops && !state.Waiting? && !state.Token?
    case Finalize(o, _, r) => o in s.ops && r !in s.requests
    case TokenArrives(i, _) => i !in s.inFlight
    case Deliver(i) => i in s.inFlight
    case BeforeUse(o, _) => o in s.ops
    case DropOp(o) => o in s.ops
  }

  /** `finalize_create_authorization` */
  function FinalizeOp(s: System, o: int, challenge: int, r: int): System
    requires o in s.ops
  {
    var op := s.ops[o];
    var waiting := s.ops[o := op.(state := Waiting(r), challenge := Some(challenge))];
    match op.state
    case OpAuthRequired => RegisterRequest(s.(ops := waiting), r, Request(OpAuth, None, challenge, 0))
    case TimeStampedOpAuthRequired => RegisterRequest(s.(ops := waiting), r, Request(TimeStampedOpAuth, None, challenge, 0))
    case TimeStampRequired(hat) =>
      s.(ops := waiting, requests := s.requests[r := Request(TimeStamp, Some(hat), challenge, 0)])
    case _ => s
  }

  function RegisterRequest(s: System, r: int, request: Request): System {
    var s1 := s.(requests := s.requests[r := request]);
    var (receivers, counter) := Register(s.receivers, s.counter, request.challenge, r, AliveSet(s1));
    s1.(receivers := receivers, counter := counter)
  }

  /** `AuthInfo::get_auth_tokens`: the tokens, and the system after it. */
  function UseOp(s: System, o: int, answer: Option<TimeStampToken>): (Tokens, System)
    requires o in s.ops
  {
    var op := s.ops[o];
    match op.state
    case Waiting(r) =>
      if r !in s.requests then (Err(NotAuthenticated), s)
      else
        var (taken, hat) := TakeTokens(s.requests[r].kind, s.requests[r].hat, answer);
        var s1 := s.(requests := s.requests[r := s.requests[r].(hat := hat)]);
        if taken.Err? then (Err(taken.error), s1)
        else (Ok((Some(taken.value.0), taken.value.1)), s1.(ops := s.ops[o := op.(state := Token(taken.value.0, taken.value.1))]))
    case NoAuthRequired => (Ok((None, None)), s)
    case Token(hat, timestamp) => (Ok((Some(hat), timestamp)), s)
    case _ => (Err(NotAuthenticated), s)
  }

  function Next(s: System, step: Step): System
    requires Enabled(s, step)
  {
    match step
    case CreateOp(o, state) => s.(ops := s.ops[o := Operation(state, None, PerOp(state))])
    case Finalize(o, challenge, r) => FinalizeOp(s, o, challenge, r)
    case TokenArrives(i, hat) =>
      if hat.challenge in s.receivers
      then s.(receivers := s.receivers - {hat.challenge}, inFlight := s.inFlight[i := Delivery(s.receivers[hat.challenge], hat)])
      else s
    case Deliver(i) =>
      var d := s.inFlight[i];
      var s1 := s.(inFlight := s.inFlight - {i});
      if d.request in s.requests && Alive(s, d.request)
      then
        var q := s.requests[d.request];
        s1.(requests := s.requests[d.request := q.(hat := Some(d.hat), delivered := q.delivered + 1)])
      else s1
    case BeforeUse(o, answer) => UseOp(s, o, answer).1
    case DropOp(o) => s.(ops := s.ops - {o})
  }

  // ---------------------------------------------------------------------------------------------
  // Invariant

  /** A request that has no token yet and is due one for its challenge. */
  predicate Open(s: System, r: int, challenge: int) {
    r in s.requests && s.requests[r].challenge == challenge && !s.requests[r].kind.TimeStamp? && s.requests[r].delivered == 0
  }

  predicate GoodReceivers(s: System) {
    && (forall c :: c in s.receivers ==> Open(s, s.receivers[c], c))
    && (forall i :: i in s.inFlight ==> Open(s, s.inFlight[i].request, s.inFlight[i].hat.challenge))
    && (forall c, i :: c in s.receivers && i in s.inFlight ==> s.receivers[c] != s.inFlight[i].request)
    && (forall i, j :: i in s.inFlight && j in s.inFlight && s.inFlight[i].request == s.inFlight[j].request ==> i == j)
    && 1 <= s.counter <= CLEANUP_PERIOD + 1
  }

  predicate GoodRequest(q: Request) {
    && q.delivered <= 1
    && (!q.kind.TimeStamp? && q.hat.Some? ==> q.hat.value.challenge == q.challenge)
  }

  predicate GoodOp(s: System, op: Operation) {
    match op.state
    case Waiting(r) =>
      r in s.requests && op.challenge == Some(s.requests[r].challenge) && (op.perOp ==> !s.requests[r].kind.TimeStamp?)
    case Token(hat, _) => op.perOp ==> op.challenge == Some(hat.challenge)
    case _ => op.perOp ==> PerOp(op.state)
  }

  predicate Good(s: System) {
    && GoodReceivers(s)
    && (forall r :: r in s.requests ==> GoodRequest(s.requests[r]))
    && (forall o :: o in s.ops ==> GoodOp(s, s.ops[o]))
  }

  lemma FinalizeKeepsReceivers(s: System, o: int, challenge: int, r: int)
    requires GoodReceivers(s) && Enabled(s, Finalize(o, challenge, r))
    ensures GoodReceivers(FinalizeOp(s, o, challenge, r))
  {
    hide Alive, AliveSet;
    var u := FinalizeOp(s, o, challenge, r);
    assert forall q, c :: Open(s, q, c) ==> q != r && Open(u, q, c);
  }

  lemma DeliverKeepsReceivers(s: System, i: int)
    requires GoodReceivers(s) && i in s.inFlight
    ensures GoodReceivers(Next(s, Deliver(i)))
  {
    hide Alive;
    var u := Next(s, Deliver(i));
    assert forall q, c :: Open(s, q, c) && q != s.inFlight[i].request ==> Open(u, q, c);
  }

  lemma TokenKeepsReceivers(s: System, i: int, hat: Hat)
    requires GoodReceivers(s) && i !in s.inFlight
    ensures GoodReceivers(Next(s, TokenArrives(i, hat)))
  {
    var u := Next(s, TokenArrives(i, hat));
    assert forall q, c :: Open(s, q, c) ==> Open(u, q, c);
  }

  lemma NextKeepsReceivers(s: System, step: Step)
    requires GoodReceivers(s) && Enabled(s, step)
    ensures GoodReceivers(Next(s, step))
  {
    hide Alive, FinalizeOp;
    match step
    case Finalize(o, challenge, r) => FinalizeKeepsReceivers(s, o, challenge, r);
    case Deliver(i) => DeliverKeepsReceivers(s, i);
    case TokenArrives(i, hat) => TokenKeepsReceivers(s, i, hat);
    case _ =>
      var u := Next(s, step);
      assert forall q, c :: Open(s, q, c) ==> Open(u, q, c);
  }

  lemma NextKeepsRequests(s: System, step: Step)
    requires GoodReceivers(s) && Enabled(s, step)
    requires forall r :: r in s.requests ==> GoodRequest(s.requests[r])
    ensures forall r :: r in Next(s, step).requests ==> GoodRequest(Next(s, step).requests[r])
  {
    hide Alive;
  }

  lemma NextKeepsOps(s: System, step: Step)
    requires Good(s) && Enabled(s, step)
    ensures forall o :: o in Next(s, step).ops ==> GoodOp(Next(s, step), Next(s, step).ops[o])
  {
    hide Alive;
    var u := Next(s, step);
    assert forall r :: r in s.requests ==> r in u.requests && u.requests[r].challenge == s.requests[r].challenge && u.requests[r].kind == s.requests[r].kind;
  }

  ghost predicate IsExecution(states: seq<System>, steps: seq<Step>) {
    && |states| == |steps| + 1
    && states[0] == START
    && forall i :: 0 <= i < |steps| ==> Enabled(states[i], steps[i]) && states[i + 1] == Next(states[i], steps[i])
  }

  lemma {:induction false} AlwaysGood(states: seq<System>, steps: seq<Step>, n: nat)
    requires IsExecution(states, steps) && n <= |steps|
    ensures Good(states[n])
  {
    hide Next, Enabled, GoodReceivers, GoodRequest, GoodOp;
    if n > 0 {
      AlwaysGood(states, steps, n - 1);
      NextKeepsReceivers(states[n - 1], steps[n - 1]);
      NextKeepsRequests(states[n - 1], steps[n - 1]);
      NextKeepsOps(states[n - 1], steps[n - 1]);
    } else {
      StartIsGood();
    }
  }

  lemma StartIsGood()
    ensures Good(START)
  {
  }

  /**
    Whenever an update or finish of an operation that demands its own authorization is let
    through, it comes with a token whose challenge is that operation's.
   */
  lemma TokenMatchesOperation(states: seq<System>, steps: seq<Step>, n: nat, o: int, answer: Option<TimeStampToken>)
    requires IsExecution(states, steps) && n <= |steps|
    requires o in states[n].ops && states[n].ops[o].perOp
    requires UseOp(states[n], o, answer).0.Ok?
    ensures var hat := UseOp(states[n], o, answer).0.value.0;
      hat.Some? && states[n].ops[o].challenge == Some(hat.value.challenge)
  {
    AlwaysGood(states, steps, n);
  }

  /** That an operation demands its own authorization is settled when it is created. */
  lemma {:induction false} PerOpStays(states: seq<System>, steps: seq<Step>, from: nat, to: nat, o: int)
    requires IsExecution(states, steps) && from <= to <= |steps|
    requires o in states[from].ops && states[from].ops[o].perOp
    requires forall i :: from <= i < to ==> steps[i] != DropOp(o)
    ensures o in states[to].ops && states[to].ops[o].perOp
  {
    hide Alive, AliveSet;
    if from < to {
      PerOpStays(states, steps, from, to - 1, o);
    }
  }

  /** No request is ever handed more than one token. */
  lemma AtMostOneToken(states: seq<System>, steps: seq<Step>, n: nat, r: int)
    requires IsExecution(states, steps) && n <= |steps|
    requires r in states[n].requests
    ensures states[n].requests[r].delivered <= 1
  {
    AlwaysGood(states, steps, n);
  }

  /** Once an operation has its tokens it keeps them until it is dropped, and every use returns them. */
  lemma {:induction false} TokensAreStable(states: seq<System>, steps: seq<Step>, from: nat, to: nat, o: int, answer: Option<TimeStampToken>)
    requires IsExecution(states, steps) && from <= to <= |steps|
    requires o in states[from].ops && states[from].ops[o].state.Token?
    requires forall i :: from <= i < to ==> steps[i] != DropOp(o)
    ensures o in states[to].ops && states[to].ops[o] == states[from].ops[o]
    ensures UseOp(states[to], o, answer).0 == Ok((Some(states[from].ops[o].state.token), states[from].ops[o].state.timestamp))
  {
    hide Alive;
    if from < to {
      TokensAreStable(states, steps, from, to - 1, o, answer);
    }
  }

  /** Registering a receiver, with or without a sweep, loses no receiver whose request is alive. */
  lemma SweepSparesLiveRequests(states: seq<System>, steps: seq<Step>, n: nat, c: int)
    requires IsExecution(states, steps) && n < |steps|
    requires steps[n].Finalize? && c != steps[n].challenge
    requires c in states[n].receivers && Alive(states[n], states[n].receivers[c])
    ensures c in states[n + 1].receivers && states[n + 1].receivers[c] == states[n].receivers[c]
    ensures 1 <= states[n + 1].counter <= CLEANUP_PERIOD + 1
  {
    AlwaysGood(states, steps, n);
    AlwaysGood(states, steps, n + 1);
    var s, step := states[n], steps[n];
    var r := s.receivers[c];
    var w :| w in s.ops && s.ops[w].state == Waiting(r);
    if PerOp(s.ops[step.op].state) {
      assert w != step.op;
      var s1 := s.(ops := s.ops[step.op := s.ops[step.op].(state := Waiting(step.request), challenge := Some(step.challenge))]);
      assert s1.ops[w].state == Waiting(r);
    }
  }
}
