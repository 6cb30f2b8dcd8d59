/**
  Protected confirmation: one session at a time, the callback that ends it, and the back-off that a
  client earns with prompts that were declined or that it aborted itself.
 */
module Confirmation {
  import opened Prelude

  datatype ResponseCode = OK | CANCELLED | ABORTED | OPERATION_PENDING | IGNORED | SYSTEM_ERROR | UNIMPLEMENTED

  type Token = Bytes

  /** Times are in nanoseconds. */
  datatype RateInfo = RateInfo(counter: nat, timestamp: nat)

  /** `hal` is the connection to the user interface, which is made afresh for each prompt. */
  datatype Session = Session(hal: nat, listener: int, uid: int, start: nat, clientAborted: bool)

  datatype Apc = Apc(session: Option<Session>, rates: map<int, RateInfo>, sent: seq<Token>)

  const SECOND := 1_000_000_000
  const ONE_DAY := 86_400 * SECOND

  // ---------------------------------------------------------------------------------------------
  // Rate limiting

  function ShiftLeft(n: nat): nat {
    if n == 0 then 1 else 2 * ShiftLeft(n - 1)
  }

  /** The pause due after that many penalties. */
  function BackOff(counter: nat): nat {
    if counter <= 2 then 0
    else if counter <= 5 then 30 * SECOND
    else if counter <= 16 then 60 * SECOND * ShiftLeft(counter - 6)
    else ONE_DAY
  }

  /** What is left of it, if anything; a client that waited exactly as long is still turned away. */
  function RemainingBackOff(r: RateInfo, now: nat): Option<nat> {
    var elapsed := if now < r.timestamp then 0 else now - r.timestamp;
    if r.counter <= 2 || BackOff(r.counter) < elapsed then None else Some(BackOff(r.counter) - elapsed)
  }

  lemma {:induction false} BackOffGrows(a: nat, b: nat)
    requires a <= b
    ensures BackOff(a) <= BackOff(b) <= ONE_DAY
    decreases b
  {
    PowersOfTwo();
    if a < b {
      BackOffGrows(a, b - 1);
    }
  }

  lemma PowersOfTwo()
    ensures ShiftLeft(0) == 1 && ShiftLeft(1) == 2 && ShiftLeft(2) == 4 && ShiftLeft(3) == 8
    ensures ShiftLeft(4) == 16 && ShiftLeft(5) == 32 && ShiftLeft(6) == 64 && ShiftLeft(7) == 128
    ensures ShiftLeft(8) == 256 && ShiftLeft(9) == 512 && ShiftLeft(10) == 1024
  {
    assert ShiftLeft(3) == 8;
    assert ShiftLeft(6) == 64;
    assert ShiftLeft(9) == 512;
  }

  // ---------------------------------------------------------------------------------------------
  // What the operations do

  /** Why a prompt is refused before the user interface is asked, if it is. */
  function Refusal(a: Apc, uid: int, now: nat, available: bool): Option<ResponseCode> {
    if a.session.Some? then Some(OPERATION_PENDING)
    else if uid in a.rates && RemainingBackOff(a.rates[uid], now).Some? then Some(SYSTEM_ERROR)
    else if !available then Some(UNIMPLEMENTED)
    else None
  }

  predicate Confirmed(rc: ResponseCode, token: Option<Token>) {
    rc == OK && token.Some?
  }

  predicate Penalised(rc: ResponseCode, clientAborted: bool) {
    rc == CANCELLED || (rc == ABORTED && clientAborted)
  }

  function Finished(a: Apc, rc: ResponseCode, token: Option<Token>): Apc {
    if a.session.None? then a
    else
      var s := a.session.value;
      if Confirmed(rc, token) then Apc(None, a.rates - {s.uid}, a.sent + [token.value])
      else if Penalised(rc, s.clientAborted) then
        var counter := if s.uid in a.rates then a.rates[s.uid].counter else 0;
        a.(session := None, rates := a.rates[s.uid := RateInfo(counter + 1, s.start)])
      else a.(session := None)
  }

  function Cancelled(a: Apc, listener: int): (Apc, Result<(), ResponseCode>) {
    if a.session.None? || a.session.value.listener != listener then (a, Err(IGNORED))
    else (a.(session := Some(a.session.value.(clientAborted := true))), Ok(()))
  }

  // ---------------------------------------------------------------------------------------------
  // The objects

  /** The compat session: its callback can be taken out only once. */
  class ConfuiSession {
    var callback: Option<nat>

    constructor ()
      ensures callback.None?
    {
      callback := None;
    }

    method PromptUserConfirmation(cb: nat, answer: ResponseCode) returns (rc: ResponseCode)
      modifies this
      ensures rc == if old(callback).Some? then OPERATION_PENDING else answer
      ensures callback == if old(callback).None? && answer == OK then Some(cb) else old(callback)
    {
      if callback.Some? {
        return OPERATION_PENDING;
      }
      if answer == OK {
        callback := Some(cb);
      }
      return answer;
    }

    method Finalize() returns (cb: Option<nat>)
      modifies this
      ensures cb == old(callback) && callback.None?
    {
      cb := callback;
      callback := None;
    }
  }

  class ApcState {
    var session: Option<Session>
    var rateLimiting: map<int, RateInfo>
    var sent: seq<Token>

    function State(): Apc
      reads this
    {
      Apc(session, rateLimiting, sent)
    }

    constructor ()
      ensures State() == Apc(None, map[], [])
    {
      session, rateLimiting, sent := None, map[], [];
    }

    /** `answer` is what the user interface says, if there is one; `start` is the time after that. */
    method PresentPrompt(listener: int, uid: int, now: nat, available: bool, hal: nat, answer: ResponseCode, start: nat)
      returns (r: Result<(), ResponseCode>, ui: Option<ConfuiSession>)
      modifies this
      ensures Refusal(old(State()), uid, now, available).Some? ==>
        State() == old(State()) && r == Err(Refusal(old(State()), uid, now, available).value) && ui.None?
      ensures Refusal(old(State()), uid, now, available).None? ==>
        && r == (if answer == OK then Ok(()) else Err(answer))
        && ui.Some? && fresh(ui.value) && ui.value.callback == (if answer == OK then Some(hal) else None)
        && State() == if answer == OK then old(State()).(session := Some(Session(hal, listener, uid, start, false))) else old(State())
    {
      ui := None;
      if session.Some? {
        return Err(OPERATION_PENDING), ui;
      }
      if uid in rateLimiting {
        var backOff := RemainingBackOff(rateLimiting[uid], now);
        if backOff.Some? {
          return Err(SYSTEM_ERROR), ui;
        }
      }
      if !available {
        return Err(UNIMPLEMENTED), ui;
      }
      var connection := new ConfuiSession();
      ui := Some(connection);
      var rc := connection.PromptUserConfirmation(hal, answer);
      if rc != OK {
        return Err(rc), ui;
      }
      session := Some(Session(hal, listener, uid, start, false));
      return Ok(()), ui;
    }

    /** Returns the session that ends, whose listener is told. */
    method Result(rc: ResponseCode, token: Option<Token>) returns (ended: Option<Session>)
      modifies this
      ensures State() == Finished(old(State()), rc, token)
      ensures ended == old(session)
    {
      ended := session;
      session := None;
      if ended.None? {
        return;
      }
      var s := ended.value;
      if rc == OK && token.Some? {
        rateLimiting := rateLimiting - {s.uid};
        sent := sent + [token.value];
      } else if rc == CANCELLED || (rc == ABORTED && s.clientAborted) {
        var info := if s.uid in rateLimiting then rateLimiting[s.uid] else RateInfo(0, 0);
        rateLimiting := rateLimiting[s.uid := RateInfo(info.counter + 1, s.start)];
      }
    }

    method CancelPrompt(listener: int) returns (r: Result<(), ResponseCode>)
      modifies this
      ensures (State(), r) == Cancelled(old(State()), listener)
    {
      if session.None? || session.value.listener != listener {
        return Err(IGNORED);
      }
      session := Some(session.value.(clientAborted := true));
      return Ok(());
    }
  }

  // ---------------------------------------------------------------------------------------------
  // The service and the user interface, step by step

  datatype Completion = Completion(session: Session, rc: ResponseCode, token: Option<Token>)

  /**
    `presenting` is a prompt whose callback the user interface has but whose session is not set up
    yet; the service's lock is held meanwhile. `stored` are the prompts whose callback has not been
    taken out, `inFlight` those whose callback is on its way. `log` are the sessions that ended.
   */
  datatype World = World(
    apc: Apc,
    presenting: Option<Session>,
    stored: set<nat>,
    inFlight: map<nat, (ResponseCode, Option<Token>)>,
    nextHal: nat,
    now: nat,
    log: seq<Completion>)

  datatype Step =
    | Tick(nanos: nat)
    | StartPrompt(uid: int, listener: int, available: bool, answer: ResponseCode)
    | CommitPrompt
    | Finalize(hal: nat, rc: ResponseCode, token: Option<Token>)
    | Deliver(hal: nat)
    | Cancel(listener: int)

  predicate Enabled(w: World, step: Step) {
    match step
    case StartPrompt(_, _, _, _) => w.presenting.None?
    case CommitPrompt => w.presenting.Some?
    case Deliver(hal) => w.presenting.None? && hal in w.inFlight
    case Cancel(_) => w.presenting.None?
    case _ => true
  }

  function Next(w: World, step: Step): World
    requires Enabled(w, step)
  {
    match step
    case Tick(nanos) => w.(now := w.now + nanos)
    case StartPrompt(uid, listener, available, answer) =>
      if Refusal(w.apc, uid, w.now, available).Some? then w
      else if answer != OK then w.(nextHal := w.nextHal + 1)
      else w.(presenting := Some(Session(w.nextHal, listener, uid, w.now, false)), stored := w.stored + {w.nextHal}, nextHal := w.nextHal + 1)
    case CommitPrompt =>
      w.(presenting := None, apc := w.apc.(session := Some(w.presenting.value.(start := w.now))))
    case Finalize(hal, rc, token) =>
      if hal !in w.stored then w
      else w.(stored := w.stored - {hal}, inFlight := w.inFlight[hal := (rc, token)])
    case Deliver(hal) =>
      var (rc, token) := w.inFlight[hal];
      w.(apc := Finished(w.apc, rc, token),
         inFlight := w.inFlight - {hal},
         log := if w.apc.session.None? then w.log else w.log + [Completion(w.apc.session.value, rc, token)])
    case Cancel(listener) => w.(apc := Cancelled(w.apc, listener).0)
  }

  ghost predicate Initial(w: World) {
    w.apc == Apc(None, map[], []) && w.presenting.None? && w.stored == {} && w.inFlight == map[] && w.log == []
  }

  ghost predicate IsExecution(states: seq<World>, steps: seq<Step>) {
    && |states| == |steps| + 1
    && Initial(states[0])
    && forall i :: 0 <= i < |steps| ==> Enabled(states[i], steps[i]) && states[i + 1] == Next(states[i], steps[i])
  }

  // ---------------------------------------------------------------------------------------------
  // One session, one callback

  function Active(w: World): Option<Session> {
    if w.presenting.Some? then w.presenting else w.apc.session
  }

  /** A session is there, or being set up, exactly if one callback is outstanding, and it is its own. */
  ghost predicate GoodCallbacks(w: World) {
    && (w.presenting.Some? ==> w.apc.session.None?)
    && w.stored !! w.inFlight.Keys
    && w.stored + w.inFlight.Keys == (if Active(w).Some? then {Active(w).value.hal} else {})
    && (Active(w).Some? ==> Active(w).value.hal < w.nextHal && Active(w).value.start <= w.now)
  }

  /** Prompts ended in the order they were made, each at most once, before the active one. */
  ghost predicate GoodLog(w: World) {
    && (forall i :: 0 <= i < |w.log| ==> w.log[i].session.hal < if Active(w).Some? then Active(w).value.hal else w.nextHal)
    && (forall i, j :: 0 <= i < j < |w.log| ==> w.log[i].session.hal < w.log[j].session.hal)
  }

  /** A client's penalties since it last had a prompt confirmed. */
  function Penalties(log: seq<Completion>, uid: int): nat {
    if log == [] then 0
    else
      var c := log[|log| - 1];
      var before := Penalties(log[..|log| - 1], uid);
      if c.session.uid != uid then before
      else if Confirmed(c.rc, c.token) then 0
      else if Penalised(c.rc, c.session.clientAborted) then before + 1
      else before
  }

  /** When the prompt was made that earned the last of them. */
  function LastPenalty(log: seq<Completion>, uid: int): nat {
    if log == [] then 0
    else
      var c := log[|log| - 1];
      if c.session.uid == uid && Penalised(c.rc, c.session.clientAborted) then c.session.start
      else LastPenalty(log[..|log| - 1], uid)
  }

  ghost predicate GoodRates(w: World) {
    && (forall uid :: Penalties(w.log, uid) == if uid in w.apc.rates then w.apc.rates[uid].counter else 0)
    && (forall uid :: uid in w.apc.rates ==> w.apc.rates[uid].counter > 0 && w.apc.rates[uid].timestamp == LastPenalty(w.log, uid))
    && (forall uid :: LastPenalty(w.log, uid) <= w.now)
  }

  /** A client with that history may have a prompt at that time. */
  predicate MayStart(log: seq<Completion>, uid: int, start: nat) {
    Penalties(log, uid) >= 3 ==> start > LastPenalty(log, uid) + BackOff(Penalties(log, uid))
  }

  ghost predicate GoodSpacing(w: World) {
    && (forall i :: 0 <= i < |w.log| ==> MayStart(w.log[..i], w.log[i].session.uid, w.log[i].session.start))
    && (Active(w).Some? ==> MayStart(w.log, Active(w).value.uid, Active(w).value.start))
  }

  ghost predicate Good(w: World) {
    GoodCallbacks(w) && GoodLog(w) && GoodRates(w) && GoodSpacing(w)
  }

  lemma NextKeepsCallbacks(w: World, step: Step)
    requires Enabled(w, step) && GoodCallbacks(w)
    ensures GoodCallbacks(Next(w, step))
  {
  }

  lemma NextKeepsLog(w: World, step: Step)
    requires Enabled(w, step) && GoodCallbacks(w) && GoodLog(w)
    ensures GoodLog(Next(w, step))
  {
  }

  lemma NextKeepsRates(w: World, step: Step)
    requires Enabled(w, step) && GoodCallbacks(w) && GoodRates(w)
    ensures GoodRates(Next(w, step))
  {
    var v := Next(w, step);
    if step.Deliver? && w.apc.session.Some? {
      assert v.log[..|v.log| - 1] == w.log;
    }
  }

  lemma NextKeepsSpacing(w: World, step: Step)
    requires Enabled(w, step) && GoodCallbacks(w) && GoodRates(w) && GoodSpacing(w)
    ensures GoodSpacing(Next(w, step))
  {
    var v := Next(w, step);
    if step.Deliver? && w.apc.session.Some? {
      assert v.log[..|w.log|] == w.log;
      assert forall i :: 0 <= i < |w.log| ==> v.log[..i] == w.log[..i];
    }
  }

  lemma {:induction false} AlwaysGood(states: seq<World>, steps: seq<Step>, n: nat)
    requires IsExecution(states, steps) && n < |states|
    ensures Good(states[n])
  {
    hide Next, GoodCallbacks, GoodLog, GoodRates, GoodSpacing;
    if n == 0 {
      InitialIsGood(states[0]);
    } else {
      AlwaysGood(states, steps, n - 1);
      NextKeepsCallbacks(states[n - 1], steps[n - 1]);
      NextKeepsLog(states[n - 1], steps[n - 1]);
      NextKeepsRates(states[n - 1], steps[n - 1]);
      NextKeepsSpacing(states[n - 1], steps[n - 1]);
    }
  }

  lemma InitialIsGood(w: World)
    requires Initial(w)
    ensures Good(w)
  {
  }

  // ---------------------------------------------------------------------------------------------
  // What every execution guarantees

  /** A callback that arrives ends the session of its own prompt, and no callback is outstanding then. */
  lemma CallbackEndsItsOwnSession(states: seq<World>, steps: seq<Step>, n: nat)
    requires IsExecution(states, steps) && n < |steps| && steps[n].Deliver?
    ensures states[n].apc.session.Some? && states[n].apc.session.value.hal == steps[n].hal
    ensures Active(states[n + 1]).None? && states[n + 1].stored == {} && states[n + 1].inFlight == map[]
  {
    AlwaysGood(states, steps, n);
    AlwaysGood(states, steps, n + 1);
    assert steps[n].hal in states[n].stored + states[n].inFlight.Keys;
  }

  /** No prompt is reported as completed twice. */
  lemma CompletedAtMostOnce(states: seq<World>, steps: seq<Step>, n: nat, i: nat, j: nat)
    requires IsExecution(states, steps) && n < |states| && i < j < |states[n].log|
    ensures states[n].log[i].session.hal != states[n].log[j].session.hal
  {
    AlwaysGood(states, steps, n);
  }

  /** While a session is there, its callback is outstanding: it can still be ended. */
  lemma SessionCanEnd(states: seq<World>, steps: seq<Step>, n: nat)
    requires IsExecution(states, steps) && n < |states| && Active(states[n]).Some?
    ensures var hal := Active(states[n]).value.hal; (hal in states[n].stored) != (hal in states[n].inFlight)
  {
    AlwaysGood(states, steps, n);
    assert Active(states[n]).value.hal in states[n].stored + states[n].inFlight.Keys;
  }

  /** A prompt is turned away for its client's history exactly if it comes too soon after the last penalty. */
  lemma TurnedAwayExactly(states: seq<World>, steps: seq<Step>, n: nat, uid: int)
    requires IsExecution(states, steps) && n < |states|
    requires Active(states[n]).None?
    ensures var w := states[n]; Refusal(w.apc, uid, w.now, true).Some? <==> !MayStart(w.log, uid, w.now)
  {
    AlwaysGood(states, steps, n);
  }

  /** Every prompt that was ever completed kept the distance due at its time. */
  lemma CompletionsAreSpaced(states: seq<World>, steps: seq<Step>, n: nat, i: nat)
    requires IsExecution(states, steps) && n < |states| && i < |states[n].log|
    ensures var c := states[n].log[i]; MayStart(states[n].log[..i], c.session.uid, c.session.start)
  {
    AlwaysGood(states, steps, n);
  }

  ghost predicate Spaced(log: seq<Completion>) {
    forall i :: 0 <= i < |log| ==> MayStart(log[..i], log[i].session.uid, log[i].session.start)
  }

  lemma {:induction false} PenaltiesTakeTime(log: seq<Completion>, uid: int, k: nat)
    requires Spaced(log) && Penalties(log, uid) >= 17 + k
    ensures LastPenalty(log, uid) >= k * ONE_DAY
  {
    var init, c := log[..|log| - 1], log[|log| - 1];
    assert forall i :: 0 <= i < |init| ==> init[..i] == log[..i];
    if c.session.uid != uid || !Penalised(c.rc, c.session.clientAborted) {
      PenaltiesTakeTime(init, uid, k);
    } else if k > 0 {
      PenaltiesTakeTime(init, uid, k - 1);
      assert log[..|log| - 1] == init;
      BackOffGrows(17, Penalties(init, uid));
    }
  }

  /** The counter gains at most one a day once it has passed seventeen, so 32 bits last for ever. */
  lemma CounterNeedsDays(states: seq<World>, steps: seq<Step>, n: nat, uid: int, k: nat)
    requires IsExecution(states, steps) && n < |states|
    requires uid in states[n].apc.rates && states[n].apc.rates[uid].counter >= 17 + k
    ensures states[n].now >= k * ONE_DAY
  {
    AlwaysGood(states, steps, n);
    PenaltiesTakeTime(states[n].log, uid, k);
  }

  /** The tokens passed on are those of the confirmed sessions, in order. */
  function ConfirmedTokens(log: seq<Completion>): seq<Token> {
    if log == [] then []
    else
      var c := log[|log| - 1];
      ConfirmedTokens(log[..|log| - 1]) + if Confirmed(c.rc, c.token) then [c.token.value] else []
  }

  lemma {:induction false} TokensAreThoseConfirmed(states: seq<World>, steps: seq<Step>, n: nat)
    requires IsExecution(states, steps) && n < |states|
    ensures states[n].apc.sent == ConfirmedTokens(states[n].log)
  {
    if n > 0 {
      TokensAreThoseConfirmed(states, steps, n - 1);
      var w, v := states[n - 1], states[n];
      assert v == Next(w, steps[n - 1]);
      if |v.log| > |w.log| {
        assert v.log[..|v.log| - 1] == w.log;
      }
    }
  }
}
