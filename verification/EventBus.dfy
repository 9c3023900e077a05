/** Publish-with-acknowledge of the in-memory event bus: handlers, their watchers, one error channel, one collector. */
module EventBus {
  import opened Tally

  // ---- goroutines ------------------------------------------------------------------------------

  /** What the i-th handler can send on the error channel: its panic, or its watcher's timeout. */
  datatype Error = PanicOf(i: nat) | TimeoutOf(i: nat)

  /** The watcher of one handler: it starts the handler, selects, may send, and calls `wg.Done`. */
  datatype Watcher = Starting | Selecting | SendingTimeout | Leaving(late: bool) | Gone(late: bool)

  /** The goroutine that runs the handler: a panic is sent before `done` is closed. */
  datatype Body = Unborn | Running | SendingPanic | ClosingDone(panicked: bool) | Done(panicked: bool)

  datatype Handler = Handler(watcher: Watcher, body: Body)

  /** The goroutine that waits, closes the channel, drains it and calls back. */
  datatype Collector = Waiting | Closing | Draining | Calling | Finished

  /** `buffer` is the error channel, with as many places as there are handlers; `calls` the errors of each call back. */
  datatype State = State(
    handlers: seq<Handler>, wg: int, buffer: seq<Error>, closed: bool,
    collector: Collector, collected: seq<Error>, calls: seq<seq<Error>>, crashed: bool)

  /** Which handlers panic in the end, which may still be running when their context is done, and which never return. */
  datatype Env = Env(panics: seq<bool>, slow: seq<bool>, hangs: seq<bool>)

  datatype Action =
    | Spawn(i: nat) | Return(i: nat) | Panic(i: nat) | SendPanic(i: nat) | CloseDone(i: nat)
    | TakeDone(i: nat) | TakeTimeout(i: nat) | SendTimeout(i: nat) | WgDone(i: nat)
    | WaitReturns | CloseChannel | Receive | EndDrain | Call

  /** Without handlers the callback is called at once, with nil. */
  function Init(n: nat): State {
    if n == 0 then State([], 0, [], false, Finished, [], [[]], false)
    else State(seq(n, _ => Handler(Starting, Unborn)), n, [], false, Waiting, [], [], false)
  }

  predicate OfCollector(a: Action) {
    a.WaitReturns? || a.CloseChannel? || a.Receive? || a.EndDrain? || a.Call?
  }

  predicate Sends(a: Action) { a.SendPanic? || a.SendTimeout? }

  /** A send proceeds when there is room, or into a panic when the channel is closed; otherwise it blocks. */
  predicate MaySend(s: State) { s.closed || |s.buffer| < |s.handlers| }

  /** What the two goroutines of one handler can do next, leaving the channel aside. */
  predicate CanMove(h: Handler, a: Action, panics: bool, slow: bool)
    requires !OfCollector(a)
  {
    match a
    case Spawn(_) => h == Handler(Starting, Unborn)
    case Return(_) => h.body == Running && !panics
    case Panic(_) => h.body == Running && panics
    case SendPanic(_) => h.body == SendingPanic
    case CloseDone(_) => h.body.ClosingDone?
    case TakeDone(_) => h.watcher == Selecting && h.body.Done?
    case TakeTimeout(_) => h.watcher == Selecting && slow
    case SendTimeout(_) => h.watcher == SendingTimeout
    case WgDone(_) => h.watcher.Leaving?
  }

  function Move(h: Handler, a: Action, panics: bool, slow: bool): Handler
    requires !OfCollector(a) && CanMove(h, a, panics, slow)
  {
    match a
    case Spawn(_) => Handler(Selecting, Running)
    case Return(_) => h.(body := ClosingDone(false))
    case Panic(_) => h.(body := SendingPanic)
    case SendPanic(_) => h.(body := ClosingDone(true))
    case CloseDone(_) => h.(body := Done(h.body.panicked))
    case TakeDone(_) => h.(watcher := Leaving(false))
    case TakeTimeout(_) => h.(watcher := SendingTimeout)
    case SendTimeout(_) => h.(watcher := Leaving(true))
    case WgDone(_) => h.(watcher := Gone(h.watcher.late))
  }

  /** The message a send puts on the channel. */
  function Message(a: Action): seq<Error> {
    match a
    case SendPanic(i) => [PanicOf(i)]
    case SendTimeout(i) => [TimeoutOf(i)]
    case _ => []
  }

  predicate HandlerMay(env: Env, s: State, a: Action)
    requires !OfCollector(a)
  {
    && a.i < |s.handlers| && a.i < |env.panics| && a.i < |env.slow| && a.i < |env.hangs|
    && CanMove(s.handlers[a.i], a, env.panics[a.i], env.slow[a.i])
    && (Sends(a) ==> MaySend(s))
    && (a.Return? ==> !env.hangs[a.i])
  }

  function HandlerDo(env: Env, s: State, a: Action): State
    requires !OfCollector(a) && HandlerMay(env, s, a)
  {
    if Sends(a) && s.closed then s.(crashed := true)
    else s.(handlers := s.handlers[a.i := Move(s.handlers[a.i], a, env.panics[a.i], env.slow[a.i])],
            buffer := s.buffer + Message(a),
            wg := if a.WgDone? then s.wg - 1 else s.wg)
  }

  predicate CollectorMay(s: State, a: Action)
    requires OfCollector(a)
  {
    match a
    case WaitReturns => s.collector == Waiting && s.wg == 0
    case CloseChannel => s.collector == Closing
    case Receive => s.collector == Draining && s.buffer != []
    case EndDrain => s.collector == Draining && s.buffer == []
    case Call => s.collector == Calling
  }

  predicate Enabled(env: Env, s: State, a: Action) {
    !s.crashed && if OfCollector(a) then CollectorMay(s, a) else HandlerMay(env, s, a)
  }

  function CollectorDo(s: State, a: Action): State
    requires OfCollector(a) && CollectorMay(s, a)
  {
    match a
    case WaitReturns => s.(collector := Closing)
    case CloseChannel => s.(closed := true, collector := Draining)
    case Receive => s.(collected := s.collected + [s.buffer[0]], buffer := s.buffer[1..])
    case EndDrain => s.(collector := Calling)
    case Call => s.(calls := s.calls + [s.collected], collector := Finished)
  }

  function Do(env: Env, s: State, a: Action): State
    requires Enabled(env, s, a)
  {
    if OfCollector(a) then CollectorDo(s, a) else HandlerDo(env, s, a)
  }

  predicate Legal(env: Env, s: State, run: seq<Action>)
    decreases |run|
  {
    run == [] || (Enabled(env, s, run[0]) && Legal(env, Do(env, s, run[0]), run[1..]))
  }

  function Exec(env: Env, s: State, run: seq<Action>): State
    requires Legal(env, s, run)
    decreases |run|
  {
    if run == [] then s else Exec(env, Do(env, s, run[0]), run[1..])
  }

  /** A handler that never returns does not panic either, and is still running when its context is done. */
  predicate Fits(env: Env, n: nat) {
    && |env.panics| == n && |env.slow| == n && |env.hangs| == n
    && forall i :: 0 <= i < n && env.hangs[i] ==> env.slow[i] && !env.panics[i]
  }

  // ---- what a handler contributes -----------------------------------------------------------------

  function Alive(h: Handler): nat { if h.watcher.Gone? then 0 else 1 }

  predicate TimeoutSent(h: Handler) { h.watcher == Leaving(true) || h.watcher == Gone(true) }
  predicate PanicSent(h: Handler) { h.body == ClosingDone(true) || h.body == Done(true) }
  predicate Late(h: Handler) { h.watcher == SendingTimeout || TimeoutSent(h) }
  predicate Broken(h: Handler) { h.body == SendingPanic || PanicSent(h) }

  function Sent(h: Handler): nat { Bit(TimeoutSent(h)) + Bit(PanicSent(h)) }
  function Raised(h: Handler): nat { Bit(Late(h)) + Bit(Broken(h)) }

  // ---- the invariant -----------------------------------------------------------------------------

  predicate WasSent(hs: seq<Handler>, e: Error) {
    e.i < |hs| && match e case PanicOf(i) => PanicSent(hs[i]) case TimeoutOf(i) => TimeoutSent(hs[i])
  }

  predicate HandlerOk(h: Handler, panics: bool, slow: bool) {
    && (h.watcher == Starting <==> h.body == Unborn)
    && (h.watcher == Leaving(false) || h.watcher == Gone(false) ==> h.body.Done?)
    && (Late(h) ==> slow)
    && (Broken(h) ==> panics)
    && (h.body == ClosingDone(false) || h.body == Done(false) ==> !panics)
  }

  predicate CollectorOk(s: State) {
    && (s.handlers == [] ==> s.collector.Finished?)
    && (s.closed <==> s.handlers != [] && (s.collector.Draining? || s.collector.Calling? || s.collector.Finished?))
    && (!s.collector.Waiting? ==> s.wg == 0)
    && (s.collector.Waiting? || s.collector.Closing? ==> s.collected == [])
    && (s.collector.Calling? || s.collector.Finished? ==> s.buffer == [])
    && s.calls == (if s.collector.Finished? then [s.collected] else [])
  }

  /** How often a message is among those collected and those still in the channel. */
  function Copies(s: State, e: Error): nat { multiset(s.collected + s.buffer)[e] }

  ghost predicate Accounted(s: State) {
    forall e :: Copies(s, e) == Bit(WasSent(s.handlers, e))
  }

  ghost predicate Inv(env: Env, s: State) {
    Shape(env, s) && Accounted(s)
  }

  predicate HandlersOk(env: Env, hs: seq<Handler>) {
    && Fits(env, |hs|)
    && (forall i :: 0 <= i < |hs| ==> HandlerOk(hs[i], env.panics[i], env.slow[i]))
    && (forall i :: 0 <= i < |hs| && env.hangs[i] ==> hs[i].body in {Unborn, Running})
  }

  predicate Shape(env: Env, s: State) {
    && HandlersOk(env, s.handlers)
    && CollectorOk(s)
    && s.wg == Sum(s.handlers, Alive)
    && |s.collected| + |s.buffer| == Sum(s.handlers, Sent)
    && |s.buffer| <= |s.handlers|
  }

  lemma InitShape(env: Env, n: nat)
    requires Fits(env, n)
    ensures Shape(env, Init(n))
  {
    SumBound(Init(n).handlers, Alive, 1);
    SumBound(Init(n).handlers, Sent, 0);
  }

  lemma InitInv(env: Env, n: nat)
    requires Fits(env, n)
    ensures Inv(env, Init(n))
  {
    InitShape(env, n);
    var s := Init(n);
    assert s.collected + s.buffer == [];
    forall e ensures Copies(s, e) == Bit(WasSent(s.handlers, e)) {
      assert !WasSent(s.handlers, e);
    }
  }

  /** While a watcher is there, the collector waits and the channel is open. */
  lemma AliveKeepsOpen(env: Env, s: State, i: nat)
    requires Shape(env, s) && i < |s.handlers| && !s.handlers[i].watcher.Gone?
    ensures s.wg > 0 && s.collector == Waiting && !s.closed
  {
    SumPositive(s.handlers, Alive);
    assert Alive(s.handlers[i]) > 0;
  }

  lemma AllGone(env: Env, s: State, i: nat)
    requires Inv(env, s) && s.wg == 0 && i < |s.handlers|
    ensures s.handlers[i].watcher.Gone?
  {
    if !s.handlers[i].watcher.Gone? {
      AliveKeepsOpen(env, s, i);
    }
  }

  /** One move of a handler in numbers. */
  lemma MoveOk(h: Handler, a: Action, panics: bool, slow: bool)
    requires !OfCollector(a) && CanMove(h, a, panics, slow) && HandlerOk(h, panics, slow)
    ensures var h' := Move(h, a, panics, slow);
      && HandlerOk(h', panics, slow)
      && Alive(h') == Alive(h) - Bit(a.WgDone?)
      && Sent(h') == Sent(h) + |Message(a)|
      && (PanicSent(h') <==> PanicSent(h) || a.SendPanic?) && (a.SendPanic? ==> !PanicSent(h))
      && (TimeoutSent(h') <==> TimeoutSent(h) || a.SendTimeout?) && (a.SendTimeout? ==> !TimeoutSent(h))
  {
  }

  lemma CountMessage(a: Action, e: Error)
    ensures multiset(Message(a))[e] == Bit(Message(a) == [e])
  {
    if Message(a) != [] {
      assert Message(a) == [Message(a)[0]];
      assert multiset(Message(a)) == multiset{Message(a)[0]};
    }
  }

  lemma SentAfter(hs: seq<Handler>, a: Action, panics: bool, slow: bool, e: Error)
    requires !OfCollector(a) && a.i < |hs| && CanMove(hs[a.i], a, panics, slow) && HandlerOk(hs[a.i], panics, slow)
    ensures Bit(WasSent(hs[a.i := Move(hs[a.i], a, panics, slow)], e)) == Bit(WasSent(hs, e)) + Bit(Message(a) == [e])
  {
    MoveOk(hs[a.i], a, panics, slow);
    if Message(a) == [e] {
      assert Message(a)[0] == e;
    }
  }

  lemma MessageAfter(env: Env, s: State, a: Action, e: Error)
    requires !OfCollector(a) && HandlerMay(env, s, a) && (Sends(a) ==> !s.closed)
    requires HandlerOk(s.handlers[a.i], env.panics[a.i], env.slow[a.i])
    requires Copies(s, e) == Bit(WasSent(s.handlers, e))
    ensures var s' := HandlerDo(env, s, a); Copies(s', e) == Bit(WasSent(s'.handlers, e))
  {
    CountMessage(a, e);
    SentAfter(s.handlers, a, env.panics[a.i], env.slow[a.i], e);
  }

  lemma HandlerKeepsSums(hs: seq<Handler>, a: Action, panics: bool, slow: bool)
    requires !OfCollector(a) && a.i < |hs| && CanMove(hs[a.i], a, panics, slow) && HandlerOk(hs[a.i], panics, slow)
    ensures var hs' := hs[a.i := Move(hs[a.i], a, panics, slow)];
      && HandlerOk(hs'[a.i], panics, slow)
      && Sum(hs', Alive) == Sum(hs, Alive) - Bit(a.WgDone?)
      && Sum(hs', Sent) == Sum(hs, Sent) + |Message(a)|
  {
    var h := Move(hs[a.i], a, panics, slow);
    MoveOk(hs[a.i], a, panics, slow);
    SumUpdate(hs, Alive, a.i, h);
    SumUpdate(hs, Sent, a.i, h);
  }

  lemma HangingStays(h: Handler, a: Action, slow: bool)
    requires !OfCollector(a) && CanMove(h, a, false, slow) && h.body in {Unborn, Running} && !a.Return?
    ensures Move(h, a, false, slow).body in {Unborn, Running}
  {
  }

  lemma OneMoreOk(env: Env, hs: seq<Handler>, i: nat, h: Handler)
    requires HandlersOk(env, hs) && i < |hs| && HandlerOk(h, env.panics[i], env.slow[i])
    requires env.hangs[i] ==> h.body in {Unborn, Running}
    ensures HandlersOk(env, hs[i := h])
  {
  }

  lemma HandlersKeepOk(env: Env, hs: seq<Handler>, a: Action)
    requires HandlersOk(env, hs) && !OfCollector(a) && a.i < |hs|
    requires CanMove(hs[a.i], a, env.panics[a.i], env.slow[a.i]) && (a.Return? ==> !env.hangs[a.i])
    ensures HandlersOk(env, hs[a.i := Move(hs[a.i], a, env.panics[a.i], env.slow[a.i])])
  {
    MoveOk(hs[a.i], a, env.panics[a.i], env.slow[a.i]);
    if env.hangs[a.i] {
      HangingStays(hs[a.i], a, env.slow[a.i]);
    }
    OneMoreOk(env, hs, a.i, Move(hs[a.i], a, env.panics[a.i], env.slow[a.i]));
  }

  lemma HandlerKeepsCollector(env: Env, s: State, a: Action)
    requires CollectorOk(s) && !OfCollector(a) && HandlerMay(env, s, a) && (Sends(a) ==> !s.closed)
    requires (a.WgDone? ==> s.collector == Waiting) && (Sends(a) ==> s.collector == Waiting || s.collector == Closing)
    ensures CollectorOk(HandlerDo(env, s, a))
  {
  }

  lemma HandlerKeepsShape(env: Env, s: State, a: Action)
    requires Shape(env, s) && !OfCollector(a) && HandlerMay(env, s, a) && (Sends(a) ==> !s.closed)
    requires a.WgDone? ==> s.wg > 0 && s.collector == Waiting
    ensures Shape(env, HandlerDo(env, s, a))
  {
    HandlersKeepOk(env, s.handlers, a);
    HandlerKeepsSums(s.handlers, a, env.panics[a.i], env.slow[a.i]);
    HandlerKeepsCollector(env, s, a);
  }

  /** A handler's own move changes the sums by what that handler contributes. */
  lemma HandlerKeepsInv(env: Env, s: State, a: Action)
    requires Inv(env, s) && Enabled(env, s, a) && !OfCollector(a)
    ensures Inv(env, Do(env, s, a))
  {
    var s' := Do(env, s, a);
    if Sends(a) && s.closed {
      assert forall e :: Copies(s', e) == Copies(s, e);
    } else {
      if !s.handlers[a.i].watcher.Gone? {
        AliveKeepsOpen(env, s, a.i);
      }
      HandlerKeepsShape(env, s, a);
      forall e ensures Copies(s', e) == Bit(WasSent(s'.handlers, e)) {
        assert Copies(s, e) == Bit(WasSent(s.handlers, e));
        MessageAfter(env, s, a, e);
      }
    }
  }

  lemma CollectorKeepsInv(env: Env, s: State, a: Action)
    requires Inv(env, s) && Enabled(env, s, a) && OfCollector(a)
    ensures Inv(env, Do(env, s, a))
  {
    var s' := CollectorDo(s, a);
    assert s'.collected + s'.buffer == s.collected + s.buffer by {
      if a.Receive? {
        assert s.buffer == [s.buffer[0]] + s.buffer[1..];
      }
    }
    forall e ensures Copies(s', e) == Bit(WasSent(s'.handlers, e)) {
      assert Copies(s, e) == Bit(WasSent(s.handlers, e));
    }
  }

  lemma DoKeepsInv(env: Env, s: State, a: Action)
    requires Inv(env, s) && Enabled(env, s, a)
    ensures Inv(env, Do(env, s, a))
  {
    if OfCollector(a) {
      CollectorKeepsInv(env, s, a);
    } else {
      HandlerKeepsInv(env, s, a);
    }
  }

  lemma {:induction false} ExecKeepsInv(env: Env, s: State, run: seq<Action>)
    requires Inv(env, s) && Legal(env, s, run)
    ensures Inv(env, Exec(env, s, run))
    decreases |run|
  {
    if run != [] {
      DoKeepsInv(env, s, run[0]);
      ExecKeepsInv(env, Do(env, s, run[0]), run[1..]);
    }
  }
}
