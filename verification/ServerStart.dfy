/** The started-channel handshake between `Start` and `WaitForServerStart`. */
module ServerStart {
  import opened Sql

  /** Where one call of `Start` is; the critical section of `serverMu` runs from `Locked` to `ServerSet`. */
  datatype Starter =
    | Idle
    | Locked
    | ClosedOld
    | MadeNew
    | ServerSet
    | Unlocked(mine: nat)
    | Listening(mine: nat)

  /** Where one call of `WaitForServerStart` is: it reads the channel under the lock, waits, and looks again. */
  datatype Waiter = Asking | Blocked(channel: nat) | Released | Answered(created: bool) | GaveUp

  /** Channels are numbered as they are made; `closed[c]` says that `c` is closed and `current` is the field. */
  datatype State = State(
    closed: seq<bool>, current: nat, server: bool, holder: Option<nat>,
    starters: seq<Starter>, waiters: seq<Waiter>, crashed: bool)

  datatype Action =
    | Lock(i: nat) | CloseOld(i: nat) | MakeNew(i: nat) | SetServer(i: nat) | Unlock(i: nat) | CloseNew(i: nat)
    | Read(i: nat) | Wake(i: nat) | Look(i: nat) | Expire(i: nat)

  /** `NewApp` makes the first channel. */
  function Init(starters: nat, waiters: nat): State {
    State([false], 0, false, None, seq(starters, _ => Idle), seq(waiters, _ => Asking), false)
  }

  predicate OfWaiter(a: Action) { a.Read? || a.Wake? || a.Look? || a.Expire? }

  predicate WaiterMay(s: State, a: Action)
    requires OfWaiter(a)
  {
    a.i < |s.waiters| &&
    match a
    case Read(i) => s.waiters[i] == Asking && s.holder == None
    case Wake(i) => s.waiters[i].Blocked? && s.waiters[i].channel < |s.closed| && s.closed[s.waiters[i].channel]
    case Look(i) => s.waiters[i] == Released && s.holder == None
    case Expire(i) => s.waiters[i].Blocked?
  }

  predicate StarterMay(s: State, a: Action)
    requires !OfWaiter(a)
  {
    a.i < |s.starters| &&
    var p := s.starters[a.i];
    match a
    case Lock(_) => p == Idle && s.holder == None
    case CloseOld(_) => p == Locked && s.current < |s.closed|
    case MakeNew(_) => p == ClosedOld
    case SetServer(_) => p == MadeNew
    case Unlock(_) => p == ServerSet
    case CloseNew(_) => p.Unlocked? && p.mine < |s.closed|
  }

  predicate Enabled(s: State, a: Action) {
    !s.crashed && if OfWaiter(a) then WaiterMay(s, a) else StarterMay(s, a)
  }

  function At(s: State, i: nat, p: Starter): State
    requires i < |s.starters|
  {
    s.(starters := s.starters[i := p])
  }

  /** Closing a closed channel panics. */
  function StarterDo(s: State, a: Action): State
    requires !OfWaiter(a) && StarterMay(s, a)
  {
    match a
    case Lock(i) => At(s, i, Locked).(holder := Some(i))
    case CloseOld(i) =>
      if s.closed[s.current] then s.(crashed := true)
      else At(s, i, ClosedOld).(closed := s.closed[s.current := true])
    case MakeNew(i) => At(s, i, MadeNew).(closed := s.closed + [false], current := |s.closed|)
    case SetServer(i) => At(s, i, ServerSet).(server := true)
    case Unlock(i) => At(s, i, Unlocked(s.current)).(holder := None)
    case CloseNew(i) =>
      var c := s.starters[i].mine;
      if s.closed[c] then s.(crashed := true) else At(s, i, Listening(c)).(closed := s.closed[c := true])
  }

  function WaiterDo(s: State, a: Action): State
    requires OfWaiter(a) && WaiterMay(s, a)
  {
    var p := match a
      case Read(_) => Blocked(s.current)
      case Wake(_) => Released
      case Look(_) => Answered(s.server)
      case Expire(_) => GaveUp;
    s.(waiters := s.waiters[a.i := p])
  }

  function Do(s: State, a: Action): State
    requires Enabled(s, a)
  {
    if OfWaiter(a) then WaiterDo(s, a) else StarterDo(s, a)
  }

  predicate Legal(s: State, run: seq<Action>)
    decreases |run|
  {
    run == [] || (Enabled(s, run[0]) && Legal(Do(s, run[0]), run[1..]))
  }

  function Exec(s: State, run: seq<Action>): State
    requires Legal(s, run)
    decreases |run|
  {
    if run == [] then s else Exec(Do(s, run[0]), run[1..])
  }

  // ---- the invariant ---------------------------------------------------------------------------

  predicate Inside(p: Starter) { p.Locked? || p.ClosedOld? || p.MadeNew? || p.ServerSet? }

  /** The calls after the lock. */
  predicate Out(p: Starter) { p.Unlocked? || p.Listening? }

  /** Some call has closed the current channel and not yet made the next one. */
  predicate Between(s: State) {
    exists i :: 0 <= i < |s.starters| && s.starters[i].ClosedOld?
  }

  predicate SomeListens(s: State) { exists i :: 0 <= i < |s.starters| && s.starters[i].Listening? }

  predicate LockOk(s: State) {
    && (forall i :: 0 <= i < |s.starters| ==> (Inside(s.starters[i]) <==> s.holder == Some(i)))
    && (s.holder.Some? ==> s.holder.value < |s.starters|)
  }

  const NOTHING := -1

  /** The channel a call has made: the current one while it holds the lock, its own afterwards. */
  function Own(p: Starter, current: nat): int {
    if p.MadeNew? || p.ServerSet? then current else if Out(p) then p.mine else NOTHING
  }

  /** A channel is made by one call, and every channel but the first by some call. */
  predicate OwnersOk(starters: seq<Starter>, current: nat) {
    && (forall i, j :: 0 <= i < j < |starters| ==>
         Own(starters[i], current) != Own(starters[j], current) || Own(starters[i], current) == NOTHING)
    && (forall i :: 0 <= i < |starters| ==> Own(starters[i], current) == NOTHING || 0 < Own(starters[i], current) <= current)
    && (current > 0 ==> exists i :: 0 <= i < |starters| && Own(starters[i], current) == current)
  }

  /** Every channel but the newest is closed; the newest is closed by the call that made it or by the next one. */
  predicate ChannelsOk(s: State) {
    && |s.closed| == s.current + 1
    && (forall c :: 0 <= c < s.current ==> s.closed[c])
    && (forall i :: 0 <= i < |s.starters| && s.starters[i].Listening? ==> s.starters[i].mine == s.current)
    && (s.closed[s.current] <==> Between(s) || SomeListens(s))
    && !(Between(s) && SomeListens(s))
  }

  predicate ServerOk(s: State) {
    && (forall i :: 0 <= i < |s.starters| && (Out(s.starters[i]) || s.starters[i].ServerSet?) ==> s.server)
    && (forall c :: 0 <= c < |s.closed| && s.closed[c] ==> s.server || s.holder.Some?)
    && (forall i :: 0 <= i < |s.waiters| && s.waiters[i].Released? ==> s.server || s.holder.Some?)
    && (forall i :: 0 <= i < |s.waiters| && s.waiters[i].Answered? ==> s.waiters[i].created)
  }

  ghost predicate Inv(s: State) {
    LockOk(s) && OwnersOk(s.starters, s.current) && ChannelsOk(s) && ServerOk(s)
  }

  lemma StarterKeepsLock(s: State, a: Action)
    requires LockOk(s) && !OfWaiter(a) && StarterMay(s, a)
    ensures LockOk(StarterDo(s, a))
  {
  }

  /** Only `MakeNew` gives a call a channel. */
  lemma SameOwners(was: seq<Starter>, now: seq<Starter>, current: nat)
    requires OwnersOk(was, current) && |now| == |was|
    requires forall i :: 0 <= i < |was| ==> Own(now[i], current) == Own(was[i], current)
    ensures OwnersOk(now, current)
  {
    if current > 0 {
      var i :| 0 <= i < |was| && Own(was[i], current) == current;
      assert Own(now[i], current) == current;
    }
  }

  lemma NewOwner(was: seq<Starter>, current: nat, made: nat, i: nat)
    requires OwnersOk(was, current) && i < |was| && current < made
    requires forall j :: 0 <= j < |was| && j != i ==> !Inside(was[j])
    ensures OwnersOk(was[i := MadeNew], made)
  {
    var now := was[i := MadeNew];
    assert Own(now[i], made) == made;
    assert forall j :: 0 <= j < |was| && j != i ==> Own(now[j], made) == Own(was[j], current);
  }

  lemma StarterKeepsOwners(s: State, a: Action)
    requires LockOk(s) && OwnersOk(s.starters, s.current) && |s.closed| == s.current + 1
    requires !OfWaiter(a) && StarterMay(s, a)
    ensures OwnersOk(StarterDo(s, a).starters, StarterDo(s, a).current)
  {
    if a.MakeNew? {
      NewOwner(s.starters, s.current, |s.closed|, a.i);
    } else {
      SameOwners(s.starters, StarterDo(s, a).starters, s.current);
    }
  }

  lemma StarterKeepsServer(s: State, a: Action)
    requires LockOk(s) && ServerOk(s) && !OfWaiter(a) && StarterMay(s, a)
    ensures ServerOk(StarterDo(s, a))
  {
  }

  lemma CloseOldKeepsChannels(s: State, i: nat)
    requires ChannelsOk(s) && StarterMay(s, CloseOld(i)) && !s.closed[s.current]
    ensures ChannelsOk(StarterDo(s, CloseOld(i)))
  {
    var s' := StarterDo(s, CloseOld(i));
    assert !SomeListens(s) && s'.starters[i].ClosedOld?;
  }

  lemma MakeNewKeepsChannels(s: State, i: nat)
    requires LockOk(s) && ChannelsOk(s) && StarterMay(s, MakeNew(i))
    ensures ChannelsOk(StarterDo(s, MakeNew(i)))
  {
    assert Between(s);
  }

  lemma CloseNewKeepsChannels(s: State, i: nat)
    requires OwnersOk(s.starters, s.current) && ChannelsOk(s) && StarterMay(s, CloseNew(i))
    requires !s.closed[s.starters[i].mine]
    ensures ChannelsOk(StarterDo(s, CloseNew(i)))
  {
    var s' := StarterDo(s, CloseNew(i));
    assert Own(s.starters[i], s.current) == s.starters[i].mine == s.current;
    assert !SomeListens(s) && !Between(s) && s'.starters[i].Listening?;
  }

  /** The other steps under the lock leave the channels, and who is between or listening, alone. */
  lemma StepKeepsChannels(s: State, a: Action)
    requires ChannelsOk(s) && !OfWaiter(a) && StarterMay(s, a) && (a.Lock? || a.SetServer? || a.Unlock?)
    ensures ChannelsOk(StarterDo(s, a))
  {
    var s' := StarterDo(s, a);
    assert forall j :: 0 <= j < |s.starters| && (s.starters[j].ClosedOld? || s.starters[j].Listening?) ==> s'.starters[j] == s.starters[j];
    assert Between(s') <==> Between(s);
  }

  lemma StarterKeepsChannels(s: State, a: Action)
    requires LockOk(s) && OwnersOk(s.starters, s.current) && ChannelsOk(s) && !OfWaiter(a) && StarterMay(s, a)
    ensures ChannelsOk(StarterDo(s, a))
  {
    match a
    case CloseOld(i) => if !s.closed[s.current] { CloseOldKeepsChannels(s, i); }
    case MakeNew(i) => MakeNewKeepsChannels(s, i);
    case CloseNew(i) => if !s.closed[s.starters[i].mine] { CloseNewKeepsChannels(s, i); }
    case _ => StepKeepsChannels(s, a);
  }

  lemma DoKeepsInv(s: State, a: Action)
    requires Inv(s) && Enabled(s, a)
    ensures Inv(Do(s, a))
  {
    if !OfWaiter(a) {
      StarterKeepsLock(s, a);
      StarterKeepsOwners(s, a);
      StarterKeepsServer(s, a);
      StarterKeepsChannels(s, a);
    }
  }

  lemma {:induction false} ExecKeepsInv(s: State, run: seq<Action>)
    requires Inv(s) && Legal(s, run)
    ensures Inv(Exec(s, run)) && |Exec(s, run).starters| == |s.starters|
    decreases |run|
  {
    if run != [] {
      DoKeepsInv(s, run[0]);
      ExecKeepsInv(Do(s, run[0]), run[1..]);
    }
  }

  // ---- what the handshake promises -------------------------------------------------------------

  /** However many calls of `Start` and of `WaitForServerStart` interleave, a released waiter sees the server. */
  lemma ReleasedSeesServer(starters: nat, waiters: nat, run: seq<Action>, i: nat)
    requires Legal(Init(starters, waiters), run)
    ensures var s := Exec(Init(starters, waiters), run);
      i < |s.waiters| && s.waiters[i].Answered? ==> s.waiters[i].created && s.server
  {
    ExecKeepsInv(Init(starters, waiters), run);
    AnswersCome(Init(starters, waiters), run, i);
  }

  lemma {:induction false} AnswersCome(s: State, run: seq<Action>, i: nat)
    requires Legal(s, run) && Inv(s) && (i < |s.waiters| && s.waiters[i].Answered? ==> s.server)
    ensures var end := Exec(s, run); i < |end.waiters| && end.waiters[i].Answered? ==> end.server
    decreases |run|
  {
    if run != [] {
      DoKeepsInv(s, run[0]);
      AnswersCome(Do(s, run[0]), run[1..], i);
    }
  }

  /** While nothing has crashed at most one call of `Start` gets past closing its channel. */
  lemma AtMostOneListens(s: State, i: nat, j: nat)
    requires Inv(s) && i < j < |s.starters|
    ensures !(s.starters[i].Listening? && s.starters[j].Listening?)
  {
    assert Own(s.starters[i], s.current) == NOTHING || Own(s.starters[i], s.current) != Own(s.starters[j], s.current);
  }

  /** With a single call every close meets an open channel. */
  lemma SingleStartCloses(s: State, a: Action)
    requires Inv(s) && |s.starters| == 1 && Enabled(s, a)
    ensures !Do(s, a).crashed
  {
    if a.CloseNew? {
      assert Own(s.starters[0], s.current) == s.starters[0].mine == s.current;
    }
  }

  lemma {:induction false} SingleStartRuns(s: State, run: seq<Action>)
    requires Inv(s) && Legal(s, run) && !s.crashed && |s.starters| == 1
    ensures !Exec(s, run).crashed
    decreases |run|
  {
    if run != [] {
      SingleStartCloses(s, run[0]);
      DoKeepsInv(s, run[0]);
      SingleStartRuns(Do(s, run[0]), run[1..]);
    }
  }

  /** Until it listens or the process is down, some call can take its next step. */
  lemma StartProgress(s: State, i: nat) returns (a: Action)
    requires Inv(s) && !s.crashed && i < |s.starters| && !s.starters[i].Listening?
    ensures Enabled(s, a) && !OfWaiter(a)
  {
    var j: nat := if s.holder.Some? then s.holder.value else i;
    assert Own(s.starters[j], s.current) <= s.current;
    a := match s.starters[j]
      case Idle => Lock(j)
      case Locked => CloseOld(j)
      case ClosedOld => MakeNew(j)
      case MadeNew => SetServer(j)
      case ServerSet => Unlock(j)
      case _ => CloseNew(j);
  }

  lemma SeveralStartsGoOn(s: State) returns (a: Action)
    requires Inv(s) && !s.crashed && |s.starters| > 1
    ensures Enabled(s, a) && !OfWaiter(a)
  {
    AtMostOneListens(s, 0, 1);
    a := StartProgress(s, if s.starters[0].Listening? then 1 else 0);
  }

  /**
   * In every interleaving that has run out of steps, the process has gone down by closing a closed channel
   * exactly when `Start` was called more than once.
   */
  lemma CrashesExactlyWhen(starters: nat, waiters: nat, run: seq<Action>)
    requires starters > 0 && Legal(Init(starters, waiters), run)
    requires forall a :: !OfWaiter(a) ==> !Enabled(Exec(Init(starters, waiters), run), a)
    ensures Exec(Init(starters, waiters), run).crashed <==> starters > 1
  {
    var s := Exec(Init(starters, waiters), run);
    ExecKeepsInv(Init(starters, waiters), run);
    if starters == 1 {
      SingleStartRuns(Init(starters, waiters), run);
    } else if !s.crashed {
      var a := SeveralStartsGoOn(s);
    }
  }
}
