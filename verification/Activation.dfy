/** Activate, pause and update of one automation: an optimistic lock on the status, and a trigger installed beside it. */
module Activation {
  import opened Sql

  datatype Status = Draft | Live | Paused

  /** What the row says, the trigger left aside; `config` is all the trigger is compiled from. */
  datatype Row = Row(status: Status, config: string)

  datatype Request = Activate | Pause | Update(config: string)

  /** Where one call is. `read` is the row it decided on, `wrote` the row it wants to store. */
  datatype Pc =
    | Idle
    | Deciding(read: Row, wrote: Row)
    | Installing(read: Row, wrote: Row)
    | Undoing(read: Row, wrote: Row)
    | Dropping(won: bool)
    | Done(ok: bool)

  datatype Call = Call(request: Request, pc: Pc)

  /**
   * A committed status write by call `i`, from the status it takes the row to have: through the status predicate,
   * or the unconditional one that undoes its own write after a failed install.
   */
  datatype Entry = Won(i: nat, from: Status, to: Status) | Undone(i: nat, from: Status, to: Status)

  datatype State = State(row: Row, trigger: Option<string>, calls: seq<Call>, log: seq<Entry>)

  datatype Action =
    | Read(i: nat) | Write(i: nat) | Install(i: nat, ok: bool) | Undo(i: nat, ok: bool) | Drop(i: nat, ok: bool)

  function Init(row: Row, trigger: Option<string>, requests: seq<Request>): State {
    State(row, trigger, seq(|requests|, i requires 0 <= i < |requests| => Call(requests[i], Idle)), [])
  }

  predicate Enabled(s: State, a: Action) {
    a.i < |s.calls| &&
    var pc := s.calls[a.i].pc;
    match a
    case Read(_) => pc == Idle
    case Write(_) => pc.Deciding?
    case Install(_, _) => pc.Installing?
    case Undo(_, _) => pc.Undoing?
    case Drop(_, _) => pc.Dropping?
  }

  /** What the call makes of the row it has read. */
  function Decide(request: Request, read: Row): Pc {
    match request
    case Activate => if read.status.Live? then Done(false) else Deciding(read, read.(status := Live))
    case Pause =>
      (match read.status
       case Live => Deciding(read, read.(status := Paused))
       case Paused => Dropping(false)
       case Draft => Done(false))
    case Update(config) => Deciding(read, read.(config := config))
  }

  /** What follows a write that found the status it expected. */
  function AfterWin(request: Request, read: Row, wrote: Row): Pc {
    match request
    case Activate => Installing(read, wrote)
    case Pause => Dropping(true)
    case Update(_) => if read.status.Live? && read.config != wrote.config then Installing(read, wrote) else Done(true)
  }

  function At(s: State, i: nat, pc: Pc): State
    requires i < |s.calls|
  {
    s.(calls := s.calls[i := s.calls[i].(pc := pc)])
  }

  function Do(s: State, a: Action): State
    requires Enabled(s, a)
  {
    var c := s.calls[a.i];
    match a
    case Read(i) => At(s, i, Decide(c.request, s.row))
    case Write(i) =>
      if s.row.status == c.pc.read.status
      then At(s, i, AfterWin(c.request, c.pc.read, c.pc.wrote))
             .(row := c.pc.wrote, log := s.log + [Won(i, c.pc.read.status, c.pc.wrote.status)])
      else At(s, i, Done(false))
    case Install(i, ok) =>
      if ok then At(s, i, Done(true)).(trigger := Some(c.pc.wrote.config)) else At(s, i, Undoing(c.pc.read, c.pc.wrote))
    case Undo(i, ok) =>
      if ok then At(s, i, Done(false)).(row := c.pc.read, log := s.log + [Undone(i, c.pc.wrote.status, c.pc.read.status)])
      else At(s, i, Done(false))
    case Drop(i, ok) => if ok then At(s, i, Done(true)).(trigger := None) else At(s, i, Done(false))
  }

  predicate Legal(s: State, run: seq<Action>)
    decreases |run|
  {
    run == [] || (Enabled(s, run[0]) && Legal(Do(s, run[0]), run[1..]))
  }

  function Exec(s: State, run: seq<Action>): State
    requires Legal(s, run)
    decreases |run|
  {
    if run == [] then s else Exec(Do(s, run[0]), run[1..])
  }

  // ---- one chain of status writes --------------------------------------------------------------

  /** The status after the writes of the log. */
  function Replay(start: Status, log: seq<Entry>): Status {
    if log == [] then start else log[|log| - 1].to
  }

  /** Every write starts from where the one before it ended. */
  predicate Chained(start: Status, log: seq<Entry>) {
    forall k :: 0 <= k < |log| ==> log[k].from == Replay(start, log[..k])
  }

  /** Who is about to touch the trigger has won a write, except a pause that read the automation as paused. */
  predicate Entitled(s: State, i: nat)
    requires i < |s.calls|
  {
    var pc := s.calls[i].pc;
    (pc.Installing? || pc.Undoing? || (pc.Dropping? && pc.won)) ==> exists k :: 0 <= k < |s.log| && s.log[k].Won? && s.log[k].i == i
  }

  ghost predicate LogInv(start: Status, s: State) {
    Replay(start, s.log) == s.row.status && forall i :: 0 <= i < |s.calls| ==> Entitled(s, i)
  }

  lemma ChainSnoc(start: Status, log: seq<Entry>, e: Entry)
    requires Chained(start, log)
    ensures Chained(start, log + [e]) <==> e.from == Replay(start, log)
    ensures Replay(start, log + [e]) == e.to
  {
    var longer := log + [e];
    assert longer[..|log|] == log && longer[|log|] == e;
    forall k | 0 <= k < |log| ensures longer[k].from == Replay(start, longer[..k]) {
      assert longer[..k] == log[..k];
    }
  }

  lemma ChainPrefix(start: Status, log: seq<Entry>, longer: seq<Entry>)
    requires log <= longer && Chained(start, longer)
    ensures Chained(start, log)
  {
    forall k | 0 <= k < |log| ensures log[k].from == Replay(start, log[..k]) {
      assert log[..k] == longer[..k] && longer[k] == log[k];
    }
  }

  lemma EntitledAfter(s: State, a: Action, j: nat)
    requires Enabled(s, a) && j < |s.calls| && Entitled(s, j)
    ensures Entitled(Do(s, a), j)
  {
    var s' := Do(s, a);
    assert s.log <= s'.log;
    if exists k :: 0 <= k < |s.log| && s.log[k].Won? && s.log[k].i == j {
      var k :| 0 <= k < |s.log| && s.log[k].Won? && s.log[k].i == j;
      assert s'.log[k] == s.log[k];
    } else if a.Write? && a.i == j && |s'.log| > |s.log| {
      assert s'.log[|s.log|].Won? && s'.log[|s.log|].i == j;
    }
  }

  lemma DoKeepsLog(start: Status, s: State, a: Action)
    requires LogInv(start, s) && Enabled(s, a)
    ensures LogInv(start, Do(s, a)) && s.log <= Do(s, a).log
  {
    forall j | 0 <= j < |s.calls| ensures Entitled(Do(s, a), j) { EntitledAfter(s, a, j); }
  }

  /** The unconditional write meets a status that is not the one this call wrote: somebody has moved it since. */
  predicate UndoesOthers(s: State, a: Action)
    requires Enabled(s, a)
  {
    a.Undo? && a.ok && s.row.status != s.calls[a.i].pc.wrote.status
  }

  predicate UndoesOnlyOwn(s: State, run: seq<Action>)
    requires Legal(s, run)
    decreases |run|
  {
    run == [] || (!UndoesOthers(s, run[0]) && UndoesOnlyOwn(Do(s, run[0]), run[1..]))
  }

  lemma StepChains(start: Status, s: State, a: Action)
    requires LogInv(start, s) && Chained(start, s.log) && Enabled(s, a)
    ensures Chained(start, Do(s, a).log) <==> !UndoesOthers(s, a)
  {
    var c := s.calls[a.i];
    if a.Write? && s.row.status == c.pc.read.status {
      ChainSnoc(start, s.log, Won(a.i, c.pc.read.status, c.pc.wrote.status));
    } else if a.Undo? && a.ok {
      ChainSnoc(start, s.log, Undone(a.i, c.pc.wrote.status, c.pc.read.status));
    }
  }

  lemma {:induction false} LogGrows(start: Status, s: State, run: seq<Action>)
    requires LogInv(start, s) && Legal(s, run)
    ensures LogInv(start, Exec(s, run)) && s.log <= Exec(s, run).log
    decreases |run|
  {
    if run != [] {
      DoKeepsLog(start, s, run[0]);
      LogGrows(start, Do(s, run[0]), run[1..]);
    }
  }

  /**
   * In every interleaving of any number of calls all committed status writes, the undoing ones included, form one
   * chain exactly when no undo meets a status other than the one its call wrote; and only winners touch the
   * trigger, apart from a pause of what it read as paused.
   */
  lemma {:induction false} StatusWritesChainExactlyWhen(start: Status, s: State, run: seq<Action>)
    requires LogInv(start, s) && Chained(start, s.log) && Legal(s, run)
    ensures Chained(start, Exec(s, run).log) <==> UndoesOnlyOwn(s, run)
    ensures LogInv(start, Exec(s, run))
    decreases |run|
  {
    LogGrows(start, s, run);
    if run != [] {
      var s' := Do(s, run[0]);
      DoKeepsLog(start, s, run[0]);
      StepChains(start, s, run[0]);
      LogGrows(start, s', run[1..]);
      if UndoesOthers(s, run[0]) {
        if Chained(start, Exec(s, run).log) {
          ChainPrefix(start, s'.log, Exec(s, run).log);
        }
      } else {
        StatusWritesChainExactlyWhen(start, s', run[1..]);
      }
    }
  }

  lemma InitChains(row: Row, trigger: Option<string>, requests: seq<Request>)
    ensures LogInv(row.status, Init(row, trigger, requests)) && Chained(row.status, Init(row, trigger, requests).log)
  {
  }

  // ---- what the callers are told ---------------------------------------------------------------

  predicate HasWon(log: seq<Entry>, i: nat) { exists k :: 0 <= k < |log| && log[k].Won? && log[k].i == i }

  predicate FailsFor(a: Action, i: nat) { a.i == i && (a.Install? || a.Drop?) && !a.ok }

  predicate DropsFor(a: Action, i: nat) { a.i == i && a.Drop? }

  predicate Earned(request: Request, won: bool, failed: bool, dropped: bool) {
    !failed && if request.Pause? then dropped else won
  }

  /** What a call has behind it at each point. */
  predicate Tracked(c: Call, won: bool, failed: bool, dropped: bool) {
    match c.pc
    case Idle => !won && !failed && !dropped
    case Deciding(_, _) => !won && !failed && !dropped
    case Installing(_, _) => won && !failed && !dropped && !c.request.Pause?
    case Undoing(_, _) => won && failed && !dropped && !c.request.Pause?
    case Dropping(_) => !failed && !dropped && c.request.Pause?
    case Done(ok) => ok <==> Earned(c.request, won, failed, dropped)
  }

  lemma WonAfter(s: State, a: Action, i: nat)
    requires Enabled(s, a)
    ensures HasWon(Do(s, a).log, i) <==>
      HasWon(s.log, i) || (a.Write? && a.i == i && s.row.status == s.calls[i].pc.read.status)
  {
    var s' := Do(s, a);
    assert s.log <= s'.log;
    if HasWon(s.log, i) {
      var k :| 0 <= k < |s.log| && s.log[k].Won? && s.log[k].i == i;
      assert s'.log[k] == s.log[k];
    }
    if |s'.log| > |s.log| {
      assert s'.log[|s.log|].Won? <==> a.Write?;
    }
  }

  lemma TrackedAfter(s: State, a: Action, i: nat, failed: bool, dropped: bool)
    requires Enabled(s, a) && i < |s.calls| && Tracked(s.calls[i], HasWon(s.log, i), failed, dropped)
    ensures Tracked(Do(s, a).calls[i], HasWon(Do(s, a).log, i), failed || FailsFor(a, i), dropped || DropsFor(a, i))
  {
    WonAfter(s, a, i);
  }

  predicate AnyFails(run: seq<Action>, i: nat) { exists a :: a in run && FailsFor(a, i) }

  predicate AnyDrops(run: seq<Action>, i: nat) { exists a :: a in run && DropsFor(a, i) }

  lemma AnyOfCons(run: seq<Action>, i: nat)
    requires run != []
    ensures AnyFails(run, i) <==> FailsFor(run[0], i) || AnyFails(run[1..], i)
    ensures AnyDrops(run, i) <==> DropsFor(run[0], i) || AnyDrops(run[1..], i)
  {
    assert forall a :: a in run <==> a == run[0] || a in run[1..];
  }

  lemma {:induction false} RequestsStay(s: State, run: seq<Action>, i: nat)
    requires Legal(s, run) && i < |s.calls|
    ensures |Exec(s, run).calls| == |s.calls| && Exec(s, run).calls[i].request == s.calls[i].request
    decreases |run|
  {
    if run != [] {
      RequestsStay(Do(s, run[0]), run[1..], i);
    }
  }

  lemma {:induction false} TrackedOverRuns(s: State, run: seq<Action>, i: nat, failed: bool, dropped: bool)
    requires Legal(s, run) && i < |s.calls| && Tracked(s.calls[i], HasWon(s.log, i), failed, dropped)
    ensures |Exec(s, run).calls| == |s.calls|
    ensures Tracked(Exec(s, run).calls[i], HasWon(Exec(s, run).log, i), failed || AnyFails(run, i), dropped || AnyDrops(run, i))
    decreases |run|
  {
    RequestsStay(s, run, i);
    if run != [] {
      TrackedAfter(s, run[0], i, failed, dropped);
      AnyOfCons(run, i);
      TrackedOverRuns(Do(s, run[0]), run[1..], i, failed || FailsFor(run[0], i), dropped || DropsFor(run[0], i));
    }
  }

  /**
   * In every interleaving of any number of calls: an activation or an update that has returned reports success exactly
   * if it won its status write and no install of its own failed; a pause, exactly if it dropped the trigger.
   */
  lemma ReportsSuccessExactlyWhen(row: Row, trigger: Option<string>, requests: seq<Request>, run: seq<Action>, i: nat)
    requires i < |requests| && Legal(Init(row, trigger, requests), run)
    ensures var end := Exec(Init(row, trigger, requests), run);
      |end.calls| == |requests| && (end.calls[i].pc.Done? ==>
        (end.calls[i].pc.ok <==>
          && (forall a :: a in run && a.i == i && (a.Install? || a.Drop?) ==> a.ok)
          && if requests[i].Pause? then exists a :: a in run && a.i == i && a.Drop?
             else exists k :: 0 <= k < |end.log| && end.log[k].Won? && end.log[k].i == i))
  {
    RequestsStay(Init(row, trigger, requests), run, i);
    TrackedOverRuns(Init(row, trigger, requests), run, i, false, false);
    assert AnyFails(run, i) <==> !(forall a :: a in run && a.i == i && (a.Install? || a.Drop?) ==> a.ok);
    assert AnyDrops(run, i) <==> exists a :: a in run && a.i == i && a.Drop?;
  }

  // ---- a live automation has its trigger -------------------------------------------------------

  /** The call will still install the trigger, or take its status write back. */
  predicate Pending(c: Call) { c.pc.Installing? || c.pc.Undoing? }

  /** A live automation enrols by its stored configuration, or somebody is still at work on that. */
  predicate Armed(s: State) {
    s.row.status.Live? ==> s.trigger == Some(s.row.config) || exists j :: 0 <= j < |s.calls| && Pending(s.calls[j])
  }

  predicate AtRest(c: Call) { c.pc == Idle || c.pc.Done? }

  /** No call is between its start and its return. */
  predicate Quiet(s: State) { forall j :: 0 <= j < |s.calls| ==> AtRest(s.calls[j]) }

  // ---- one call at a time ----------------------------------------------------------------------

  /** Everybody else is before or after its call, and what call `i` knows is still so. */
  predicate Solo(s: State, i: nat) {
    && i < |s.calls|
    && (forall j :: 0 <= j < |s.calls| && j != i ==> AtRest(s.calls[j]))
    && match s.calls[i].pc
       case Idle => Armed(s)
       case Deciding(_, _) => Armed(s) && s.calls[i].pc == Decide(s.calls[i].request, s.row)
       case Installing(read, wrote) => s.row == wrote && (read.status.Live? ==> s.trigger == Some(read.config))
       case Undoing(read, _) => read.status.Live? ==> s.trigger == Some(read.config)
       case Dropping(_) => s.row.status == Paused
       case Done(_) => Armed(s)
  }

  /** A step of a call that nobody interleaves with keeps the automation armed, whether its DDL succeeds or fails. */
  lemma SoloStaysArmed(s: State, i: nat, a: Action)
    requires Solo(s, i) && Armed(s) && Enabled(s, a) && a.i == i && !(a.Undo? && !a.ok)
    ensures Solo(Do(s, a), i) && Armed(Do(s, a))
  {
    var s' := Do(s, a);
    if Pending(s'.calls[i]) {
      assert Armed(s');
    } else if !Pending(s.calls[i]) && s.row.status.Live? {
      assert s.trigger == Some(s.row.config);
    }
  }

  /** No two calls overlap, and no undo fails. */
  predicate Serial(s: State, run: seq<Action>)
    requires Legal(s, run)
    decreases |run|
  {
    run == [] ||
    ((forall j :: 0 <= j < |s.calls| && j != run[0].i ==> AtRest(s.calls[j]))
     && !(run[0].Undo? && !run[0].ok)
     && Serial(Do(s, run[0]), run[1..]))
  }

  lemma {:induction false} SerialKeepsSolo(s: State, i: nat, run: seq<Action>)
    requires Solo(s, i) && Armed(s) && Legal(s, run) && Serial(s, run)
    ensures Armed(Exec(s, run))
    decreases |run|
  {
    if run != [] {
      var a := run[0];
      assert a.i != i ==> AtRest(s.calls[i]) && AtRest(s.calls[a.i]);
      SoloStaysArmed(s, a.i, a);
      SerialKeepsSolo(Do(s, a), a.i, run[1..]);
    }
  }

  /** Any number of calls one after the other, their DDL succeeding or failing, leave an armed automation armed throughout. */
  lemma SerialCallsStayArmed(s: State, run: seq<Action>)
    requires Armed(s) && Quiet(s) && Legal(s, run) && Serial(s, run)
    ensures Armed(Exec(s, run))
  {
    if run != [] {
      SerialKeepsSolo(s, run[0].i, run);
    }
  }

  function Next(pc: Pc, ddl: bool, undo: bool): Action
    requires !pc.Done?
  {
    match pc
    case Idle => Read(0)
    case Deciding(_, _) => Write(0)
    case Installing(_, _) => Install(0, ddl)
    case Undoing(_, _) => Undo(0, undo)
    case Dropping(_) => Drop(0, ddl)
  }

  function Left(pc: Pc): nat {
    match pc
    case Idle => 4 case Deciding(_, _) => 3 case Installing(_, _) => 2 case Undoing(_, _) => 1 case Dropping(_) => 1 case Done(_) => 0
  }

  function One(s: State, ddl: bool, undo: bool): (s': State)
    requires |s.calls| == 1
    ensures |s'.calls| == 1
    ensures Left(s'.calls[0].pc) < Left(s.calls[0].pc) || (s' == s && s.calls[0].pc.Done?)
  {
    if s.calls[0].pc.Done? then s else Do(s, Next(s.calls[0].pc, ddl, undo))
  }

  /** A single call taken to its end, its DDL and its undo succeeding or not. */
  function Alone(s: State, ddl: bool, undo: bool): (end: State)
    requires |s.calls| == 1
    ensures |end.calls| == 1 && end.calls[0].pc.Done?
    decreases Left(s.calls[0].pc)
  {
    if s.calls[0].pc.Done? then s else Alone(One(s, ddl, undo), ddl, undo)
  }

  /** No call takes more than four steps. */
  lemma AloneInFour(s: State, ddl: bool, undo: bool)
    requires |s.calls| == 1
    ensures Alone(s, ddl, undo) == One(One(One(One(s, ddl, undo), ddl, undo), ddl, undo), ddl, undo)
  {
    var a := One(s, ddl, undo);
    var b := One(a, ddl, undo);
    var c := One(b, ddl, undo);
    assert Alone(s, ddl, undo) == Alone(a, ddl, undo);
    assert Alone(a, ddl, undo) == Alone(b, ddl, undo);
    assert Alone(b, ddl, undo) == Alone(c, ddl, undo);
    assert Alone(c, ddl, undo) == Alone(One(c, ddl, undo), ddl, undo);
    assert One(c, ddl, undo).calls[0].pc.Done?;
  }

  /** The calls as the service makes them, on a row and a trigger that nobody else touches meanwhile. */
  class AutomationService {
    var row: Row
    var trigger: Option<string>

    ghost function Before(request: Request): State
      reads this
    {
      State(row, trigger, [Call(request, Idle)], [])
    }

    ghost predicate Ends(end: State, ok: bool)
      reads this
    {
      |end.calls| == 1 && end.calls[0].pc == Done(ok) && end.row == row && end.trigger == trigger
    }

    method UpdateIfStatus(wrote: Row, expected: Status) returns (updated: bool)
      modifies `row
      ensures updated == (old(row).status == expected)
      ensures row == if updated then wrote else old(row)
    {
      updated := row.status == expected;
      if updated {
        row := wrote;
      }
    }

    /** The last part of an install: the trigger of `wrote`, or the row of `read` again. */
    method InstallOrUndo(read: Row, wrote: Row, ddl: bool, undo: bool) returns (ok: bool)
      modifies this
      ensures ok == ddl
      ensures trigger == if ddl then Some(wrote.config) else old(trigger)
      ensures row == if !ddl && undo then read else old(row)
    {
      ok := ddl;
      if ddl {
        trigger := Some(wrote.config);
      } else if undo {
        row := read;
      }
    }

    method Activate(ddl: bool, undo: bool) returns (ok: bool)
      modifies this
      ensures Ends(Alone(old(Before(Request.Activate)), ddl, undo), ok)
      ensures ok == (old(row).status != Live && ddl)
      ensures ok ==> row == old(row).(status := Live) && trigger == Some(row.config)
      ensures !ok && (undo || old(row).status == Live) ==> row == old(row)
      ensures !ok ==> trigger == old(trigger)
    {
      AloneInFour(Before(Request.Activate), ddl, undo);
      var read := row;
      if read.status == Live {
        return false;
      }
      var updated := UpdateIfStatus(read.(status := Live), read.status);
      if !updated {
        return false;
      }
      ok := InstallOrUndo(read, read.(status := Live), ddl, undo);
    }

    method Pause(ddl: bool) returns (ok: bool)
      modifies this
      ensures Ends(Alone(old(Before(Request.Pause)), ddl, true), ok)
      ensures ok == (old(row).status != Draft && ddl) && trigger == if ok then None else old(trigger)
      ensures row == if old(row).status == Live then old(row).(status := Paused) else old(row)
    {
      AloneInFour(Before(Request.Pause), ddl, true);
      var read := row;
      if read.status != Live && read.status != Paused {
        return false;
      }
      if read.status == Live {
        var updated := UpdateIfStatus(read.(status := Paused), Live);
        if !updated {
          return false;
        }
      }
      ok := ddl;
      if ddl {
        trigger := None;
      }
    }

    method Update(config: string, ddl: bool, undo: bool) returns (ok: bool)
      modifies this
      ensures Ends(Alone(old(Before(Request.Update(config))), ddl, undo), ok)
      ensures ok == (ddl || old(row).status != Live || old(row).config == config)
      ensures ok || !undo ==> row == old(row).(config := config)
      ensures !ok && undo ==> row == old(row)
      ensures trigger == if ok && old(row).status == Live && old(row).config != config then Some(config) else old(trigger)
    {
      AloneInFour(Before(Request.Update(config)), ddl, undo);
      var read := row;
      var updated := UpdateIfStatus(read.(config := config), read.status);
      if !updated {
        return false;
      }
      if read.status != Live || read.config == config {
        return true;
      }
      ok := InstallOrUndo(read, read.(config := config), ddl, undo);
    }
  }

  /** So a call made alone on an armed automation leaves it armed, unless its undo fails. */
  lemma {:induction false} AloneStaysArmed(s: State, ddl: bool, undo: bool)
    requires |s.calls| == 1 && Solo(s, 0) && Armed(s) && undo
    ensures Armed(Alone(s, ddl, undo))
    decreases Left(s.calls[0].pc)
  {
    if !s.calls[0].pc.Done? {
      var a := Next(s.calls[0].pc, ddl, undo);
      SoloStaysArmed(s, 0, a);
      AloneStaysArmed(Do(s, a), ddl, undo);
    }
  }
}
