/** Which sets of calls can leave a live automation without the trigger of its configuration, their DDL succeeding. */
module ActivationRaces {
  import opened Sql
  import opened Activation

  // ---- the condition ---------------------------------------------------------------------------

  predicate AnyActivate(rs: seq<Request>) { exists i :: 0 <= i < |rs| && rs[i].Activate? }

  predicate AnyPause(rs: seq<Request>) { exists i :: 0 <= i < |rs| && rs[i].Pause? }

  predicate TwoActivates(rs: seq<Request>) { exists i, j :: 0 <= i < j < |rs| && rs[i].Activate? && rs[j].Activate? }

  /** An update to a configuration other than `config`. */
  predicate ChangesFrom(rs: seq<Request>, config: string) {
    exists i :: 0 <= i < |rs| && rs[i].Update? && rs[i].config != config
  }

  predicate UpdatesDiffer(rs: seq<Request>) {
    exists i, j :: 0 <= i < |rs| && 0 <= j < |rs| && rs[i].Update? && rs[j].Update? && rs[i].config != rs[j].config
  }

  /** What can go wrong between these calls on a row like this. */
  predicate CanRace(row: Row, rs: seq<Request>) {
    match row.status
    case Live => (AnyActivate(rs) && AnyPause(rs)) || UpdatesDiffer(rs)
    case Paused => AnyActivate(rs) && (AnyPause(rs) || ChangesFrom(rs, row.config))
    case Draft => AnyActivate(rs) && (ChangesFrom(rs, row.config) || (AnyPause(rs) && TwoActivates(rs)))
  }

  predicate Succeeds(a: Action) { (a.Install? || a.Drop?) ==> a.ok }

  predicate AllSucceed(run: seq<Action>) { forall a :: a in run ==> Succeeds(a) }

  // ---- building runs ---------------------------------------------------------------------------

  lemma {:induction false} Extend(s: State, run: seq<Action>, a: Action)
    requires Legal(s, run) && Enabled(Exec(s, run), a)
    ensures Legal(s, run + [a]) && Exec(s, run + [a]) == Do(Exec(s, run), a)
    decreases |run|
  {
    if run == [] {
      assert run + [a] == [a] && [a][1..] == [];
    } else {
      Extend(Do(s, run[0]), run[1..], a);
      assert (run + [a])[1..] == run[1..] + [a];
    }
  }

  lemma {:induction false} Concat(s: State, a: seq<Action>, b: seq<Action>)
    requires Legal(s, a) && Legal(Exec(s, a), b)
    ensures Legal(s, a + b) && Exec(s, a + b) == Exec(Exec(s, a), b)
    decreases |a|
  {
    if a == [] {
      assert a + b == b;
    } else {
      Concat(Do(s, a[0]), a[1..], b);
      assert (a + b)[1..] == a[1..] + b;
    }
  }

  lemma Steps2(s: State, a: Action, b: Action)
    requires Enabled(s, a) && Enabled(Do(s, a), b)
    ensures Legal(s, [a, b]) && Exec(s, [a, b]) == Do(Do(s, a), b)
  {
    Extend(s, [], a);
    Extend(s, [a], b);
    assert [] + [a] == [a] && [a] + [b] == [a, b];
  }

  lemma Steps3(s: State, a: Action, b: Action, c: Action)
    requires Enabled(s, a) && Enabled(Do(s, a), b) && Enabled(Do(Do(s, a), b), c)
    ensures Legal(s, [a, b, c]) && Exec(s, [a, b, c]) == Do(Do(Do(s, a), b), c)
  {
    Steps2(s, a, b);
    Extend(s, [a, b], c);
    assert [a, b] + [c] == [a, b, c];
  }

  /** What is wrong in the end. */
  predicate Unarmed(s: State) { Quiet(s) && s.row.status == Live && s.trigger != Some(s.row.config) }

  predicate Waits(s: State, i: nat, r: Request) { i < |s.calls| && s.calls[i] == Call(r, Idle) }

  /** The call runs from start to end while all others rest: an activation of a row that is not live. */
  lemma ActivateAlone(s: State, a: nat) returns (run: seq<Action>)
    requires Quiet(s) && Waits(s, a, Activate) && s.row.status != Live
    ensures Legal(s, run) && AllSucceed(run)
    ensures var end := Exec(s, run);
      && end.row == s.row.(status := Live) && end.trigger == Some(s.row.config)
      && end.calls == s.calls[a := Call(Activate, Done(true))]
  {
    run := [Read(a), Write(a), Install(a, true)];
    Steps3(s, Read(a), Write(a), Install(a, true));
    assert Exec(s, run).calls == s.calls[a := Call(Activate, Done(true))];
  }

  /** A pause gets as far as its drop: it has paused the row, or found it paused. */
  lemma PauseUpToDrop(s: State, p: nat) returns (run: seq<Action>)
    requires Quiet(s) && Waits(s, p, Pause) && s.row.status != Draft
    ensures Legal(s, run) && AllSucceed(run)
    ensures var end := Exec(s, run);
      && end.row == s.row.(status := Paused) && end.trigger == s.trigger
      && p < |end.calls| && end.calls[p].pc.Dropping? && end.calls == s.calls[p := end.calls[p]]
  {
    if s.row.status == Live {
      run := [Read(p), Write(p)];
      Steps2(s, Read(p), Write(p));
      assert Exec(s, run).calls == s.calls[p := Call(Pause, Dropping(true))];
    } else {
      run := [Read(p)];
      Extend(s, [], Read(p));
      assert [] + [Read(p)] == run;
    }
  }

  /** A pause waits for its drop while an activation comes and goes. */
  lemma PauseOvertaken(s: State, p: nat, a: nat) returns (run: seq<Action>)
    requires Quiet(s) && Waits(s, p, Pause) && Waits(s, a, Activate) && s.row.status != Draft
    ensures Legal(s, run) && AllSucceed(run) && Unarmed(Exec(s, run))
    ensures Exec(s, run).trigger == None
  {
    var first := PauseUpToDrop(s, p);
    var t := Exec(s, first);
    assert Waits(t, a, Activate);
    Steps3(t, Read(a), Write(a), Install(a, true));
    var mid := [Read(a), Write(a), Install(a, true)];
    Concat(s, first, mid);
    Extend(s, first + mid, Drop(p, true));
    run := first + mid + [Drop(p, true)];
  }

  /** An update gets as far as its write, having read the row as it is. */
  lemma TwoReadsOneWrite(s: State, i: nat, j: nat, one: string, two: string) returns (t: State, run: seq<Action>)
    requires Waits(s, i, Update(one)) && Waits(s, j, Update(two)) && i != j && s.row.status == Live && one != s.row.config
    ensures Legal(s, run) && AllSucceed(run) && Exec(s, run) == t
    ensures t.row == Row(Live, one) && t.trigger == s.trigger && |t.calls| == |s.calls|
    ensures t.calls == s.calls[i := Call(Update(one), Installing(s.row, Row(Live, one)))]
                              [j := Call(Update(two), Deciding(s.row, Row(Live, two)))]
  {
    run := [Read(i), Read(j), Write(i)];
    Steps3(s, Read(i), Read(j), Write(i));
    t := Exec(s, run);
  }

  /** Two updates of a live automation both win, the status being the same; the overwritten one installs last. */
  lemma UpdatesOvertake(s: State, i: nat, j: nat, one: string, two: string) returns (run: seq<Action>)
    requires Quiet(s) && Waits(s, i, Update(one)) && Waits(s, j, Update(two)) && s.row.status == Live
    requires one != two && one != s.row.config
    ensures Legal(s, run) && AllSucceed(run) && Unarmed(Exec(s, run))
    ensures Exec(s, run).row == Row(Live, two) && Exec(s, run).trigger == Some(one)
  {
    var t, first := TwoReadsOneWrite(s, i, j, one, two);
    Extend(s, first, Write(j));
    run := first + [Write(j)];
    if two != s.row.config {
      Extend(s, run, Install(j, true));
      run := run + [Install(j, true)];
    }
    Extend(s, run, Install(i, true));
    run := run + [Install(i, true)];
  }

  /** An activation waits for its install while an update comes and goes. */
  lemma ActivationOvertaken(s: State, a: nat, u: nat, config: string) returns (run: seq<Action>)
    requires Quiet(s) && Waits(s, a, Activate) && Waits(s, u, Update(config)) && s.row.status != Live && config != s.row.config
    ensures Legal(s, run) && AllSucceed(run) && Unarmed(Exec(s, run))
    ensures Exec(s, run).row == Row(Live, config) && Exec(s, run).trigger == Some(s.row.config)
  {
    Steps2(s, Read(a), Write(a));
    var first := [Read(a), Write(a)];
    var t := Exec(s, first);
    Steps3(t, Read(u), Write(u), Install(u, true));
    var mid := [Read(u), Write(u), Install(u, true)];
    Concat(s, first, mid);
    Extend(s, first + mid, Install(a, true));
    run := first + mid + [Install(a, true)];
  }

  /** From a draft a first activation has to come before the pause that a second one overtakes. */
  lemma SecondActivationOvertakes(s: State, a: nat, b: nat, p: nat) returns (run: seq<Action>)
    requires Quiet(s) && Waits(s, a, Activate) && Waits(s, b, Activate) && Waits(s, p, Pause) && a != b && s.row.status == Draft
    ensures Legal(s, run) && AllSucceed(run) && Unarmed(Exec(s, run))
  {
    var first := ActivateAlone(s, a);
    var t := Exec(s, first);
    assert Quiet(t) && Waits(t, b, Activate) && Waits(t, p, Pause);
    var rest := PauseOvertaken(t, p, b);
    Concat(s, first, rest);
    run := first + rest;
  }

  /** Every set of calls the condition names has an interleaving that ends unarmed. */
  lemma RacesHappen(row: Row, trigger: Option<string>, rs: seq<Request>) returns (run: seq<Action>)
    requires CanRace(row, rs)
    ensures var s := Init(row, trigger, rs); Legal(s, run) && AllSucceed(run) && Unarmed(Exec(s, run))
  {
    var s := Init(row, trigger, rs);
    if row.status != Draft && AnyActivate(rs) && AnyPause(rs) {
      var a :| 0 <= a < |rs| && rs[a].Activate?;
      var p :| 0 <= p < |rs| && rs[p].Pause?;
      run := PauseOvertaken(s, p, a);
    } else if row.status == Live {
      var i, j :| 0 <= i < |rs| && 0 <= j < |rs| && rs[i].Update? && rs[j].Update? && rs[i].config != rs[j].config;
      if rs[i].config != row.config {
        run := UpdatesOvertake(s, i, j, rs[i].config, rs[j].config);
      } else {
        run := UpdatesOvertake(s, j, i, rs[j].config, rs[i].config);
      }
    } else if ChangesFrom(rs, row.config) {
      var a :| 0 <= a < |rs| && rs[a].Activate?;
      var u :| 0 <= u < |rs| && rs[u].Update? && rs[u].config != row.config;
      run := ActivationOvertaken(s, a, u, rs[u].config);
    } else {
      var p :| 0 <= p < |rs| && rs[p].Pause?;
      var a, b :| 0 <= a < b < |rs| && rs[a].Activate? && rs[b].Activate?;
      run := SecondActivationOvertakes(s, a, b, p);
    }
  }

  // ---- calls that cannot race ------------------------------------------------------------------

  predicate SomeInstalling(s: State) { exists j :: 0 <= j < |s.calls| && s.calls[j].pc.Installing? }

  /** The row is live only with its trigger installed or about to be. */
  predicate Covered(s: State, config: string) {
    s.row.status.Live? ==> s.trigger == Some(config) || SomeInstalling(s)
  }

  lemma SomeInstallingAfter(s: State, a: Action)
    requires Enabled(s, a)
    ensures Do(s, a).calls[a.i].pc.Installing? ==> SomeInstalling(Do(s, a))
    ensures SomeInstalling(s) && !s.calls[a.i].pc.Installing? ==> SomeInstalling(Do(s, a))
  {
    if SomeInstalling(s) && !s.calls[a.i].pc.Installing? {
      var j :| 0 <= j < |s.calls| && s.calls[j].pc.Installing?;
      assert Do(s, a).calls[j].pc.Installing?;
    }
  }

  // Without an activation a row that is not live never becomes so.

  predicate DormantCall(c: Call) {
    && !c.request.Activate?
    && match c.pc
       case Deciding(read, wrote) => read.status != Live && wrote.status != Live
       case Installing(_, _) => false
       case Undoing(_, _) => false
       case _ => true
  }

  predicate Dormant(s: State) {
    s.row.status != Live && forall i :: 0 <= i < |s.calls| ==> DormantCall(s.calls[i])
  }

  lemma StepKeepsDormant(s: State, a: Action)
    requires Dormant(s) && Enabled(s, a)
    ensures Dormant(Do(s, a))
  {
  }

  // Without a pause, or without an activation, a live row has its trigger while all updates agree on `config`.

  predicate AgreedCall(c: Call, row: Row, first: string, config: string) {
    && (c.request.Activate? ==> AtRest(c) && row.status == Live)
    && (c.request.Update? ==> c.request.config == config)
    && match c.pc
       case Deciding(read, wrote) =>
         && read.status != Draft
         && (if c.request.Pause? then read.status == Live && wrote.status == Paused
             else wrote == read.(config := config)
                  && (read.status == Live ==> read.config == first || read.config == config)
                  && (read == Row(Live, config) ==> row.status == Paused || row.config == config))
       case Installing(read, wrote) =>
         c.request.Update? && wrote == Row(Live, config) && (row.status == Paused || row.config == config)
       case Undoing(_, _) => false
       case Dropping(_) => row.status == Paused
       case _ => true
  }

  predicate Agreed(s: State, first: string, config: string) {
    && s.row.status != Draft
    && (s.row.status == Live ==>
         (s.row.config == first && s.trigger == Some(first))
         || (s.row.config == config && (s.trigger == Some(config) || SomeInstalling(s))))
    && (AnyPauseIn(s) ==> forall i :: 0 <= i < |s.calls| ==> !s.calls[i].request.Activate?)
    && forall i :: 0 <= i < |s.calls| ==> AgreedCall(s.calls[i], s.row, first, config)
  }

  predicate AnyPauseIn(s: State) { exists i :: 0 <= i < |s.calls| && s.calls[i].request.Pause? }

  lemma StepKeepsAgreed(s: State, a: Action, first: string, config: string)
    requires Agreed(s, first, config) && Enabled(s, a) && Succeeds(a)
    ensures Agreed(Do(s, a), first, config)
  {
    var s', c := Do(s, a), s.calls[a.i];
    assert AgreedCall(c, s.row, first, config);
    SomeInstallingAfter(s, a);
    forall i | 0 <= i < |s.calls| ensures AgreedCall(s'.calls[i], s'.row, first, config) {
      assert AgreedCall(s.calls[i], s.row, first, config);
      if c.request.Pause? {
        assert AnyPauseIn(s);
      }
    }
    assert AnyPauseIn(s') ==> AnyPauseIn(s);
  }

  // Without a pause a row that is not live becomes so by an activation, while no update changes the configuration.

  predicate SteadyCall(c: Call, start: Row) {
    && !c.request.Pause?
    && (c.request.Update? ==> c.request.config == start.config)
    && match c.pc
       case Deciding(read, wrote) =>
         && read.config == start.config && wrote.config == start.config
         && (if c.request.Activate? then read.status == start.status && wrote.status == Live
             else wrote.status == read.status)
       case Installing(_, wrote) => wrote.config == start.config
       case Undoing(_, _) => false
       case Dropping(_) => false
       case _ => true
  }

  predicate Steady(s: State, start: Row) {
    && start.status != Live && s.row.config == start.config && (s.row.status == start.status || s.row.status == Live)
    && Covered(s, start.config)
    && forall i :: 0 <= i < |s.calls| ==> SteadyCall(s.calls[i], start)
  }

  lemma StepKeepsSteady(s: State, a: Action, start: Row)
    requires Steady(s, start) && Enabled(s, a) && Succeeds(a)
    ensures Steady(Do(s, a), start)
  {
    assert SteadyCall(s.calls[a.i], start);
    SomeInstallingAfter(s, a);
  }

  // From a draft a single activation leads to live once, and pauses only away from it.

  predicate OnceCall(c: Call, isActivation: bool, row: Row, start: Row) {
    && (c.request.Activate? <==> isActivation)
    && (c.request.Update? ==> c.request.config == start.config)
    && (isActivation ==>
          if row.status == Draft then c.pc.Idle? || c.pc.Deciding? else c.pc.Installing? || c.pc.Done?)
    && match c.pc
       case Deciding(read, wrote) =>
         && read.config == start.config && wrote.config == start.config
         && (match c.request
             case Activate => read.status == Draft && wrote.status == Live
             case Pause => read.status == Live && wrote.status == Paused
             case Update(_) => wrote.status == read.status)
       case Installing(_, wrote) => isActivation && wrote.config == start.config
       case Undoing(_, _) => false
       case Dropping(_) => row.status == Paused
       case _ => true
  }

  predicate Once(s: State, k: nat, start: Row) {
    && k < |s.calls| && s.row.config == start.config
    && (s.row.status == Live ==> s.trigger == Some(start.config) || s.calls[k].pc.Installing?)
    && forall i :: 0 <= i < |s.calls| ==> OnceCall(s.calls[i], i == k, s.row, start)
  }

  lemma StepKeepsOnce(s: State, a: Action, k: nat, start: Row)
    requires Once(s, k, start) && Enabled(s, a) && Succeeds(a)
    ensures Once(Do(s, a), k, start)
  {
    var s' := Do(s, a);
    assert OnceCall(s.calls[a.i], a.i == k, s.row, start) && OnceCall(s.calls[k], true, s.row, start);
    forall i | 0 <= i < |s.calls| ensures OnceCall(s'.calls[i], i == k, s'.row, start) {
      assert OnceCall(s.calls[i], i == k, s.row, start);
    }
  }

  // ---- over runs -------------------------------------------------------------------------------

  /** One of the four reasons why the calls cannot race. */
  datatype Reason = Asleep | Agreement(first: string, config: string) | Steadiness(start: Row) | Single(k: nat, start: Row)

  predicate Safe(s: State, r: Reason) {
    match r
    case Asleep => Dormant(s)
    case Agreement(first, config) => Agreed(s, first, config)
    case Steadiness(start) => Steady(s, start)
    case Single(k, start) => Once(s, k, start)
  }

  lemma {:induction false} RunKeepsSafe(s: State, r: Reason, run: seq<Action>)
    requires Safe(s, r) && Legal(s, run) && AllSucceed(run)
    ensures Safe(Exec(s, run), r)
    decreases |run|
  {
    if run != [] {
      assert run[0] in run;
      match r {
        case Asleep => StepKeepsDormant(s, run[0]);
        case Agreement(first, config) => StepKeepsAgreed(s, run[0], first, config);
        case Steadiness(start) => StepKeepsSteady(s, run[0], start);
        case Single(k, start) => StepKeepsOnce(s, run[0], k, start);
      }
      RunKeepsSafe(Do(s, run[0]), r, run[1..]);
    }
  }

  lemma SafeEndsArmed(s: State, r: Reason)
    requires Safe(s, r) && Quiet(s)
    ensures !Unarmed(s)
  {
    assert !SomeInstalling(s);
    if r.Single? {
      assert AtRest(s.calls[r.k]);
    }
  }

  lemma NoRaceIsSafe(row: Row, trigger: Option<string>, rs: seq<Request>) returns (r: Reason)
    requires !CanRace(row, rs) && Armed(Init(row, trigger, rs))
    ensures Safe(Init(row, trigger, rs), r)
  {
    if row.status == Live {
      var config := row.config;
      if i :| 0 <= i < |rs| && rs[i].Update? {
        config := rs[i].config;
      }
      r := Agreement(row.config, config);
    } else if !AnyActivate(rs) {
      r := Asleep;
    } else if !AnyPause(rs) {
      r := Steadiness(row);
    } else {
      var k :| 0 <= k < |rs| && rs[k].Activate?;
      r := Single(k, row);
    }
  }

  /**
   * For any number of concurrent calls whose DDL succeeds, on any armed automation: some interleaving leaves a live
   * automation without the trigger of its configuration, all started calls having returned, exactly when the
   * requests and the stored row can race.
   */
  lemma RacesExactlyWhen(row: Row, trigger: Option<string>, rs: seq<Request>)
    requires Armed(Init(row, trigger, rs))
    ensures (exists run :: Legal(Init(row, trigger, rs), run) && AllSucceed(run) && Unarmed(Exec(Init(row, trigger, rs), run)))
       <==> CanRace(row, rs)
  {
    var s := Init(row, trigger, rs);
    if CanRace(row, rs) {
      var run := RacesHappen(row, trigger, rs);
    } else {
      var r := NoRaceIsSafe(row, trigger, rs);
      forall run | Legal(s, run) && AllSucceed(run) ensures !Unarmed(Exec(s, run)) {
        RunKeepsSafe(s, r, run);
        if Quiet(Exec(s, run)) {
          SafeEndsArmed(Exec(s, run), r);
        }
      }
    }
  }

  /** An update has written and not yet installed; a pause has come and gone. */
  lemma PausedMeanwhile(row: Row, one: string) returns (run: seq<Action>)
    requires row.status == Live && one != row.config
    ensures var s := Init(row, Some(row.config), [Update(one), Pause]);
      Legal(s, run) && Exec(s, run) == State(Row(Paused, one), None,
        [Call(Update(one), Installing(row, Row(Live, one))), Call(Pause, Done(true))], [Won(0, Live, Live), Won(1, Live, Paused)])
  {
    var s := Init(row, Some(row.config), [Update(one), Pause]);
    Steps2(s, Read(0), Write(0));
    var t := Exec(s, [Read(0), Write(0)]);
    assert t == State(Row(Live, one), Some(row.config),
                      [Call(Update(one), Installing(row, Row(Live, one))), Call(Pause, Idle)], [Won(0, Live, Live)]);
    Steps3(t, Read(1), Write(1), Drop(1, true));
    Concat(s, [Read(0), Write(0)], [Read(1), Write(1), Drop(1, true)]);
    run := [Read(0), Write(0)] + [Read(1), Write(1), Drop(1, true)];
  }

  lemma UndoneAfterwards(row: Row, one: string) returns (run: seq<Action>)
    requires row.status == Live && one != row.config
    ensures var s := Init(row, Some(row.config), [Update(one), Pause]);
      Legal(s, run) && Exec(s, run) == State(row, None, [Call(Update(one), Done(false)), Call(Pause, Done(true))],
                                             [Won(0, Live, Live), Won(1, Live, Paused), Undone(0, Live, Live)])
  {
    var s := Init(row, Some(row.config), [Update(one), Pause]);
    var first := PausedMeanwhile(row, one);
    Steps2(Exec(s, first), Install(0, false), Undo(0, true));
    Concat(s, first, [Install(0, false), Undo(0, true)]);
    run := first + [Install(0, false), Undo(0, true)];
  }

  /**
   * When an install fails, undoing it can revert a completed pause: a live automation without a trigger, although
   * the pause won its write and dropped the trigger.
   */
  lemma PauseReverted(row: Row, one: string) returns (run: seq<Action>)
    requires row.status == Live && one != row.config
    ensures var s := Init(row, Some(row.config), [Update(one), Pause]);
      && Legal(s, run) && !UndoesOnlyOwn(s, run) && Unarmed(Exec(s, run))
      && Exec(s, run).row == row && Exec(s, run).trigger == None && |Exec(s, run).calls| == 2 && Exec(s, run).calls[1].pc == Done(true)
  {
    run := UndoneAfterwards(row, one);
    InitChains(row, Some(row.config), [Update(one), Pause]);
    StatusWritesChainExactlyWhen(Live, Init(row, Some(row.config), [Update(one), Pause]), run);
    UndoneBreaksChain();
  }

  lemma UndoneBreaksChain()
    ensures !Chained(Live, [Won(0, Live, Live), Won(1, Live, Paused), Undone(0, Live, Live)])
  {
    var log := [Won(0, Live, Live), Won(1, Live, Paused), Undone(0, Live, Live)];
    assert log[..2] == [Won(0, Live, Live), Won(1, Live, Paused)] && log[2].from == Live;
  }
}
