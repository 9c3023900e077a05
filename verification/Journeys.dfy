/** Contacts' journeys through automations: executors that read, compute and write conditionally, and exits by reply. */
module Journeys {
  import opened Sql

  datatype Status = Active | Completed | Exited | Failed

  /** A row of `contact_automations`. */
  datatype Journey = Journey(
    automation: string, email: string, enteredAt: int, status: Status, node: Option<string>, exitReason: Option<string>,
    scheduledAt: Option<int>, retries: int, maxRetries: int, lastError: Option<string>)

  datatype Automation = Automation(live: bool, exitOnReply: bool, deleted: bool)

  /** What executing a node came to: its result, an error, or a node that is gone. */
  datatype Outcome =
    | Result(next: Option<string>, scheduledAt: Option<int>, status: Status, exitReason: Option<string>)
    | Error(text: string, retryAt: int)
    | NodeDeleted
    | NoNode

  /** Why a copy is about to be written: a node's result, an ending told already, or a retry of which nothing is told. */
  datatype Stage = FromResult | Told | Untold

  /** An executor's tick: the copy it works on, whether it is about to write it, and how many nodes it has done. */
  datatype Executor = Idle | Working(id: string, copy: Journey, nodes: nat) | Writing(id: string, copy: Journey, nodes: nat, stage: Stage)

  /** An end event: the ending as the copy of the announcing tick has it. */
  datatype Ending = Ending(id: string, status: Status, reason: Option<string>)

  /** `announced` lists the end events created so far. */
  datatype State = State(
    journeys: map<string, Journey>, automations: map<string, Automation>, executors: seq<Executor>,
    announced: seq<Ending>)

  datatype Action =
    | Enrol(id: string, journey: Journey)
    | Fetch(i: nat, id: string, now: int)
    | Compute(i: nat, outcome: Outcome, now: int)
    | Write(i: nat, now: int)
    | WriteFails(i: nat, text: string, retryAt: int)
    | Skip(i: nat)
    | Reply(email: string, automation: Option<string>, before: int)
    | DeleteJourneys(deleted: string)
    | ChangeAutomation(id: string, to: Automation)

  const MAX_NODES_PER_TICK := 10

  // The exit reasons the code writes itself.
  const REPLIED := "replied"
  const AUTOMATION_DELETED := "automation_deleted"
  const NODE_DELETED := "automation_node_deleted"
  const COMPLETED := "completed"

  // The only reasons a node executor gives: the status of a list entry that may not be mailed.
  const LIST_REASONS := {"unsubscribed", "bounced", "complained"}

  /**
   * A missing current node completes the journey at the start of a tick only. No node executor reports a failure as its
   * result, and those that give a reason exit.
   */
  predicate Possible(e: Executor, outcome: Outcome)
    requires e.Working?
  {
    match outcome
    case Error(_, _) => true
    case NoNode => e.copy.node.None? && e.nodes == 0
    case NodeDeleted => e.copy.node.Some?
    case Result(_, _, status, reason) =>
      e.copy.node.Some? && status != Failed && (reason.Some? ==> status.Exited? && reason.value in LIST_REASONS)
  }

  /**
   * `Skip` is the tick whose automation is no longer live when it is read again. `WriteFails` is an error of the
   * database: after a node's result the tick handles it like an error of the node, with the copy already advanced;
   * otherwise it gives up.
   */
  predicate Enabled(s: State, a: Action) {
    match a
    case Enrol(id, j) => id !in s.journeys && j.status.Active? && j.exitReason.None?
    case Fetch(i, id, now) =>
      i < |s.executors| && s.executors[i] == Idle && id in s.journeys
      && s.journeys[id].status.Active? && s.journeys[id].scheduledAt.Some? && s.journeys[id].scheduledAt.value <= now
      && s.journeys[id].automation in s.automations
      && s.automations[s.journeys[id].automation].live && !s.automations[s.journeys[id].automation].deleted
    case Skip(i) => i < |s.executors| && s.executors[i].Working? && s.executors[i].nodes == 0
    case Compute(i, outcome, _) => i < |s.executors| && s.executors[i].Working? && Possible(s.executors[i], outcome)
    case Write(i, _) => i < |s.executors| && s.executors[i].Writing?
    case WriteFails(i, _, _) => i < |s.executors| && s.executors[i].Writing?
    case _ => true
  }

  function Later(t: Option<int>, now: int): bool { t.Some? && t.value > now }

  /** The executor's copy after the node. */
  function Advance(j: Journey, outcome: Outcome, now: int): Journey {
    match outcome
    case Result(next, at, status, reason) =>
      j.(node := next, scheduledAt := at, exitReason := if reason.Some? then reason else j.exitReason,
         status := if next.None? && status.Active? && !Later(at, now) then Completed else status)
    case Error(text, retryAt) =>
      if j.retries + 1 >= j.maxRetries then j.(retries := j.retries + 1, lastError := Some(text), status := Failed)
      else j.(retries := j.retries + 1, lastError := Some(text), scheduledAt := Some(retryAt))
    case NodeDeleted => j.(status := Exited, scheduledAt := None, exitReason := Some(NODE_DELETED))
    case NoNode => j.(status := Completed, scheduledAt := None, exitReason := Some(COMPLETED))
  }

  /** Endings found outside a node's own result are announced before they are written. */
  predicate AnnouncesEarly(j: Journey, outcome: Outcome) {
    outcome.NodeDeleted? || outcome.NoNode? || (outcome.Error? && j.retries + 1 >= j.maxRetries)
  }

  /** The columns the conditional update sets; identity, recipient and entry time are not among them. */
  function Stored(row: Journey, copy: Journey): Journey {
    row.(status := copy.status, node := copy.node, exitReason := copy.exitReason, scheduledAt := copy.scheduledAt,
         retries := copy.retries, maxRetries := copy.maxRetries, lastError := copy.lastError)
  }

  /** The WHERE clause of the exit on reply. */
  predicate Replied(automations: map<string, Automation>, j: Journey, email: string, automation: Option<string>, before: int) {
    && j.email == email && j.status.Active? && j.enteredAt < before
    && j.automation in automations && automations[j.automation].exitOnReply && !automations[j.automation].deleted
    && (automation.Some? && automation.value != "" ==> j.automation == automation.value)
  }

  /** The exit on reply over all rows. */
  function ExitOnReply(journeys: map<string, Journey>, automations: map<string, Automation>, email: string,
                       automation: Option<string>, reason: string, before: int): map<string, Journey> {
    map id | id in journeys ::
      if Replied(automations, journeys[id], email, automation, before)
      then journeys[id].(status := Exited, scheduledAt := None, exitReason := Some(reason))
      else journeys[id]
  }

  function EndingOf(id: string, copy: Journey): Ending { Ending(id, copy.status, copy.exitReason) }

  /** The copy is brought up to the outcome and will be written; an ending outside a node's result is announced first. */
  function Prepare(s: State, i: nat, outcome: Outcome, now: int, nodes: nat): State
    requires i < |s.executors| && !s.executors[i].Idle?
  {
    var e := s.executors[i];
    var copy, early := Advance(e.copy, outcome, now), AnnouncesEarly(e.copy, outcome);
    s.(executors := s.executors[i := Writing(e.id, copy, nodes, if outcome.Result? then FromResult else if early then Told else Untold)],
       announced := if early then s.announced + [EndingOf(e.id, copy)] else s.announced)
  }

  function WriteBack(s: State, i: nat, now: int): State
    requires i < |s.executors| && s.executors[i].Writing?
  {
    var e := s.executors[i];
    if e.id in s.journeys && s.journeys[e.id].status.Active? then
      var ends := e.stage.FromResult? && (e.copy.status.Completed? || e.copy.status.Exited?);
      var continues := e.stage.FromResult? && !ends && !Later(e.copy.scheduledAt, now) && e.nodes < MAX_NODES_PER_TICK;
      State(s.journeys[e.id := Stored(s.journeys[e.id], e.copy)], s.automations,
            s.executors[i := if continues then Working(e.id, e.copy, e.nodes) else Idle],
            if ends then s.announced + [EndingOf(e.id, e.copy)] else s.announced)
    else s.(executors := s.executors[i := Idle])
  }

  function Do(s: State, a: Action): State
    requires Enabled(s, a)
  {
    match a
    case Enrol(id, j) => s.(journeys := s.journeys[id := j])
    case Fetch(i, id, _) => s.(executors := s.executors[i := Working(id, s.journeys[id], 0)])
    case Compute(i, outcome, now) => Prepare(s, i, outcome, now, s.executors[i].nodes + 1)
    case Write(i, now) => WriteBack(s, i, now)
    case WriteFails(i, text, retryAt) =>
      if s.executors[i].stage.FromResult? then Prepare(s, i, Error(text, retryAt), 0, s.executors[i].nodes)
      else s.(executors := s.executors[i := Idle])
    case Skip(i) => s.(executors := s.executors[i := Idle])
    case Reply(email, automation, before) =>
      s.(journeys := ExitOnReply(s.journeys, s.automations, email, automation, REPLIED, before))
    case DeleteJourneys(deleted) =>
      s.(journeys := map id | id in s.journeys ::
           if s.journeys[id].automation == deleted && s.journeys[id].status.Active?
           then s.journeys[id].(status := Exited, scheduledAt := None, exitReason := Some(AUTOMATION_DELETED))
           else s.journeys[id])
    case ChangeAutomation(id, to) => s.(automations := s.automations[id := to])
  }

  predicate Legal(s: State, run: seq<Action>)
    decreases |run|
  {
    run == [] || (Enabled(s, run[0]) && Legal(Do(s, run[0]), run[1..]))
  }

  function Exec(s: State, run: seq<Action>): State
    requires Legal(s, run)
    decreases |run|
  {
    if run == [] then s else Exec(Do(s, run[0]), run[1..])
  }

  // ---- the table as an object --------------------------------------------------------------------

  class JourneyTable {
    var journeys: map<string, Journey>
    var automations: map<string, Automation>

    /** Writes the copy back only while the row is active; tells whether it did. */
    method UpdateContactAutomationIfActive(id: string, copy: Journey) returns (updated: bool)
      modifies `journeys
      ensures updated == (id in old(journeys) && old(journeys)[id].status.Active?)
      ensures journeys == if updated then old(journeys)[id := Stored(old(journeys)[id], copy)] else old(journeys)
      ensures updated ==>
        var was := old(journeys)[id];
        journeys[id] == copy.(automation := was.automation, email := was.email, enteredAt := was.enteredAt)
    {
      updated := id in journeys && journeys[id].status == Active;
      if updated {
        journeys := journeys[id := journeys[id].(
          node := copy.node, status := copy.status, exitReason := copy.exitReason, scheduledAt := copy.scheduledAt,
          retries := copy.retries, lastError := copy.lastError, maxRetries := copy.maxRetries)];
      }
    }

    /** Exits the contact's journeys and counts them. */
    method ExitContactJourneysOnReply(email: string, automation: Option<string>, reason: string, before: int) returns (n: nat)
      modifies `journeys
      ensures journeys == ExitOnReply(old(journeys), automations, email, automation, reason, before)
      ensures journeys.Keys == old(journeys.Keys)
      ensures forall id :: id in journeys ==> var j := old(journeys)[id];
        journeys[id] ==
          if j.status == Active && j.email == email && j.enteredAt < before
            && j.automation in automations && automations[j.automation].exitOnReply && !automations[j.automation].deleted
            && (automation == None || automation == Some("") || automation == Some(j.automation))
          then j.(status := Exited, scheduledAt := None, exitReason := Some(reason)) else j
      ensures n == |set id | id in journeys && journeys[id] != old(journeys)[id]|
    {
      var asking := set a | a in automations && automations[a].exitOnReply && !automations[a].deleted;
      var hit := set id | id in journeys && journeys[id].email == email && journeys[id].status == Active
                     && journeys[id].enteredAt < before && journeys[id].automation in asking
                     && (automation == None || automation.value == "" || journeys[id].automation == automation.value);
      ghost var was := journeys;
      n := |hit|;
      journeys := map id | id in journeys ::
        if id in hit then journeys[id].(status := Exited, scheduledAt := None, exitReason := Some(reason)) else journeys[id];
      ExitsOnReply(was, automations, email, automation, reason, before, asking, hit, journeys);
    }
  }

  lemma ExitsOnReply(was: map<string, Journey>, automations: map<string, Automation>, email: string,
                     automation: Option<string>, reason: string, before: int, asking: set<string>, hit: set<string>,
                     now: map<string, Journey>)
    requires asking == set a | a in automations && automations[a].exitOnReply && !automations[a].deleted
    requires hit == set id | id in was && was[id].email == email && was[id].status == Active
                   && was[id].enteredAt < before && was[id].automation in asking
                   && (automation == None || automation.value == "" || was[id].automation == automation.value)
    requires now == map id | id in was ::
      if id in hit then was[id].(status := Exited, scheduledAt := None, exitReason := Some(reason)) else was[id]
    ensures now == ExitOnReply(was, automations, email, automation, reason, before)
    ensures forall id :: id in now ==> var j := was[id];
      now[id] ==
        if j.status == Active && j.email == email && j.enteredAt < before
          && j.automation in automations && automations[j.automation].exitOnReply && !automations[j.automation].deleted
          && (automation == None || automation == Some("") || automation == Some(j.automation))
        then j.(status := Exited, scheduledAt := None, exitReason := Some(reason)) else j
    ensures hit == set id | id in now && now[id] != was[id]
  {
    forall id | id in was ensures id in hit <==> now[id] != was[id] {
      assert id in hit ==> was[id].status == Active;
    }
  }

  // ---- an ending is final ----------------------------------------------------------------------

  predicate Ended(s: State, id: string) { id in s.journeys && !s.journeys[id].status.Active? }

  /**
   * In every interleaving of executors, replies and deletions a journey that has left `active` keeps its whole row:
   * no stale tick revives it, moves it or overwrites the reason it ended for.
   */
  lemma {:induction false} EndingIsFinal(s: State, run: seq<Action>, id: string)
    requires Legal(s, run) && Ended(s, id)
    ensures id in Exec(s, run).journeys && Exec(s, run).journeys[id] == s.journeys[id]
    decreases |run|
  {
    if run != [] {
      EndingIsFinal(Do(s, run[0]), run[1..], id);
    }
  }

  lemma {:induction false} IdentityIsFixed(s: State, run: seq<Action>, id: string)
    requires Legal(s, run) && id in s.journeys
    ensures id in Exec(s, run).journeys
    ensures var j, j' := s.journeys[id], Exec(s, run).journeys[id];
      j'.automation == j.automation && j'.email == j.email && j'.enteredAt == j.enteredAt
    decreases |run|
  {
    if run != [] {
      IdentityIsFixed(Do(s, run[0]), run[1..], id);
    }
  }

  /** The step ends the journey: a tick that computed an ending, a reply it had been entered before, or a deletion. */
  predicate Ends(s: State, a: Action, id: string)
    requires Enabled(s, a)
  {
    && id in s.journeys && s.journeys[id].status.Active?
    && match a
       case Write(i, _) => s.executors[i].id == id && !s.executors[i].copy.status.Active?
       case Reply(email, automation, before) => Replied(s.automations, s.journeys[id], email, automation, before)
       case DeleteJourneys(deleted) => s.journeys[id].automation == deleted
       case _ => false
  }

  function EndsIn(s: State, run: seq<Action>, id: string): nat
    requires Legal(s, run)
    decreases |run|
  {
    if run == [] then 0 else (if Ends(s, run[0], id) then 1 else 0) + EndsIn(Do(s, run[0]), run[1..], id)
  }

  /** Over every run a journey ends by exactly one of those steps, or it has not ended. */
  lemma {:induction false} EndsByOneStep(s: State, run: seq<Action>, id: string)
    requires Legal(s, run) && id in s.journeys
    ensures Ended(Exec(s, run), id) <==> Ended(s, id) || EndsIn(s, run, id) == 1
    ensures EndsIn(s, run, id) <= if Ended(s, id) then 0 else 1
    decreases |run|
  {
    if run != [] {
      EndsByOneStep(Do(s, run[0]), run[1..], id);
    }
  }

  // ---- replies ---------------------------------------------------------------------------------

  /** Whose journeys a reply exits, and what becomes of them. */
  lemma ReplyExitsExactlyWhen(s: State, email: string, automation: Option<string>, before: int, id: string)
    requires id in s.journeys
    ensures var j, after := s.journeys[id], Do(s, Reply(email, automation, before)).journeys;
      && after.Keys == s.journeys.Keys
      && (after[id] != j <==>
            && j.status == Active && j.email == email && j.enteredAt < before
            && j.automation in s.automations && s.automations[j.automation].exitOnReply && !s.automations[j.automation].deleted
            && (automation == None || automation == Some("") || automation == Some(j.automation)))
      && (after[id] != j ==> after[id] == j.(status := Exited, scheduledAt := None, exitReason := Some("replied")))
  {
  }

  /** Any number of replies by others leaves a contact's journeys as they were. */
  lemma {:induction false} RepliesByOthersTouchNothing(s: State, run: seq<Action>, id: string)
    requires Legal(s, run) && id in s.journeys
    requires forall a :: a in run ==> a.Reply? && a.email != s.journeys[id].email
    ensures id in Exec(s, run).journeys && Exec(s, run).journeys[id] == s.journeys[id]
    decreases |run|
  {
    if run != [] {
      assert run[0] in run;
      ReplyExitsExactlyWhen(s, run[0].email, run[0].automation, run[0].before, id);
      RepliesByOthersTouchNothing(Do(s, run[0]), run[1..], id);
    }
  }

  /**
   * A journey a reply has exited stays exited for that reason, whatever executors had in flight at that moment
   * and whatever happens later.
   */
  lemma ReplyWins(s: State, email: string, automation: Option<string>, before: int, id: string, run: seq<Action>)
    requires id in s.journeys && Legal(Do(s, Reply(email, automation, before)), run)
    requires Do(s, Reply(email, automation, before)).journeys[id] != s.journeys[id]
    ensures var j, end := s.journeys[id], Exec(Do(s, Reply(email, automation, before)), run).journeys;
      id in end && end[id] == j.(status := Exited, scheduledAt := None, exitReason := Some(REPLIED)) && j.email == email
  {
    ReplyExitsExactlyWhen(s, email, automation, before, id);
    EndingIsFinal(Do(s, Reply(email, automation, before)), run, id);
  }

  /** Deleting an automation exits exactly its own active journeys. */
  lemma DeletionExitsExactlyWhen(s: State, automation: string, id: string)
    requires id in s.journeys
    ensures var j, after := s.journeys[id], Do(s, DeleteJourneys(automation)).journeys;
      && after.Keys == s.journeys.Keys
      && after[id] == if j.status == Active && j.automation == automation
                      then j.(status := Exited, scheduledAt := None, exitReason := Some("automation_deleted")) else j
  {
  }

  // ---- ticks -----------------------------------------------------------------------------------

  predicate WithinTick(e: Executor) { (e.Working? ==> e.nodes < 10) && (e.Writing? ==> 1 <= e.nodes <= 10) }

  /** No tick executes more than ten nodes, in any run of any number of executors. */
  lemma {:induction false} AtMostTenNodes(s: State, run: seq<Action>)
    requires Legal(s, run) && forall i :: 0 <= i < |s.executors| ==> WithinTick(s.executors[i])
    ensures |Exec(s, run).executors| == |s.executors|
    ensures forall i :: 0 <= i < |s.executors| ==> WithinTick(Exec(s, run).executors[i])
    decreases |run|
  {
    if run != [] {
      AtMostTenNodes(Do(s, run[0]), run[1..]);
    }
  }

  /** What a tick stores of a node's outcome while the row is active, read off the rows before and after. */
  lemma TickStores(s: State, i: nat, outcome: Outcome, now: int, later: int)
    requires Enabled(s, Compute(i, outcome, now)) && s.executors[i].id in s.journeys
    requires s.executors[i].copy == s.journeys[s.executors[i].id] && s.journeys[s.executors[i].id].status.Active?
    ensures var j, after := s.journeys[s.executors[i].id], Do(Do(s, Compute(i, outcome, now)), Write(i, later)).journeys;
      && (forall other :: other in s.journeys && other != s.executors[i].id ==> other in after && after[other] == s.journeys[other])
      && s.executors[i].id in after
      && after[s.executors[i].id] == match outcome
           case Result(next, at, status, reason) =>
             j.(node := next, scheduledAt := at,
                status := if next == None && status == Active && (at == None || at.value <= now) then Completed else status,
                exitReason := if reason == None then j.exitReason else reason)
           case Error(text, retryAt) =>
             (if j.retries + 1 < j.maxRetries
              then j.(retries := j.retries + 1, lastError := Some(text), scheduledAt := Some(retryAt))
              else j.(retries := j.retries + 1, lastError := Some(text), status := Failed))
           case NodeDeleted => j.(status := Exited, scheduledAt := None, exitReason := Some("automation_node_deleted"))
           case NoNode => j.(status := Completed, scheduledAt := None, exitReason := Some("completed"))
  {
  }

  predicate Held(s: State, id: string) { exists i :: 0 <= i < |s.executors| && !s.executors[i].Idle? && s.executors[i].id == id }

  /** No step of the run is a reply, a deletion, or a change of the automation. */
  predicate LeftAlone(run: seq<Action>, automation: string) {
    forall a :: a in run ==> !a.Reply? && !a.DeleteJourneys? && (a.ChangeAutomation? ==> a.id != automation)
  }

  /** The automation is not live, or the journey sleeps beyond every fetch of the run. */
  predicate NotDue(s: State, run: seq<Action>, id: string)
    requires id in s.journeys
  {
    var j := s.journeys[id];
    || j.automation !in s.automations || !s.automations[j.automation].live || s.automations[j.automation].deleted
    || j.scheduledAt == None || forall a :: a in run && a.Fetch? && a.id == id ==> a.now < j.scheduledAt.value
  }

  /** While its automation is not live, or until its time has come, a journey no tick holds is frozen, whatever the executors do. */
  lemma {:induction false} FrozenUntilDue(s: State, run: seq<Action>, id: string)
    requires Legal(s, run) && id in s.journeys && !Held(s, id) && LeftAlone(run, s.journeys[id].automation)
    requires NotDue(s, run, id)
    ensures id in Exec(s, run).journeys && Exec(s, run).journeys[id] == s.journeys[id] && !Held(Exec(s, run), id)
    decreases |run|
  {
    if run != [] {
      var s' := Do(s, run[0]);
      assert run[0] in run;
      forall i | 0 <= i < |s'.executors| ensures s'.executors[i].Idle? || s'.executors[i].id != id {
        assert s.executors[i].Idle? || s.executors[i].id != id;
      }
      FrozenUntilDue(s', run[1..], id);
    }
  }
}
