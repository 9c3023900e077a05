/** Bounces and complaints pushed into `contact_lists`: the worst event wins, in any order and any grouping. */
module Suppression {
  import opened Sql
  import opened Timeline
  import opened Triggers
  import opened Workspace

  /** Severity of a status: complained over bounced over everything else. */
  function Rank(status: string): nat {
    if status == COMPLAINED then 2 else if status == BOUNCED then 1 else 0
  }

  /** The status after events of severity up to `r`. */
  function Raise(status: string, r: nat): string {
    if r >= 2 then COMPLAINED
    else if r == 1 && Rank(status) == 0 then BOUNCED
    else status
  }

  function Max(a: nat, b: nat): nat { if a < b then b else a }

  /** The severity one update of a message carries to a list entry: only NULL to non-NULL transitions count. */
  function UpdateSeverity(before: Message, after: Message, key: ListKey): nat {
    if NewComplaint(before, after) && key == (after.email, after.listId.value) then 2
    else if NewBounce(before, after) && key == (after.email, after.listId.value) then 1
    else 0
  }

  function StepSeverity(db: Db, s: Stamped, key: ListKey): nat {
    if Applies(db, s.write) && s.write.UpdateMessage?
    then UpdateSeverity(db.messages[s.write.id], s.write.message, key)
    else 0
  }

  /** The two conditional updates of the status trigger amount to raising the status once. */
  lemma PushRaises(lists: map<ListKey, ListEntry>, before: Message, after: Message, key: ListKey)
    requires key in lists
    ensures var lists' := AfterBounce(AfterComplaint(lists, before, after), before, after);
      key in lists' && lists'[key].status == Raise(lists[key].status, UpdateSeverity(before, after, key))
  {
  }

  /** No write but a direct update of the entry itself does anything to its status except raise it. */
  lemma StepRaises(db: Db, s: Stamped, key: ListKey)
    requires key in db.lists
    requires !(s.write.UpdateListEntry? && s.write.list == key)
    ensures key in Step(db, s).lists
    ensures Step(db, s).lists[key].status == Raise(db.lists[key].status, StepSeverity(db, s, key))
  {
    if Applies(db, s.write) {
      StepProjects(db, s);
      if s.write.UpdateMessage? {
        PushRaises(db.lists, db.messages[s.write.id], s.write.message, key);
      }
    }
  }

  /** The worst severity among the transitions of a run. */
  function RunSeverity(db: Db, ws: seq<Stamped>, key: ListKey): nat
    decreases |ws|
  {
    if ws == [] then 0 else Max(StepSeverity(db, ws[0], key), RunSeverity(Step(db, ws[0]), ws[1..], key))
  }

  /**
   * Over every run that does not write the entry directly, its final status is the initial one raised by the
   * worst transition of the run, and its rank never drops.
   */
  lemma {:induction false} RunRaises(db: Db, ws: seq<Stamped>, key: ListKey)
    requires key in db.lists
    requires forall s :: s in ws ==> !(s.write.UpdateListEntry? && s.write.list == key)
    ensures key in Run(db, ws).lists
    ensures Run(db, ws).lists[key].status == Raise(db.lists[key].status, RunSeverity(db, ws, key))
    ensures Rank(Run(db, ws).lists[key].status) >= Rank(db.lists[key].status)
    decreases |ws|
  {
    if ws != [] {
      assert ws[0] in ws;
      StepRaises(db, ws[0], key);
      RunRaises(Step(db, ws[0]), ws[1..], key);
    }
  }

  // ---- webhook events, in any order and grouping ------------------------------------------

  /** One UPDATE that stamps a complaint, a bounce or both on a message, each only where the column is NULL. */
  datatype Report = Report(id: string, complaint: Option<int>, bounce: Option<int>, now: int)

  function FirstOf(stored: Option<int>, reported: Option<int>): Option<int> {
    if stored.Some? then stored else reported
  }

  function Reported(m: Message, r: Report): Message {
    m.(complainedAt := FirstOf(m.complainedAt, r.complaint), bouncedAt := FirstOf(m.bouncedAt, r.bounce),
       updatedAt := r.now)
  }

  function Receive(db: Db, r: Report): Db {
    if r.id in db.messages
    then Step(db, Stamped(UpdateMessage(r.id, Reported(db.messages[r.id], r)), r.now))
    else db
  }

  function ReceiveAll(db: Db, rs: seq<Report>): Db
    decreases |rs|
  {
    if rs == [] then db else ReceiveAll(Receive(db, rs[0]), rs[1..])
  }

  /** What a batch of reports says, forgetting order, grouping, repetition and times. */
  function Events(rs: seq<Report>): set<(string, bool)> {
    (set r | r in rs && r.complaint.Some? :: (r.id, true)) + (set r | r in rs && r.bounce.Some? :: (r.id, false))
  }

  predicate Concerns(db: Db, id: string, key: ListKey) {
    id in db.messages && db.messages[id].email == key.0 && db.messages[id].listId == Some(key.1)
  }

  /** The event is news for the entry: its message is addressed to it and the column is still NULL. */
  predicate News(db: Db, event: (string, bool), key: ListKey) {
    Concerns(db, event.0, key) &&
    if event.1 then db.messages[event.0].complainedAt.None? else db.messages[event.0].bouncedAt.None?
  }

  function EventRank(event: (string, bool)): nat { if event.1 then 2 else 1 }

  /** The worst news in a set of events. */
  ghost function Worst(db: Db, events: set<(string, bool)>, key: ListKey): nat {
    if exists e :: e in events && News(db, e, key) && e.1 then 2
    else if exists e :: e in events && News(db, e, key) then 1
    else 0
  }

  lemma ReceiveMessages(db: Db, r: Report)
    ensures Receive(db, r).messages ==
      if r.id in db.messages then db.messages[r.id := Reported(db.messages[r.id], r)] else db.messages
  {
    if r.id in db.messages {
      StepProjects(db, Stamped(UpdateMessage(r.id, Reported(db.messages[r.id], r)), r.now));
    }
  }

  lemma EventsOfOne(r: Report, e: (string, bool))
    ensures e in Events([r]) <==> e.0 == r.id && (if e.1 then r.complaint.Some? else r.bounce.Some?)
  {
    assert r in [r];
  }

  /** The severity of the update a report causes is the worst of its news. */
  lemma ReportSeverity(db: Db, r: Report, key: ListKey)
    ensures Worst(db, Events([r]), key) ==
      if r.id in db.messages then UpdateSeverity(db.messages[r.id], Reported(db.messages[r.id], r), key) else 0
  {
    var events := Events([r]);
    EventsOfOne(r, (r.id, true));
    EventsOfOne(r, (r.id, false));
    forall e | e in events ensures e == (r.id, true) || e == (r.id, false) { EventsOfOne(r, e); }
    assert News(db, (r.id, true), key) || News(db, (r.id, false), key) ==> r.id in db.messages;
  }

  lemma ReceiveRaises(db: Db, r: Report, key: ListKey)
    requires key in db.lists
    ensures key in Receive(db, r).lists
    ensures Receive(db, r).lists[key].status == Raise(db.lists[key].status, Worst(db, Events([r]), key))
  {
    ReportSeverity(db, r, key);
    if r.id in db.messages {
      StepRaises(db, Stamped(UpdateMessage(r.id, Reported(db.messages[r.id], r)), r.now), key);
    }
  }

  /** After a report the same events are news, except those the report itself delivered. */
  lemma NewsAfter(db: Db, r: Report, e: (string, bool), key: ListKey)
    ensures News(Receive(db, r), e, key) <==> News(db, e, key) && e !in Events([r])
  {
    ReceiveMessages(db, r);
    EventsOfOne(r, e);
  }

  /** Worst is a maximum, whatever the database a later event meets. */
  lemma WorstSplits(db: Db, r: Report, rest: set<(string, bool)>, key: ListKey)
    ensures Max(Worst(db, Events([r]), key), Worst(Receive(db, r), rest, key)) == Worst(db, Events([r]) + rest, key)
  {
    var first, db', all := Events([r]), Receive(db, r), Events([r]) + rest;
    forall e ensures News(db', e, key) <==> News(db, e, key) && e !in first { NewsAfter(db, r, e, key); }
    forall e | e in all && News(db, e, key)
      ensures (e in first && News(db, e, key)) || (e in rest && News(db', e, key))
    {
    }
    WorstBounds(db, all, key);
    WorstBounds(db, first, key);
    WorstBounds(db', rest, key);
  }

  /** `Worst` bounds every piece of news and, unless zero, is reached. */
  lemma WorstBounds(db: Db, events: set<(string, bool)>, key: ListKey)
    ensures forall e :: e in events && News(db, e, key) ==> EventRank(e) <= Worst(db, events, key)
    ensures Worst(db, events, key) > 0 ==> exists e :: e in events && News(db, e, key) && EventRank(e) == Worst(db, events, key)
  {
    if e :| e in events && News(db, e, key) && e.1 {
      assert EventRank(e) == 2;
    } else if e :| e in events && News(db, e, key) {
      assert EventRank(e) == 1;
    }
  }

  lemma EventsSplit(rs: seq<Report>)
    requires rs != []
    ensures Events(rs) == Events([rs[0]]) + Events(rs[1..])
  {
    forall e ensures e in Events(rs) <==> e in Events([rs[0]]) + Events(rs[1..]) {
      assert forall r :: r in rs <==> r in [rs[0]] || r in rs[1..];
    }
  }

  /** The final status is a function of the initial one and of the set of events, nothing else. */
  lemma {:induction false} FinalStatus(db: Db, rs: seq<Report>, key: ListKey)
    requires key in db.lists
    ensures key in ReceiveAll(db, rs).lists
    ensures ReceiveAll(db, rs).lists[key].status == Raise(db.lists[key].status, Worst(db, Events(rs), key))
    decreases |rs|
  {
    if rs != [] {
      var r, mid := rs[0], Receive(db, rs[0]);
      ReceiveRaises(db, r, key);
      FinalStatus(mid, rs[1..], key);
      WorstSplits(db, r, Events(rs[1..]), key);
      EventsSplit(rs);
    }
  }

  /** Two ways of delivering the same events, reordered, regrouped or repeated, leave every list entry alike. */
  lemma DeliveryOrderIrrelevant(db: Db, a: seq<Report>, b: seq<Report>, key: ListKey)
    requires Events(a) == Events(b) && key in db.lists
    ensures key in ReceiveAll(db, a).lists && key in ReceiveAll(db, b).lists
    ensures ReceiveAll(db, a).lists[key].status == ReceiveAll(db, b).lists[key].status
  {
    FinalStatus(db, a, key);
    FinalStatus(db, b, key);
  }
}
