/**
 The watcher's crash-tolerant spool of payment notifications: a table keyed by message id, filled
 by Telegram callbacks and drained, one row at a time, under a process-wide lock.
 */
module Spool {
  import opened Options

  type MsgId = int

  datatype Row = Row(text: string, createdAt: int)

  type Table = map<MsgId, Row>

  /** ORDER BY created_at, msg_id. */
  predicate Precedes(t: Table, i: MsgId, j: MsgId)
    requires i in t && j in t
  {
    t[i].createdAt < t[j].createdAt || (t[i].createdAt == t[j].createdAt && i < j)
  }

  predicate IsFirst(t: Table, i: MsgId) { i in t && forall j :: j in t && j != i ==> Precedes(t, i, j) }

  /** INSERT OR IGNORE. */
  function Inserted(t: Table, id: MsgId, text: string, now: int): Table {
    if id in t then t else t[id := Row(text, now)]
  }

  lemma MemberOf<T>(s: set<T>) returns (x: T)
    requires s != {}
    ensures x in s
  {
    x :| x in s;
  }

  // ---------------------------------------------------------------- the spool object

  class DurableSpool {
    var table: Table

    constructor ()
      ensures table == map[]
    {
      table := map[];
    }

    method Put(id: MsgId, text: string, now: int)
      modifies this
      ensures table == Inserted(old(table), id, text, now)
    {
      if id !in table {
        table := table[id := Row(text, now)];
      }
    }

    method First() returns (first: Option<(MsgId, string)>)
      ensures first.None? <==> table == map[]
      ensures first.Some? ==> IsFirst(table, first.value.0) && first.value.1 == table[first.value.0].text
      ensures first.Some? ==>
                forall j :: j in table ==>
                  && table[first.value.0].createdAt <= table[j].createdAt
                  && (table[first.value.0].createdAt == table[j].createdAt ==> first.value.0 <= j)
    {
      var ids := table.Keys;
      if ids == {} {
        return None;
      }
      ghost var someone := MemberOf(ids);
      var best: MsgId :| best in ids;
      ids := ids - {best};
      while ids != {}
        invariant best in table && ids <= table.Keys
        invariant forall j :: j in table && j != best && j !in ids ==> Precedes(table, best, j)
        decreases ids
      {
        ghost var another := MemberOf(ids);
        var j: MsgId :| j in ids;
        if Precedes(table, j, best) {
          best := j;
        }
        ids := ids - {j};
      }
      return Some((best, table[best].text));
    }

    method Ack(id: MsgId)
      modifies this
      ensures table == old(table) - {id}
    {
      table := table - {id};
    }
  }

  ghost function IdsOf(sent: seq<(MsgId, string)>): set<MsgId> { set k | 0 <= k < |sent| :: sent[k].0 }

  /** What a drain delivered: rows of the table with their own text, oldest first, nothing skipped. */
  ghost predicate Delivered(t: Table, sent: seq<(MsgId, string)>) {
    && (forall k :: 0 <= k < |sent| ==> sent[k].0 in t && t[sent[k].0].text == sent[k].1)
    && (forall k, l :: 0 <= k < l < |sent| ==> Precedes(t, sent[k].0, sent[l].0))
    && (forall k, j :: 0 <= k < |sent| && j in t && j !in IdsOf(sent) ==> Precedes(t, sent[k].0, j))
  }

  /**
   One uninterrupted drain; replies[n] is whether the n-th ingest succeeds. It delivers the oldest
   rows in order, removes exactly those, and reports true only with the table empty. It delivers a row
   only if its ingest succeeded, and stops short only at one that failed.
   */
  method Drain(spool: DurableSpool, replies: seq<bool>) returns (drained: bool, sent: seq<(MsgId, string)>)
    modifies spool
    ensures Delivered(old(spool.table), sent)
    ensures spool.table == old(spool.table) - IdsOf(sent)
    ensures drained <==> spool.table == map[]
    ensures |sent| <= |replies| && forall k :: 0 <= k < |sent| ==> replies[k]
    ensures !drained ==> |sent| == |replies| || !replies[|sent|]
  {
    sent := [];
    ghost var t := spool.table;
    while true
      invariant Delivered(t, sent) && spool.table == t - IdsOf(sent)
      invariant |sent| <= |replies| && forall k :: 0 <= k < |sent| ==> replies[k]
      decreases spool.table.Keys
    {
      var pending := spool.First();
      if pending.None? {
        return true, sent;
      }
      var (id, text) := pending.value;
      if |sent| >= |replies| || !replies[|sent|] {
        return false, sent;
      }
      spool.Ack(id);
      ghost var before := sent;
      sent := sent + [(id, text)];
      assert IdsOf(sent) == IdsOf(before) + {id} by {
        assert forall k :: 0 <= k < |before| ==> sent[k] == before[k];
        assert sent[|before|].0 == id;
      }
      forall k, j | 0 <= k < |sent| && j in t && j !in IdsOf(sent) ensures Precedes(t, sent[k].0, j) {
        assert j in t - IdsOf(before);
        if k < |before| { assert Precedes(t, before[k].0, j); } else { assert Precedes(t, id, j); }
      }
      forall k, l | 0 <= k < l < |sent| ensures Precedes(t, sent[k].0, sent[l].0) {
        if l == |before| { assert id in t && id !in IdsOf(before); }
      }
    }
  }

  // ---------------------------------------------------------------- every interleaving, with crashes

  /** Where the lock holder is; a crash or a failed ingest drops it back to Idle. */
  datatype Pc = Idle | Draining | Got(id: MsgId, text: string) | Accepted(id: MsgId, text: string)

  /** `ever` and `accepted` are history: ids ever put, and messages the API took. */
  datatype State = State(table: Table, pc: Pc, ever: set<MsgId>, accepted: set<(MsgId, string)>)

  /** LoseReply: the API took the message but the answer never arrived. */
  datatype Act =
    | Put(id: MsgId, text: string, now: int)
    | Lock | Read(id: MsgId) | Take | Refuse | LoseReply | Ack | Crash

  const EMPTY: State := State(map[], Idle, {}, {})

  function Step(s: State, act: Act): State {
    match act
    case Put(id, text, now) => s.(table := Inserted(s.table, id, text, now), ever := s.ever + {id})
    case Lock => if s.pc.Idle? then s.(pc := Draining) else s
    case Read(id) =>
      if !s.pc.Draining? then s
      else if s.table == map[] then s.(pc := Idle)
      else if IsFirst(s.table, id) then s.(pc := Got(id, s.table[id].text))
      else s
    case Take =>
      if s.pc.Got? then s.(pc := Accepted(s.pc.id, s.pc.text), accepted := s.accepted + {(s.pc.id, s.pc.text)}) else s
    case Refuse => if s.pc.Got? then s.(pc := Idle) else s
    case LoseReply => if s.pc.Got? then s.(pc := Idle, accepted := s.accepted + {(s.pc.id, s.pc.text)}) else s
    case Ack => if s.pc.Accepted? then s.(table := s.table - {s.pc.id}, pc := Draining) else s
    case Crash => s.(pc := Idle)
  }

  function Run(s: State, acts: seq<Act>): State {
    if acts == [] then s else Step(Run(s, acts[..|acts|-1]), acts[|acts|-1])
  }

  ghost predicate WasAccepted(s: State, id: MsgId) { exists text :: (id, text) in s.accepted }

  ghost predicate Inv(s: State) {
    && (s.pc.Got? || s.pc.Accepted? ==> s.pc.id in s.table && s.table[s.pc.id].text == s.pc.text)
    && (s.pc.Accepted? ==> (s.pc.id, s.pc.text) in s.accepted)
    && (forall id :: id in s.ever ==> id in s.table || WasAccepted(s, id))
  }

  lemma StepKeepsInv(s: State, act: Act)
    requires Inv(s)
    ensures Inv(Step(s, act))
  {
    var r := Step(s, act);
    forall id | id in r.ever ensures id in r.table || WasAccepted(r, id) {
      if id in s.ever && id !in s.table {
        var text :| (id, text) in s.accepted;
        assert (id, text) in r.accepted;
      } else if id in s.table && id !in r.table {
        assert (id, s.pc.text) in r.accepted;
      }
    }
  }

  lemma {:induction false} RunKeepsInv(acts: seq<Act>)
    ensures Inv(Run(EMPTY, acts))
  {
    if acts != [] {
      RunKeepsInv(acts[..|acts|-1]);
      StepKeepsInv(Run(EMPTY, acts[..|acts|-1]), acts[|acts|-1]);
    }
  }

  lemma {:induction false} PutsAreRemembered(acts: seq<Act>, i: nat)
    requires i < |acts| && acts[i].Put?
    ensures acts[i].id in Run(EMPTY, acts).ever
  {
    if i < |acts| - 1 { PutsAreRemembered(acts[..|acts|-1], i); }
  }

  /** At least once: every message id ever put is still queued or was accepted, through any crashes. */
  lemma AtLeastOnce(acts: seq<Act>, i: nat)
    requires i < |acts| && acts[i].Put?
    ensures var s := Run(EMPTY, acts);
            acts[i].id in s.table || exists text :: (acts[i].id, text) in s.accepted
  {
    RunKeepsInv(acts);
    PutsAreRemembered(acts, i);
    assert acts[i].id in Run(EMPTY, acts).table || WasAccepted(Run(EMPTY, acts), acts[i].id);
  }

  /** A row leaves the table only after that row's own text was accepted, and is never rewritten while it waits. */
  lemma RemovedOnlyWhenAccepted(acts: seq<Act>, act: Act, id: MsgId)
    requires id in Run(EMPTY, acts).table
    ensures var s, r := Run(EMPTY, acts), Step(Run(EMPTY, acts), act);
            if id in r.table then r.table[id] == s.table[id] else (id, s.table[id].text) in s.accepted
  {
    RunKeepsInv(acts);
  }

  /** A drain that nobody disturbs does deliver: four steps take the oldest row to the API and off the table. */
  lemma DrainDelivers(s: State, id: MsgId)
    requires s.pc.Idle? && id in s.table
    requires forall j :: j in s.table ==> s.table[id].createdAt < s.table[j].createdAt || (s.table[id].createdAt == s.table[j].createdAt && id <= j)
    ensures var r := Step(Step(Step(Step(s, Lock), Read(id)), Take), Ack);
            && r.table == s.table - {id} && r.accepted == s.accepted + {(id, s.table[id].text)} && r.pc.Draining?
  {
    assert IsFirst(s.table, id);
    assert Step(s, Lock).pc.Draining? && Step(Step(s, Lock), Read(id)).pc == Got(id, s.table[id].text);
  }

  /** A put is kept with its text, unless the id is already queued: then what is queued stays. */
  lemma PutIsKept(s: State, id: MsgId, text: string, now: int)
    ensures var r := Step(s, Put(id, text, now));
            && id in r.table && (forall j :: j in s.table ==> j in r.table && r.table[j] == s.table[j])
            && (id !in s.table ==> r.table[id].text == text && r.table[id].createdAt == now)
            && (forall j :: j in r.table && j != id ==> j in s.table)
  {}

  /**
   What interrupts a drain leaves every row where it is and frees the lock: a refusal, a crash, and a reply that is
   lost, after which the API has the message and the next drain sends it once more. An empty table ends a drain.
   */
  lemma InterruptedDrain(s: State, id: MsgId)
    ensures s.pc.Got? ==> Step(s, Refuse) == s.(pc := Idle)
    ensures s.pc.Got? ==> Step(s, LoseReply) == s.(pc := Idle, accepted := s.accepted + {(s.pc.id, s.pc.text)})
    ensures Step(s, Crash) == s.(pc := Idle)
    ensures s.pc.Draining? && s.table == map[] ==> Step(s, Read(id)) == s.(pc := Idle)
  {}
}
