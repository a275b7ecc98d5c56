/** The debouncer in front of a sync: one caller runs, one waits, the rest are batched.

  Calls come from controllers that changed the store first. The class is the code, with its two channel
  fields; the state machine below it takes the same decisions for every interleaving of callers. */
module Debouncer {
  import opened Options

  /** A full sync also does what a partial one does. */
  datatype Kind = Full | Partial

  datatype Decision = Proceed | Absorbed | Wait

  function Decide(running: bool, waiting: Option<Kind>, kind: Kind): Decision {
    if !running then Proceed
    else if waiting == Some(Full) && kind == Partial then Absorbed
    else Wait
  }

  // ----- the code

  /** A channel of capacity one, used for a single signal. */
  class Channel {
    var sent: bool
    var closed: bool

    constructor ()
      ensures !sent && !closed
    {
      sent, closed := false, false;
    }

    /** Sending on a closed channel panics, and on a full one blocks. */
    method Send()
      requires !closed && !sent
      modifies this
      ensures sent && !closed
    {
      sent := true;
    }

    /** Closing twice panics. */
    method Close()
      requires !closed
      modifies this
      ensures closed && sent == old(sent)
    {
      closed := true;
    }
  }

  class Driver {
    var syncRunning: bool
    var syncFullCh: Channel?
    var syncPartialCh: Channel?

    /** At most one slot is taken, only during a sync, and by a channel that is open and empty. */
    ghost predicate Valid()
      reads this, syncFullCh, syncPartialCh
    {
      && (syncFullCh == null || syncPartialCh == null)
      && (!syncRunning ==> syncFullCh == null && syncPartialCh == null)
      && (syncFullCh != null ==> !syncFullCh.sent && !syncFullCh.closed)
      && (syncPartialCh != null ==> !syncPartialCh.sent && !syncPartialCh.closed)
    }

    ghost function Waiting(): Option<Kind>
      reads this
    {
      if syncFullCh != null then Some(Full) else if syncPartialCh != null then Some(Partial) else None
    }

    ghost function Slot(): Channel?
      reads this
    {
      if syncFullCh != null then syncFullCh else syncPartialCh
    }

    constructor ()
      ensures Valid() && !syncRunning
    {
      syncRunning, syncFullCh, syncPartialCh := false, null, null;
    }

    /** Starts, joins or is absorbed by a sync; `ch` is what a waiting caller waits on. */
    method SyncStart(partial: bool) returns (proceed: bool, ch: Channel?)
      requires Valid()
      modifies this, syncFullCh, syncPartialCh
      ensures Valid() && syncRunning
      ensures var kind := if partial then Partial else Full;
              match Decide(old(syncRunning), old(Waiting()), kind)
              case Proceed => proceed && ch == null && Slot() == null
              case Absorbed => !proceed && ch == null && Slot() == old(Slot())
              case Wait =>
                && !proceed && ch != null && fresh(ch)
                && Slot() == ch && Waiting() == Some(kind)
                && (old(Slot()) != null ==> old(Slot()).closed && !old(Slot()).sent)
    {
      if !syncRunning {
        syncRunning := true;
        return true, null;
      }
      if syncFullCh != null {
        if partial {
          return false, null;
        }
        syncFullCh.Close();
        syncFullCh := null;
      }
      if syncPartialCh != null {
        syncPartialCh.Close();
        syncPartialCh := null;
      }
      ch := new Channel();
      if partial {
        syncPartialCh := ch;
      } else {
        syncFullCh := ch;
      }
      proceed := false;
    }

    /** Ends the running sync and tells the waiter, if there is one, to come back. */
    method SyncDone()
      requires Valid() && syncRunning
      modifies this, syncFullCh, syncPartialCh
      ensures Valid() && !syncRunning && Slot() == null
      ensures old(Slot()) != null ==> old(Slot()).sent && old(Slot()).closed
    {
      if syncFullCh != null {
        syncFullCh.Send();
        syncFullCh.Close();
        syncFullCh := null;
      }
      if syncPartialCh != null {
        syncPartialCh.Send();
        syncPartialCh.Close();
        syncPartialCh := null;
      }
      syncRunning := false;
    }
  }

  // ----- every interleaving of callers

  /** The state of a waiter's channel. */
  datatype Signal = Open | Overtaken | Finished

  /** `Batched` is success without having run; `Requeue`, `Cancelled` and `Failed` oblige the caller to
      call again. */
  datatype Status =
    | Running
    | Waits(signal: Signal)
    | Batched
    | Ran
    | Requeue
    | Cancelled
    | Failed

  datatype Call = Call(kind: Kind, at: nat, status: Status)

  /** `carrier[x]` is the call that answers for the store change behind the call `x`; `retried` are the
      obliged calls that did call again. */
  datatype State = State(
    calls: map<nat, Call>,
    running: Option<nat>,
    slot: Option<nat>,
    retried: set<nat>,
    carrier: map<nat, nat>,
    clock: nat)

  datatype Event =
    | Start(call: nat, kind: Kind, retryOf: Option<nat>)
    | Done(success: bool)
    | Wake(call: nat)
    | Cancel(call: nat)

  const INIT := State(map[], None, None, {}, map[], 0)

  predicate Obliged(c: Call) {
    c.status == Requeue || c.status == Cancelled || c.status == Failed
  }

  /** A caller obliged to call again does so once, with the same kind of sync. */
  predicate CanRetry(st: State, kind: Kind, retryOf: Option<nat>) {
    retryOf.Some? ==>
      && retryOf.value in st.calls && Obliged(st.calls[retryOf.value])
      && retryOf.value !in st.retried && st.calls[retryOf.value].kind == kind
  }

  predicate Enabled(st: State, e: Event) {
    match e
    case Start(c, kind, retryOf) => c !in st.calls && CanRetry(st, kind, retryOf)
    case Done(_) => st.running.Some? && st.running.value in st.calls
    case Wake(c) => c in st.calls && st.calls[c].status.Waits? && st.calls[c].status.signal != Open
    case Cancel(c) => c in st.calls && st.calls[c].status.Waits?
  }

  /** Hands everything `from` answers for, and `from` itself, to `heir`. */
  function Bequeath(carrier: map<nat, nat>, from: Option<nat>, heir: nat): map<nat, nat> {
    if from.None? then carrier
    else
      map x | x in carrier.Keys + {from.value} ::
        if x == from.value || carrier[x] == from.value then heir else carrier[x]
  }

  function SetStatus(calls: map<nat, Call>, c: Option<nat>, status: Status): map<nat, Call> {
    if c.Some? && c.value in calls then calls[c.value := calls[c.value].(status := status)] else calls
  }

  /** The waiter's channel takes the signal; a waiter that was cancelled is no longer listening. */
  function SetSignal(calls: map<nat, Call>, w: Option<nat>, signal: Signal): map<nat, Call> {
    if w.Some? && w.value in calls && calls[w.value].status.Waits? then SetStatus(calls, w, Waits(signal)) else calls
  }

  function WaitingKind(st: State): Option<Kind> {
    if st.slot.Some? && st.slot.value in st.calls then Some(st.calls[st.slot.value].kind) else None
  }

  function Retried(st: State, retryOf: Option<nat>): set<nat> {
    if retryOf.Some? then st.retried + {retryOf.value} else st.retried
  }

  function Proceeded(st: State, c: nat, kind: Kind, retryOf: Option<nat>): State {
    st.(calls := st.calls[c := Call(kind, st.clock, Running)], running := Some(c), retried := Retried(st, retryOf),
        carrier := Bequeath(st.carrier, retryOf, c), clock := st.clock + 1)
  }

  function AbsorbedBy(st: State, w: nat, c: nat, kind: Kind, retryOf: Option<nat>): State {
    st.(calls := st.calls[c := Call(kind, st.clock, Batched)], retried := Retried(st, retryOf),
        carrier := Bequeath(st.carrier, retryOf, w)[c := w], clock := st.clock + 1)
  }

  function Queued(st: State, c: nat, kind: Kind, retryOf: Option<nat>): State {
    st.(calls := SetSignal(st.calls, st.slot, Overtaken)[c := Call(kind, st.clock, Waits(Open))], slot := Some(c),
        retried := Retried(st, retryOf), carrier := Bequeath(Bequeath(st.carrier, retryOf, c), st.slot, c),
        clock := st.clock + 1)
  }

  function Begin(st: State, c: nat, kind: Kind, retryOf: Option<nat>): State {
    match Decide(st.running.Some?, WaitingKind(st), kind)
    case Proceed => Proceeded(st, c, kind, retryOf)
    case Absorbed => if st.slot.Some? then AbsorbedBy(st, st.slot.value, c, kind, retryOf) else st
    case Wait => Queued(st, c, kind, retryOf)
  }

  function Step(st: State, e: Event): State
    requires Enabled(st, e)
  {
    match e
    case Start(c, kind, retryOf) => Begin(st, c, kind, retryOf)
    case Done(success) =>
      var calls := SetStatus(st.calls, st.running, if success then Ran else Failed);
      st.(calls := SetSignal(calls, st.slot, Finished), running := None, slot := None, clock := st.clock + 1)
    case Wake(c) =>
      var status := if st.calls[c].status.signal == Overtaken then Batched else Requeue;
      st.(calls := SetStatus(st.calls, Some(c), status), clock := st.clock + 1)
    case Cancel(c) => st.(calls := SetStatus(st.calls, Some(c), Cancelled), clock := st.clock + 1)
  }

  // ----- what every step keeps

  /** The call answers for a change made before the call `x`: it will be told to come back, it is obliged to
      come back, or it is or was a sync that began after `x` did. */
  predicate AnswersFor(st: State, y: nat, x: Call) {
    && y in st.calls
    && (x.kind == Full ==> st.calls[y].kind == Full)
    && (|| st.slot == Some(y)
        || st.calls[y].status == Waits(Finished)
        || (Obliged(st.calls[y]) && y !in st.retried)
        || ((st.calls[y].status == Running || st.calls[y].status == Ran) && x.at < st.calls[y].at))
  }

  ghost predicate CallsOk(st: State) {
    && (forall c <- st.calls :: st.calls[c].at < st.clock)
    && (forall c <- st.calls :: st.calls[c].status == Running <==> st.running == Some(c))
    && (st.running.Some? ==> st.running.value in st.calls)
    && (forall c <- st.calls :: st.calls[c].status == Waits(Open) ==> st.slot == Some(c))
    && (forall c <- st.retried :: c in st.calls && Obliged(st.calls[c]))
  }

  /** The slot is taken only during a sync, by an open waiter or one that gave up and has not called again. */
  ghost predicate SlotOk(st: State) {
    st.slot.Some? ==>
      && st.running.Some? && st.slot.value in st.calls && st.slot.value !in st.retried
      && (st.calls[st.slot.value].status == Waits(Open) || st.calls[st.slot.value].status == Cancelled)
  }

  /** Whoever was batched, overtaken or came back is answered for. */
  ghost predicate CarriersOk(st: State) {
    && (forall x <- st.carrier :: x in st.calls && AnswersFor(st, st.carrier[x], st.calls[x]))
    && (forall c <- st.calls ::
          st.calls[c].status == Batched || st.calls[c].status == Waits(Overtaken) || c in st.retried ==>
            c in st.carrier)
  }

  ghost predicate Inv(st: State) {
    CallsOk(st) && SlotOk(st) && CarriersOk(st)
  }

  /** Enough for a carrier to go on answering: its call is as before, or better. */
  lemma StillAnswers(st: State, next: State, y: nat, x: Call)
    requires AnswersFor(st, y, x)
    requires y in next.calls && next.calls[y].kind == st.calls[y].kind && next.calls[y].at == st.calls[y].at
    requires next.calls[y].status == st.calls[y].status && next.slot == st.slot
    requires y in next.retried ==> y in st.retried
    ensures AnswersFor(next, y, x)
  {
  }

  lemma ProceededKeepsInv(st: State, c: nat, kind: Kind, retryOf: Option<nat>)
    requires Inv(st) && Enabled(st, Start(c, kind, retryOf)) && st.running.None?
    ensures Inv(Proceeded(st, c, kind, retryOf))
  {
    var next := Proceeded(st, c, kind, retryOf);
    ProceededCalls(st, c, kind, retryOf);
    forall x <- next.carrier
      ensures x in next.calls && AnswersFor(next, next.carrier[x], next.calls[x])
    {
      if next.carrier[x] == c {
        assert retryOf.Some? && (x == retryOf.value || AnswersFor(st, st.carrier[x], st.calls[x]));
      } else {
        StillAnswers(st, next, st.carrier[x], st.calls[x]);
      }
    }
  }

  lemma AbsorbedKeepsInv(st: State, w: nat, c: nat, retryOf: Option<nat>)
    requires Inv(st) && Enabled(st, Start(c, Partial, retryOf))
    requires st.slot == Some(w) && st.calls[w].kind == Full
    ensures Inv(AbsorbedBy(st, w, c, Partial, retryOf))
  {
    var next := AbsorbedBy(st, w, c, Partial, retryOf);
    assert CallsOk(next) && SlotOk(next);
    forall x <- next.carrier
      ensures x in next.calls && AnswersFor(next, next.carrier[x], next.calls[x])
    {
      if next.carrier[x] != w {
        StillAnswers(st, next, st.carrier[x], st.calls[x]);
      }
    }
  }

  lemma QueuedCalls(st: State, c: nat, kind: Kind, retryOf: Option<nat>)
    requires CallsOk(st) && SlotOk(st) && Enabled(st, Start(c, kind, retryOf)) && st.running.Some?
    ensures CallsOk(Queued(st, c, kind, retryOf)) && SlotOk(Queued(st, c, kind, retryOf))
  {
    hide Bequeath, SetSignal;
    var next := Queued(st, c, kind, retryOf);
    OvertakenEffect(st);
    assert forall d <- next.calls :: d == c || d in st.calls;
  }

  /** What being overtaken does to the calls. */
  lemma OvertakenEffect(st: State)
    requires SlotOk(st)
    ensures var after := SetSignal(st.calls, st.slot, Overtaken);
            && after.Keys == st.calls.Keys
            && forall d <- st.calls ::
                 after[d] ==
                   if st.slot == Some(d) && st.calls[d].status.Waits? then st.calls[d].(status := Waits(Overtaken))
                   else st.calls[d]
  {
  }

  /** A full waiter is overtaken by full requests only. */
  lemma QueuedKinds(st: State, kind: Kind, retryOf: Option<nat>, x: nat)
    requires Inv(st) && CanRetry(st, kind, retryOf) && Decide(true, WaitingKind(st), kind) == Wait
    requires x in st.calls && st.calls[x].kind == Full
    requires retryOf == Some(x) || st.slot == Some(x)
          || (x in st.carrier && (retryOf == Some(st.carrier[x]) || st.slot == Some(st.carrier[x])))
    ensures kind == Full
  {
    if x in st.carrier {
      assert AnswersFor(st, st.carrier[x], st.calls[x]);
    }
  }

  lemma QueuedAnswers(st: State, c: nat, kind: Kind, retryOf: Option<nat>, x: nat)
    requires Inv(st) && Enabled(st, Start(c, kind, retryOf)) && st.running.Some?
    requires Decide(true, WaitingKind(st), kind) == Wait
    requires x in Queued(st, c, kind, retryOf).carrier
    ensures var next := Queued(st, c, kind, retryOf);
            x in next.calls && AnswersFor(next, next.carrier[x], next.calls[x])
  {
    hide CallsOk, Decide, WaitingKind;
    var next := Queued(st, c, kind, retryOf);
    assert x in st.calls && next.calls[x].kind == st.calls[x].kind && next.calls[x].at == st.calls[x].at;
    if next.carrier[x] == c {
      if st.calls[x].kind == Full {
        QueuedKinds(st, kind, retryOf, x);
      }
    } else {
      var y := st.carrier[x];
      assert AnswersFor(st, y, st.calls[x]) && st.slot != Some(y);
      assert next.calls[y] == st.calls[y];
    }
  }

  lemma QueuedKeepsInv(st: State, c: nat, kind: Kind, retryOf: Option<nat>)
    requires Inv(st) && Enabled(st, Start(c, kind, retryOf)) && st.running.Some?
    requires Decide(true, WaitingKind(st), kind) == Wait
    ensures Inv(Queued(st, c, kind, retryOf))
  {
    hide CallsOk, SlotOk, Decide, WaitingKind, AnswersFor, Obliged;
    var next := Queued(st, c, kind, retryOf);
    QueuedCalls(st, c, kind, retryOf);
    SlotListed(st);
    RetriedListed(st);
    forall x <- next.carrier
      ensures x in next.calls && AnswersFor(next, next.carrier[x], next.calls[x])
    {
      QueuedAnswers(st, c, kind, retryOf, x);
    }
  }

  lemma RetriedListed(st: State)
    requires CallsOk(st)
    ensures st.retried <= st.calls.Keys
  {
  }

  lemma SlotListed(st: State)
    requires SlotOk(st)
    ensures st.slot.Some? ==> st.slot.value in st.calls
  {
  }

  lemma DoneCalls(st: State, success: bool)
    requires CallsOk(st) && SlotOk(st) && Enabled(st, Done(success))
    ensures CallsOk(Step(st, Done(success))) && SlotOk(Step(st, Done(success)))
  {
  }

  lemma ReturnCalls(st: State, e: Event)
    requires CallsOk(st) && SlotOk(st) && Enabled(st, e) && (e.Wake? || e.Cancel?)
    ensures CallsOk(Step(st, e)) && SlotOk(Step(st, e))
  {
  }

  lemma ProceededCalls(st: State, c: nat, kind: Kind, retryOf: Option<nat>)
    requires CallsOk(st) && SlotOk(st) && Enabled(st, Start(c, kind, retryOf)) && st.running.None?
    ensures CallsOk(Proceeded(st, c, kind, retryOf)) && SlotOk(Proceeded(st, c, kind, retryOf))
  {
  }

  /** What the end of a sync does to one call. */
  lemma DoneEffect(st: State, success: bool, y: nat)
    requires CallsOk(st) && SlotOk(st) && Enabled(st, Done(success)) && y in st.calls
    ensures var next, was := Step(st, Done(success)), st.calls[y];
            && y in next.calls
            && next.calls[y] ==
                 if st.running == Some(y) then was.(status := if success then Ran else Failed)
                 else if st.slot == Some(y) && was.status == Waits(Open) then was.(status := Waits(Finished))
                 else was
  {
  }

  lemma DoneAnswers(st: State, success: bool, x: nat)
    requires Inv(st) && Enabled(st, Done(success)) && x in st.carrier
    ensures var next := Step(st, Done(success)); x in next.calls && AnswersFor(next, next.carrier[x], next.calls[x])
  {
    hide SetStatus, SetSignal, CallsOk;
    var y := st.carrier[x];
    assert x in st.calls && AnswersFor(st, y, st.calls[x]);
    DoneEffect(st, success, x);
    DoneEffect(st, success, y);
    RunnerIsRunning(st, y);
  }

  lemma RunnerIsRunning(st: State, y: nat)
    requires CallsOk(st) && y in st.calls
    ensures st.calls[y].status == Running <==> st.running == Some(y)
    ensures y in st.retried ==> Obliged(st.calls[y])
  {
  }

  lemma DoneKeepsInv(st: State, success: bool)
    requires Inv(st) && Enabled(st, Done(success))
    ensures Inv(Step(st, Done(success)))
  {
    hide SlotOk, AnswersFor;
    var next := Step(st, Done(success));
    DoneCalls(st, success);
    forall x <- next.carrier
      ensures x in next.calls && AnswersFor(next, next.carrier[x], next.calls[x])
    {
      DoneAnswers(st, success, x);
    }
  }

  lemma ReturnAnswers(st: State, e: Event, x: nat)
    requires Inv(st) && Enabled(st, e) && (e.Wake? || e.Cancel?) && x in st.carrier
    ensures var next := Step(st, e); x in next.calls && AnswersFor(next, next.carrier[x], next.calls[x])
  {
    assert AnswersFor(st, st.carrier[x], st.calls[x]);
  }

  lemma ReturnKeepsInv(st: State, e: Event)
    requires Inv(st) && Enabled(st, e) && (e.Wake? || e.Cancel?)
    ensures Inv(Step(st, e))
  {
    hide CallsOk, SlotOk, AnswersFor;
    var next := Step(st, e);
    ReturnCalls(st, e);
    forall x <- next.carrier
      ensures x in next.calls && AnswersFor(next, next.carrier[x], next.calls[x])
    {
      ReturnAnswers(st, e, x);
    }
  }

  lemma StepKeepsInv(st: State, e: Event)
    requires Inv(st) && Enabled(st, e)
    ensures Inv(Step(st, e))
  {
    hide CallsOk, CarriersOk, Proceeded, AbsorbedBy, Queued, Enabled;
    match e
    case Start(c, kind, retryOf) =>
      match Decide(st.running.Some?, WaitingKind(st), kind) {
        case Proceed => ProceededKeepsInv(st, c, kind, retryOf);
        case Absorbed => AbsorbedKeepsInv(st, st.slot.value, c, retryOf);
        case Wait => QueuedKeepsInv(st, c, kind, retryOf);
      }
    case Done(success) => DoneKeepsInv(st, success);
    case Wake(c) => ReturnKeepsInv(st, e);
    case Cancel(c) => ReturnKeepsInv(st, e);
  }

  // ----- whole runs

  /** The state after the events, if each was possible when it happened. */
  function Exec(st: State, events: seq<Event>): Option<State>
    decreases |events|
  {
    if events == [] then Some(st)
    else if Enabled(st, events[0]) then Exec(Step(st, events[0]), events[1..])
    else None
  }

  lemma {:induction false} RunKeepsInv(st: State, events: seq<Event>)
    requires Inv(st)
    ensures Exec(st, events).Some? ==> Inv(Exec(st, events).value)
    decreases |events|
  {
    hide Inv, Step, Enabled;
    if events != [] && Enabled(st, events[0]) {
      StepKeepsInv(st, events[0]);
      RunKeepsInv(Step(st, events[0]), events[1..]);
    }
  }

  /** No lost sync: after any interleaving, a caller told "success" without having run is answered for by a
      waiter in the slot, an obligation still to be met, or a sync that began later; and a full request is
      answered for by a full one. */
  lemma NoLostSync(events: seq<Event>, x: nat)
    requires Exec(INIT, events).Some?
    ensures var st := Exec(INIT, events).value;
            x in st.calls && st.calls[x].status == Batched ==>
              x in st.carrier && AnswersFor(st, st.carrier[x], st.calls[x])
  {
    RunKeepsInv(INIT, events);
  }

  /** Nothing runs, waits or is still owed a retry. */
  predicate Quiet(st: State) {
    && st.running.None? && st.slot.None?
    && forall c <- st.calls :: !st.calls[c].status.Waits? && (Obliged(st.calls[c]) ==> c in st.retried)
  }

  /** Once all is quiet, every call's change was picked up by a completed sync, at least as wide as asked for
      and begun no earlier than the call. */
  lemma QuietMeansSynced(events: seq<Event>, x: nat)
    requires Exec(INIT, events).Some? && Quiet(Exec(INIT, events).value)
    requires x in Exec(INIT, events).value.calls
    ensures var calls := Exec(INIT, events).value.calls;
            exists y <- calls :: calls[y].status == Ran && calls[x].at <= calls[y].at
                              && (calls[x].kind == Full ==> calls[y].kind == Full)
  {
    RunKeepsInv(INIT, events);
    var st := Exec(INIT, events).value;
    if st.calls[x].status == Ran {
      assert st.calls[x].at <= st.calls[x].at;
    } else {
      assert x in st.carrier;
      assert AnswersFor(st, st.carrier[x], st.calls[x]);
    }
  }

  lemma {:induction false} ExecMore(st: State, events: seq<Event>, e: Event)
    ensures var before := Exec(st, events);
            Exec(st, events + [e])
            == if before.Some? && Enabled(before.value, e) then Some(Step(before.value, e)) else None
    decreases |events|
  {
    hide Step, Enabled;
    if events == [] {
      assert ([] + [e])[1..] == [];
    } else {
      assert (events + [e])[0] == events[0] && (events + [e])[1..] == events[1..] + [e];
      if Enabled(st, events[0]) {
        ExecMore(Step(st, events[0]), events[1..], e);
      }
    }
  }

  /** Only a sync that ended well counts as one: whoever ran was running when a sync ended with success. */
  lemma {:induction false} RanWasDone(events: seq<Event>, y: nat)
    requires Exec(INIT, events).Some? && y in Exec(INIT, events).value.calls
    requires Exec(INIT, events).value.calls[y].status == Ran
    ensures exists i | 0 <= i < |events| ::
              && events[i] == Done(true)
              && Exec(INIT, events[..i]).Some? && Exec(INIT, events[..i]).value.running == Some(y)
  {
    if events != [] {
      var n := |events| - 1;
      var e := events[n];
      assert events == events[..n] + [e];
      ExecMore(INIT, events[..n], e);
      var st := Exec(INIT, events[..n]).value;
      if y in st.calls && st.calls[y].status == Ran {
        RanWasDone(events[..n], y);
        var i :| 0 <= i < n && events[..n][i] == Done(true)
              && Exec(INIT, events[..n][..i]).Some? && Exec(INIT, events[..n][..i]).value.running == Some(y);
        assert events[..n][..i] == events[..i] && events[i] == Done(true);
      } else {
        BecameRan(st, e, y);
      }
    }
  }

  lemma BecameRan(st: State, e: Event, y: nat)
    requires Enabled(st, e) && y in Step(st, e).calls && Step(st, e).calls[y].status == Ran
    requires y in st.calls ==> st.calls[y].status != Ran
    ensures e == Done(true) && st.running == Some(y)
  {
    hide Bequeath;
  }

  /** In every reachable state at most one caller runs and at most one open waiter waits, and only then. */
  lemma OneRunnerOneWaiter(events: seq<Event>, a: nat, b: nat)
    requires Exec(INIT, events).Some?
    requires a in Exec(INIT, events).value.calls && b in Exec(INIT, events).value.calls
    ensures var calls := Exec(INIT, events).value.calls;
            && (calls[a].status == Running && calls[b].status == Running ==> a == b)
            && (calls[a].status == Waits(Open) && calls[b].status == Waits(Open) ==> a == b)
            && (calls[a].status == Waits(Open) ==> Exec(INIT, events).value.running.Some?)
  {
    RunKeepsInv(INIT, events);
  }

  /** A waiter is resolved at most once: a signal it got never changes, and no call opens again. */
  lemma ResolvedOnce(st: State, e: Event, c: nat)
    requires Inv(st) && Enabled(st, e) && c in st.calls && st.calls[c].status != Waits(Open)
    ensures var after := Step(st, e).calls;
            && c in after && after[c].status != Waits(Open)
            && (after[c].status.Waits? ==> after[c].status == st.calls[c].status)
            && after[c].kind == st.calls[c].kind && after[c].at == st.calls[c].at
  {
    hide CarriersOk, Bequeath;
    if e.Done? {
      DoneEffect(st, e.success, c);
    } else if e.Start? {
      OvertakenEffect(st);
    }
  }
}
