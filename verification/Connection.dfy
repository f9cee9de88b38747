/** The lifecycle of packages/client/src/connection.ts: one step per API call and per callback of the transport or
    its factory. What the hooks do inside a step is part of the step; hooks do not call `connect`. */
module ConnectionLifecycle {
  import opened Seqs
  import opened Promises

  /** `handshake` says whether the promise of `connect` is still unsettled. */
  datatype Lifecycle =
    | Disconnected
    | Connecting(id: nat, ready: bool)
    | Connected(id: nat, handshake: bool)

  /** An announced state change, with the number of the attempt it belongs to. */
  datatype Note = Note(id: nat, state: State)

  datatype State = IsConnecting | IsConnected | IsDisconnected

  /** The lifecycle and sequence of a `Connection`, with everything it has told anybody: the state changes it
      announced, the promises it settled (true for a resolved one), the factory calls still open, the transports it
      got, and the closed ones. A transport has the number of the connection attempt it was opened for. */
  datatype Machine = Machine(
    lifecycle: Lifecycle,
    sequence: nat,
    notes: seq<Note>,
    settlements: seq<Settlement<bool>>,
    opening: set<nat>,
    received: set<nat>,
    closed: set<nat>)

  const NEW: Machine := Machine(Disconnected, 0, [], [], {}, {}, {})

  /** What a hook does: nothing, throw, or call `disconnect` or `fail`. */
  datatype Hook = Quiet | Throws | Disconnects

  datatype Kind = Hello | HelloError | Other

  /** A decoded message and what the hooks it reaches do. `onStateChange` and `onMessage` do not throw. */
  datatype Incoming = Incoming(kind: Kind, onHandshake: Hook, disconnectsOnChange: bool, disconnectsOnMessage: bool)

  datatype Event =
    | Connect(disconnectsOnChange: bool)
    | Disconnect
    | FactoryResolved(id: nat)
    | FactoryRejected(id: nat)
    | HelloFailed(id: nat)
    | SendFailed(id: nat)
    | Data(id: nat, decoded: Option<seq<Incoming>>)
    | Close(id: nat)
    | Error(id: nat)

  predicate IsCurrent(m: Machine, id: nat) {
    !m.lifecycle.Disconnected? && m.lifecycle.id == id
  }

  predicate HasTransport(l: Lifecycle) {
    l.Connected? || (l.Connecting? && l.ready)
  }

  predicate Unsettled(l: Lifecycle) {
    l.Connecting? || (l.Connected? && l.handshake)
  }

  /** `#fail`. */
  function Fail(m: Machine): Machine {
    if m.lifecycle.Disconnected? then m
    else m.(lifecycle := Disconnected,
            settlements := m.settlements + (if Unsettled(m.lifecycle) then [Settlement(m.lifecycle.id, false)] else []),
            notes := m.notes + [Note(m.lifecycle.id, IsDisconnected)])
  }

  /** `#failAndClose`. */
  function FailAndClose(m: Machine): Machine {
    if HasTransport(m.lifecycle) then Fail(m).(closed := m.closed + {m.lifecycle.id}) else Fail(m)
  }

  /** A hello with everything its hooks do. */
  function Greeted(m: Machine, i: Incoming): Machine
    requires m.lifecycle.Connecting?
  {
    var connected := m.(lifecycle := Connected(m.lifecycle.id, true));
    if i.onHandshake != Quiet then FailAndClose(connected)
    else
      var told := connected.(notes := m.notes + [Note(m.lifecycle.id, IsConnected)]);
      if i.disconnectsOnChange then FailAndClose(told)
      else
        told.(lifecycle := Connected(m.lifecycle.id, false),
              settlements := m.settlements + [Settlement(m.lifecycle.id, true)])
  }

  /** `#handleMessage`. */
  function Handle(m: Machine, i: Incoming): Machine {
    match m.lifecycle
    case Disconnected => m
    case Connecting(_, ready) => if i.kind != Hello || !ready then FailAndClose(m) else Greeted(m, i)
    case Connected(_, _) => if i.kind != Other || i.disconnectsOnMessage then FailAndClose(m) else m
  }

  /** The loop of `#handleData`. */
  function HandleAll(m: Machine, messages: seq<Incoming>): Machine {
    if messages == [] then m else Handle(HandleAll(m, messages[..|messages| - 1]), messages[|messages| - 1])
  }

  function Step(m: Machine, e: Event): Machine {
    match e
    case Connect(disconnects) =>
      if !m.lifecycle.Disconnected? then m
      else
        var id := m.sequence + 1;
        var connecting := m.(
          lifecycle := Connecting(id, false), sequence := id, notes := m.notes + [Note(id, IsConnecting)],
            opening := m.opening + {id});
        if disconnects then FailAndClose(connecting) else connecting
    case Disconnect => FailAndClose(m)
    case FactoryResolved(id) =>
      if id !in m.opening then m
      else
        var got := m.(opening := m.opening - {id}, received := m.received + {id});
        if m.lifecycle.Connecting? && m.lifecycle.id == id then got.(lifecycle := Connecting(id, true))
        else got.(closed := m.closed + {id})
    case FactoryRejected(id) =>
      if id !in m.opening then m
      else
        var lost := m.(opening := m.opening - {id});
        if IsCurrent(m, id) then Fail(lost) else lost
    case HelloFailed(id) => if IsCurrent(m, id) && HasTransport(m.lifecycle) then FailAndClose(m) else m
    case SendFailed(id) => if IsCurrent(m, id) && HasTransport(m.lifecycle) then FailAndClose(m) else m
    case Data(id, decoded) =>
      if !IsCurrent(m, id) then m
      else if m.lifecycle.Connecting? && !m.lifecycle.ready then FailAndClose(m)
      else if decoded == None then FailAndClose(m)
      else HandleAll(m, decoded.value)
    case Close(id) =>
      if !IsCurrent(m, id) then m
      else if HasTransport(m.lifecycle) then Fail(m).(closed := m.closed + {id}) else Fail(m)
    case Error(id) => if IsCurrent(m, id) then FailAndClose(m) else m
  }

  function Run(m: Machine, events: seq<Event>): Machine {
    if events == [] then m else Step(Run(m, events[..|events| - 1]), events[|events| - 1])
  }

  predicate Follows(previous: Note, next: Note) {
    match next.state
    case IsConnecting => previous.state == IsDisconnected && next.id == previous.id + 1
    case IsConnected => previous == Note(next.id, IsConnecting)
    case IsDisconnected => previous.state != IsDisconnected && previous.id == next.id
  }

  /** The announcements are a prefix of (connecting connected? disconnected)*, one round for each attempt in turn. */
  ghost predicate Grammatical(notes: seq<Note>) {
    && (notes != [] ==> notes[0] == Note(1, IsConnecting))
    && (forall k | 0 <= k < |notes| - 1 :: Follows(notes[k], notes[k + 1]))
  }

  function StateOf(l: Lifecycle): State {
    match l
    case Disconnected => IsDisconnected
    case Connecting(_, _) => IsConnecting
    case Connected(_, _) => IsConnected
  }

  /** The last announcement is that of the current attempt and tells the state. */
  predicate Announced(m: Machine) {
    && (!m.lifecycle.Disconnected? ==> m.lifecycle.id == m.sequence)
    && if m.notes == [] then m.lifecycle.Disconnected? && m.sequence == 0
       else m.notes[|m.notes| - 1] == Note(m.sequence, StateOf(m.lifecycle)) && m.sequence >= 1
  }

  /** Every promise handed out is settled exactly once, except that of an attempt still under way. */
  ghost predicate PromisesKept(m: Machine) {
    && SettledOnce(m.settlements)
    && (forall id: nat :: IsSettled(m.settlements, id) <==>
          1 <= id <= m.sequence && !(Unsettled(m.lifecycle) && m.lifecycle.id == id))
  }

  /** Every transport got is the current one or closed, and the current one is neither closed nor forgotten. */
  ghost predicate TransportsKept(m: Machine) {
    && m.opening !! m.received && (forall id | id in m.opening + m.received :: 1 <= id <= m.sequence)
    && m.closed <= m.received
    && (forall id | id in m.received :: id in m.closed || (IsCurrent(m, id) && HasTransport(m.lifecycle)))
    && (HasTransport(m.lifecycle) ==> m.lifecycle.id in m.received && m.lifecycle.id !in m.closed)
    && (m.lifecycle.Connecting? ==> m.lifecycle.ready || m.lifecycle.id in m.opening)
    && (m.lifecycle.Connected? ==> !m.lifecycle.handshake)
  }

  /** The promise of an attempt is resolved only if that very attempt was announced as connected, and while connected
      it has been. */
  ghost predicate Honest(m: Machine) {
    && (forall s | s in m.settlements && s.outcome :: Note(s.id, IsConnected) in m.notes)
    && (m.lifecycle.Connected? && !m.lifecycle.handshake ==> Settlement(m.lifecycle.id, true) in m.settlements)
  }

  /** The announcements and the promises, which transports have no part in. */
  ghost predicate FaceOk(m: Machine) {
    Grammatical(m.notes) && Announced(m) && PromisesKept(m) && Honest(m)
  }

  ghost predicate Inv(m: Machine) {
    FaceOk(m) && TransportsKept(m)
  }

  lemma NoteMore(notes: seq<Note>, n: Note)
    requires Grammatical(notes)
    requires if notes == [] then n == Note(1, IsConnecting) else Follows(notes[|notes| - 1], n)
    ensures Grammatical(notes + [n])
  {
  }

  /** Also from inside a step, after the lifecycle has moved to connected and before that is announced. */
  lemma FailKeeps(m: Machine)
    requires Grammatical(m.notes) && PromisesKept(m) && !m.lifecycle.Disconnected? && m.lifecycle.id == m.sequence >= 1
    requires m.notes != [] && m.notes[|m.notes| - 1].id == m.sequence && m.notes[|m.notes| - 1].state != IsDisconnected
    requires forall s | s in m.settlements && s.outcome :: Note(s.id, IsConnected) in m.notes
    ensures FaceOk(Fail(m))
  {
    hide Grammatical, SettledOnce, IsSettled;
    NoteMore(m.notes, Note(m.sequence, IsDisconnected));
    if Unsettled(m.lifecycle) {
      SettleMore(m.settlements, Settlement(m.lifecycle.id, false));
    } else {
      assert m.settlements + [] == m.settlements;
    }
  }

  lemma FailFace(m: Machine)
    requires FaceOk(m)
    ensures FaceOk(Fail(m))
  {
    if !m.lifecycle.Disconnected? {
      FailKeeps(m);
    }
    hide Grammatical, PromisesKept, Honest;
  }

  /** `FaceOk` does not look at transports. */
  lemma FaceOnly(m: Machine, m': Machine)
    requires FaceOk(m) && m'.lifecycle == m.lifecycle && m'.sequence == m.sequence
    requires m'.notes == m.notes && m'.settlements == m.settlements
    ensures FaceOk(m')
  {
    hide Grammatical, SettledOnce, IsSettled;
  }

  lemma FailTransports(m: Machine)
    requires TransportsKept(m)
    ensures TransportsKept(FailAndClose(m))
    ensures !HasTransport(m.lifecycle) ==> TransportsKept(Fail(m))
  {
  }

  lemma FailAndCloseKeeps(m: Machine)
    requires Inv(m)
    ensures Inv(FailAndClose(m))
  {
    FailFace(m);
    FailTransports(m);
    hide FaceOk, TransportsKept;
    assert FaceOk(FailAndClose(m)) by {
      FaceOnly(Fail(m), FailAndClose(m));
    }
  }

  /** A connection announced as connected, its promise still open. */
  lemma ToldKeeps(m: Machine)
    requires FaceOk(m) && m.lifecycle.Connecting?
    ensures var told :=
        m.(lifecycle := Connected(m.lifecycle.id, true), notes := m.notes + [Note(m.sequence, IsConnected)]);
      && FaceOk(told) && Note(m.sequence, IsConnected) in told.notes
  {
    NoteMore(m.notes, Note(m.sequence, IsConnected));
    hide Grammatical, SettledOnce, IsSettled;
  }

  lemma ResolveKeeps(told: Machine)
    requires FaceOk(told) && told.lifecycle == Connected(told.sequence, true)
    requires Note(told.sequence, IsConnected) in told.notes
    ensures FaceOk(told.(lifecycle := Connected(told.sequence, false),
                         settlements := told.settlements + [Settlement(told.sequence, true)]))
  {
    SettleMore(told.settlements, Settlement(told.sequence, true));
    hide Grammatical, SettledOnce, IsSettled;
  }

  lemma GreetedFace(m: Machine, i: Incoming)
    requires FaceOk(m) && m.lifecycle.Connecting?
    ensures FaceOk(Greeted(m, i))
  {
    var connected := m.(lifecycle := Connected(m.lifecycle.id, true));
    var told := connected.(notes := m.notes + [Note(m.sequence, IsConnected)]);
    assert PromisesKept(connected);
    FailKeeps(connected);
    ToldKeeps(m);
    FailFace(told);
    ResolveKeeps(told);
    hide FaceOk, PromisesKept, Honest, Grammatical;
    FaceOnly(Fail(connected), FailAndClose(connected));
    FaceOnly(Fail(told), FailAndClose(told));
  }

  lemma GreetedKeeps(m: Machine, i: Incoming)
    requires Inv(m) && m.lifecycle.Connecting? && m.lifecycle.ready
    ensures Inv(Greeted(m, i))
  {
    GreetedFace(m, i);
    hide FaceOk;
  }

  lemma HandleKeeps(m: Machine, i: Incoming)
    requires Inv(m)
    ensures Inv(Handle(m, i))
  {
    FailAndCloseKeeps(m);
    if m.lifecycle.Connecting? && m.lifecycle.ready {
      GreetedKeeps(m, i);
    }
    hide Inv, FailAndClose, Greeted;
  }

  lemma AttemptFace(m: Machine, m': Machine)
    requires FaceOk(m) && m.lifecycle.Disconnected?
    requires m'.lifecycle == Connecting(m.sequence + 1, false) && m'.sequence == m.sequence + 1
    requires m'.notes == m.notes + [Note(m.sequence + 1, IsConnecting)] && m'.settlements == m.settlements
    ensures FaceOk(m')
  {
    NoteMore(m.notes, Note(m.sequence + 1, IsConnecting));
    hide Grammatical, SettledOnce, IsSettled;
  }

  lemma ConnectKeeps(m: Machine, disconnects: bool)
    requires Inv(m)
    ensures Inv(Step(m, Connect(disconnects)))
  {
    if m.lifecycle.Disconnected? {
      var connecting := Step(m, Connect(false));
      AttemptFace(m, connecting);
      assert TransportsKept(connecting) by {
        hide FaceOk;
      }
      hide FaceOk, TransportsKept, FailAndClose;
      FailAndCloseKeeps(connecting);
    }
  }

  lemma TransportOpenedKeeps(m: Machine, id: nat)
    requires Inv(m)
    ensures Inv(Step(m, FactoryResolved(id)))
  {
    if id in m.opening {
      var got := Step(m, FactoryResolved(id));
      assert FaceOk(got) by {
        hide Grammatical, SettledOnce, IsSettled;
      }
      hide FaceOk;
    }
  }

  lemma TransportRefusedKeeps(m: Machine, id: nat)
    requires Inv(m)
    ensures Inv(Step(m, FactoryRejected(id)))
  {
    if id in m.opening {
      var lost := m.(opening := m.opening - {id});
      FaceOnly(m, lost);
      FailFace(lost);
      hide FaceOk;
    }
  }

  lemma CloseKeeps(m: Machine, id: nat)
    requires Inv(m)
    ensures Inv(Step(m, Close(id)))
  {
    FailFace(m);
    FailTransports(m);
    hide FaceOk;
    assert FaceOk(Step(m, Close(id))) by {
      if IsCurrent(m, id) {
        FaceOnly(Fail(m), Step(m, Close(id)));
      }
    }
  }

  lemma DataKeeps(m: Machine, messages: seq<Incoming>)
    requires Inv(m)
    ensures Inv(HandleAll(m, messages))
  {
    hide Inv, Handle;
    for k := 0 to |messages|
      invariant Inv(HandleAll(m, messages[..k]))
    {
      HandleKeeps(HandleAll(m, messages[..k]), messages[k]);
      assert messages[..k + 1][..k] == messages[..k];
    }
    assert messages[..|messages|] == messages;
  }

  lemma StepKeeps(m: Machine, e: Event)
    requires Inv(m)
    ensures Inv(Step(m, e))
  {
    hide Inv, HandleAll, FailAndClose, Fail;
    FailAndCloseKeeps(m);
    match e
    case Connect(disconnects) => ConnectKeeps(m, disconnects);
    case FactoryResolved(id) => TransportOpenedKeeps(m, id);
    case FactoryRejected(id) => TransportRefusedKeeps(m, id);
    case Data(id, decoded) => if decoded.Some? { DataKeeps(m, decoded.value); }
    case Close(id) => CloseKeeps(m, id);
    case _ =>
  }

  /** Over every interleaving of API calls, factory outcomes and transport callbacks: announcements follow the
      grammar, attempt by attempt, and tell the state; every promise is settled exactly once, or belongs to the attempt
      under way, and is resolved only if that attempt was announced as connected; every transport received is the
      current one or closed. */
  lemma {:induction false} EveryRun(events: seq<Event>)
    ensures Inv(Run(NEW, events))
  {
    if events != [] {
      EveryRun(events[..|events| - 1]);
      StepKeeps(Run(NEW, events[..|events| - 1]), events[|events| - 1]);
      hide Inv, Step;
    }
  }

  /** What that says once the connection is down. */
  lemma NothingIsLeftBehind(events: seq<Event>, id: nat)
    requires Run(NEW, events).lifecycle.Disconnected?
    ensures var m := Run(NEW, events);
      && (1 <= id <= m.sequence <==> IsSettled(m.settlements, id))
      && m.received == m.closed
      && (m.notes != [] ==> m.notes[|m.notes| - 1] == Note(m.sequence, IsDisconnected))
  {
    EveryRun(events);
  }

  /** A callback of the attempt `id`. */
  predicate CallbackOf(e: Event, id: nat) {
    match e
    case Connect(_) => false
    case Disconnect => false
    case FactoryResolved(x) => x == id
    case FactoryRejected(x) => x == id
    case HelloFailed(x) => x == id
    case SendFailed(x) => x == id
    case Data(x, _) => x == id
    case Close(x) => x == id
    case Error(x) => x == id
  }

  /** Callbacks of an attempt that is over announce nothing, settle nothing and leave the lifecycle alone; at most
      they close the transport that came too late. */
  lemma SupersededIsSilent(m: Machine, e: Event, id: nat)
    requires Inv(m) && CallbackOf(e, id) && !IsCurrent(m, id)
    ensures var m' := Step(m, e);
      && m'.lifecycle == m.lifecycle && m'.notes == m.notes && m'.settlements == m.settlements
          && m'.sequence == m.sequence
      && m'.received - m.received == m'.closed - m.closed <= {id}
      && (e.FactoryResolved? || e.FactoryRejected? || m' == m)
  {
  }

  /** Two machines that nobody outside can tell apart, but for transports of attempts that are over. */
  predicate SameFace(m: Machine, n: Machine) {
    m.lifecycle == n.lifecycle && m.notes == n.notes && m.settlements == n.settlements && m.sequence == n.sequence
  }

  predicate Stale(m: Machine, e: Event) {
    !e.Connect? && !e.Disconnect? && !IsCurrent(m, e.id)
  }

  /** The events without the callbacks that came when their attempt was over. */
  function Pruned(events: seq<Event>): seq<Event> {
    if events == [] then []
    else
      var past, e := events[..|events| - 1], events[|events| - 1];
      if Stale(Run(NEW, past), e) then Pruned(past) else Pruned(past) + [e]
  }

  /** Of the current attempt it shows whether its factory call is still open. */
  lemma OpeningShows(m: Machine)
    requires Inv(m) && !m.lifecycle.Disconnected?
    ensures m.lifecycle.id in m.opening <==> m.lifecycle.Connecting? && !m.lifecycle.ready
  {
  }

  lemma SameFailure(m: Machine, n: Machine)
    requires SameFace(m, n)
    ensures SameFace(Fail(m), Fail(n)) && SameFace(FailAndClose(m), FailAndClose(n))
  {
  }

  lemma SameGreeting(m: Machine, n: Machine, i: Incoming)
    requires SameFace(m, n)
    ensures SameFace(Handle(m, i), Handle(n, i))
  {
  }

  lemma {:induction false} SameHandling(m: Machine, n: Machine, messages: seq<Incoming>)
    requires SameFace(m, n)
    ensures SameFace(HandleAll(m, messages), HandleAll(n, messages))
  {
    if messages != [] {
      SameHandling(m, n, messages[..|messages| - 1]);
      SameGreeting(HandleAll(m, messages[..|messages| - 1]), HandleAll(n, messages[..|messages| - 1]),
          messages[|messages| - 1]);
    }
  }

  lemma SameStep(m: Machine, n: Machine, e: Event)
    requires Inv(m) && Inv(n) && SameFace(m, n) && !Stale(m, e)
    ensures SameFace(Step(m, e), Step(n, e))
  {
    SameFailure(m, n);
    if !m.lifecycle.Disconnected? {
      OpeningShows(m);
      OpeningShows(n);
    }
    if e.Data? && e.decoded.Some? {
      SameHandling(m, n, e.decoded.value);
    }
    hide Inv, HandleAll;
  }

  /** A whole run with the callbacks of superseded attempts taken out looks the same from outside: same state, same
      announcements, same promises settled the same way in the same order. */
  lemma {:induction false} SupersededNeverMatter(events: seq<Event>)
    ensures SameFace(Run(NEW, events), Run(NEW, Pruned(events)))
  {
    if events != [] {
      var past, e := events[..|events| - 1], events[|events| - 1];
      SupersededNeverMatter(past);
      EveryRun(past);
      EveryRun(Pruned(past));
      var m, n := Run(NEW, past), Run(NEW, Pruned(past));
      if Stale(m, e) {
        SupersededIsSilent(m, e, e.id);
      } else {
        SameStep(m, n, e);
        assert (Pruned(past) + [e])[..|Pruned(past)|] == Pruned(past);
      }
      hide Step, Inv;
    }
  }

  /** `Connection`, with its lifecycle reassigned by every method and callback. */
  class Connection {
    var lifecycle: Lifecycle
    var sequence: nat
    var notes: seq<Note>
    var settlements: seq<Settlement<bool>>
    var opening: set<nat>
    var received: set<nat>
    var closed: set<nat>

    function View(): Machine
      reads this
    {
      Machine(lifecycle, sequence, notes, settlements, opening, received, closed)
    }

    ghost predicate Valid()
      reads this
    {
      Inv(View())
    }

    constructor ()
      ensures Valid() && View() == NEW
    {
      lifecycle, sequence, notes, settlements := Disconnected, 0, [], [];
      opening, received, closed := {}, {}, {};
      new;
      EveryRun([]);
    }

    method FailNow()
      modifies this
      ensures View() == Fail(old(View()))
    {
      if lifecycle.Disconnected? {
        return;
      }
      var was := lifecycle;
      lifecycle := Disconnected;
      if Unsettled(was) {
        settlements := settlements + [Settlement(was.id, false)];
      }
      notes := notes + [Note(was.id, IsDisconnected)];
    }

    method FailAndCloseNow()
      modifies this
      ensures View() == FailAndClose(old(View()))
    {
      var was := lifecycle;
      FailNow();
      if HasTransport(was) {
        closed := closed + {was.id};
      }
    }

    /** Opens an attempt unless there is one; returns the number of its promise. */
    method Open(disconnectsOnChange: bool) returns (id: Option<nat>)
      requires Valid()
      modifies this
      ensures Valid() && View() == Step(old(View()), Connect(disconnectsOnChange))
      ensures id == if old(lifecycle).Disconnected? then Some(sequence) else None
    {
      StepKeeps(View(), Connect(disconnectsOnChange));
      hide Inv;
      if !lifecycle.Disconnected? {
        return None;
      }
      sequence := sequence + 1;
      id := Some(sequence);
      lifecycle := Connecting(sequence, false);
      notes := notes + [Note(sequence, IsConnecting)];
      opening := opening + {sequence};
      if disconnectsOnChange {
        FailAndCloseNow();
      }
    }

    method TransportOpened(id: nat)
      requires Valid() && id in opening
      modifies this
      ensures Valid() && View() == Step(old(View()), FactoryResolved(id))
    {
      StepKeeps(View(), FactoryResolved(id));
      hide Inv;
      opening := opening - {id};
      received := received + {id};
      if !lifecycle.Connecting? || lifecycle.id != id {
        closed := closed + {id};
        return;
      }
      lifecycle := Connecting(id, true);
    }

    method TransportRefused(id: nat)
      requires Valid() && id in opening
      modifies this
      ensures Valid() && View() == Step(old(View()), FactoryRejected(id))
    {
      StepKeeps(View(), FactoryRejected(id));
      hide Inv;
      opening := opening - {id};
      if !lifecycle.Disconnected? && lifecycle.id == id {
        FailNow();
      }
    }

    method HandleHello(i: Incoming)
      requires lifecycle.Connecting?
      modifies this
      ensures View() == Greeted(old(View()), i)
    {
      var id := lifecycle.id;
      lifecycle := Connected(id, true);
      if i.onHandshake != Quiet {
        FailAndCloseNow();
        return;
      }
      notes := notes + [Note(id, IsConnected)];
      if i.disconnectsOnChange {
        FailAndCloseNow();
        return;
      }
      lifecycle := Connected(id, false);
      settlements := settlements + [Settlement(id, true)];
    }

    method HandleMessage(i: Incoming)
      modifies this
      ensures View() == Handle(old(View()), i)
    {
      match lifecycle {
        case Disconnected => {}
        case Connecting(_, ready) =>
          if i.kind != Hello || !ready {
            FailAndCloseNow();
          } else {
            HandleHello(i);
          }
        case Connected(_, _) =>
          if i.kind != Other || i.disconnectsOnMessage {
            FailAndCloseNow();
          }
      }
    }

    /** The messages of one chunk, in order, for as long as the connection is up. */
    method HandleData(id: nat, decoded: Option<seq<Incoming>>)
      requires Valid()
      modifies this
      ensures Valid() && View() == Step(old(View()), Data(id, decoded))
    {
      StepKeeps(View(), Data(id, decoded));
      hide Inv;
      if lifecycle.Disconnected? || lifecycle.id != id {
        return;
      }
      if lifecycle.Connecting? && !lifecycle.ready {
        FailAndCloseNow();
        return;
      }
      if decoded == None {
        FailAndCloseNow();
        return;
      }
      var messages := decoded.value;
      var k := 0;
      while k < |messages|
        invariant 0 <= k <= |messages|
        invariant View() == HandleAll(old(View()), messages[..k])
      {
        if lifecycle.Disconnected? {
          DownStaysDown(old(View()), messages, k);
          return;
        }
        HandleMessage(messages[k]);
        assert messages[..k + 1][..k] == messages[..k];
        k := k + 1;
      }
      assert messages[..k] == messages;
    }

    method HandleClose(id: nat)
      requires Valid()
      modifies this
      ensures Valid() && View() == Step(old(View()), Close(id))
    {
      StepKeeps(View(), Close(id));
      hide Inv;
      if !lifecycle.Disconnected? && lifecycle.id == id {
        if HasTransport(lifecycle) {
          closed := closed + {id};
        }
        FailNow();
      }
    }

    /** `disconnect` and `fail`. */
    method DisconnectNow()
      requires Valid()
      modifies this
      ensures Valid() && View() == Step(old(View()), Disconnect)
    {
      StepKeeps(View(), Disconnect);
      hide Inv;
      FailAndCloseNow();
    }

    method HandleError(id: nat)
      requires Valid()
      modifies this
      ensures Valid() && View() == Step(old(View()), Error(id))
    {
      StepKeeps(View(), Error(id));
      hide Inv;
      if !lifecycle.Disconnected? && lifecycle.id == id {
        FailAndCloseNow();
      }
    }

    /** The hello or a later frame could not be sent on the transport of this attempt. */
    method SendingFailed(id: nat, hello: bool)
      requires Valid()
      modifies this
      ensures Valid() && View() == Step(old(View()), if hello then HelloFailed(id) else SendFailed(id))
    {
      StepKeeps(View(), if hello then HelloFailed(id) else SendFailed(id));
      hide Inv;
      if !lifecycle.Disconnected? && lifecycle.id == id && HasTransport(lifecycle) {
        FailAndCloseNow();
      }
    }
  }

  /** Messages after the connection went down are dropped, so leaving the loop early skips nothing. */
  lemma {:induction false} DownStaysDown(m: Machine, messages: seq<Incoming>, k: nat)
    requires k <= |messages| && HandleAll(m, messages[..k]).lifecycle.Disconnected?
    ensures HandleAll(m, messages) == HandleAll(m, messages[..k])
  {
    if k < |messages| {
      DownStaysDown(m, messages[..|messages| - 1], k) by {
        assert messages[..|messages| - 1][..k] == messages[..k];
      }
      assert messages[..|messages| - 1][..k] == messages[..k];
    } else {
      assert messages[..k] == messages;
    }
  }
}
