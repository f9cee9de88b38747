/** What each call and callback of a connection achieves, stated by the state, the announcements, the promises and the
    closed transports it leads to. */
module ConnectionEffects {
  import opened ConnectionLifecycle
  import opened Promises
  import opened Seqs

  /** An ordinary message: neither a hello nor a hello error, and the hook it reaches leaves the connection alone. */
  predicate Ordinary(i: Incoming) {
    i.kind == Other && !i.disconnectsOnMessage
  }

  /** The attempt is over: announced, its promise rejected if it was still open, and its transport closed by the
      connection or not. */
  predicate WentDown(m: Machine, m': Machine, id: nat, rejected: bool, closes: bool) {
    m' == m.(lifecycle := Disconnected,
             notes := m.notes + [Note(id, IsDisconnected)],
             settlements := if rejected then m.settlements + [Settlement(id, false)] else m.settlements,
             closed := if closes then m.closed + {id} else m.closed)
  }

  /** The attempt is connected: announced, and its promise resolved. */
  predicate CameUp(m: Machine, m': Machine, id: nat) {
    m' == m.(lifecycle := Connected(id, false),
             notes := m.notes + [Note(id, IsConnected)],
             settlements := m.settlements + [Settlement(id, true)])
  }

  /** A chunk on a connected connection changes nothing if it decodes to ordinary messages, and otherwise ends it. */
  lemma ConnectedData(m: Machine, id: nat, decoded: Option<seq<Incoming>>)
    requires m.lifecycle == Connected(id, false)
    ensures var m' := Step(m, Data(id, decoded));
      if decoded.Some? && forall i <- decoded.value :: Ordinary(i) then m' == m else WentDown(m, m', id, false, true)
  {
    assert m.settlements + [] == m.settlements;
    if decoded.Some? {
      ConnectedMessages(m, id, decoded.value);
      hide HandleAll;
    }
  }

  lemma {:induction false} ConnectedMessages(m: Machine, id: nat, messages: seq<Incoming>)
    requires m.lifecycle == Connected(id, false)
    ensures var m' := HandleAll(m, messages);
      if forall i <- messages :: Ordinary(i) then m' == m else WentDown(m, m', id, false, true)
  {
    if messages != [] {
      var front, last := messages[..|messages| - 1], messages[|messages| - 1];
      assert messages == front + [last];
      ConnectedMessages(m, id, front);
      hide Ordinary, WentDown;
      if forall i <- front :: Ordinary(i) {
        ConnectedMessage(m, id, last);
      } else {
        DownIgnoresOne(m, HandleAll(m, front), id, last);
      }
      hide Handle;
    }
  }

  lemma ConnectedMessage(m: Machine, id: nat, i: Incoming)
    requires m.lifecycle == Connected(id, false)
    ensures if Ordinary(i) then Handle(m, i) == m else WentDown(m, Handle(m, i), id, false, true)
  {
    assert m.settlements + [] == m.settlements;
  }

  lemma DownIgnoresOne(m: Machine, down: Machine, id: nat, i: Incoming)
    requires WentDown(m, down, id, false, true)
    ensures Handle(down, i) == down
  {
  }

  lemma {:induction false} DownIgnores(m: Machine, messages: seq<Incoming>)
    requires m.lifecycle.Disconnected?
    ensures HandleAll(m, messages) == m
  {
    if messages != [] {
      DownIgnores(m, messages[..|messages| - 1]);
    }
  }

  lemma {:induction false} FirstThenRest(m: Machine, messages: seq<Incoming>)
    requires messages != []
    ensures HandleAll(m, messages) == HandleAll(Handle(m, messages[0]), messages[1..])
  {
    var n := |messages| - 1;
    if n == 0 {
      assert messages[..0] == [] && messages[1..] == [];
    } else {
      FirstThenRest(m, messages[..n]);
      assert messages[..n][1..] == messages[1..][..n - 1];
      assert messages[..n][0] == messages[0] && messages[1..][n - 1] == messages[n];
    }
    hide Handle;
  }

  /** A chunk on an attempt whose transport is open: nothing happens if it decodes to nothing; a quiet hello followed by
      ordinary messages connects it; a hello whose hooks end the attempt, a message after the hello that is not
      ordinary, anything else than a hello, or bytes that do not decode bring it down, before or after it was
      announced. */
  lemma HandshakeData(m: Machine, id: nat, decoded: Option<seq<Incoming>>)
    requires m.lifecycle == Connecting(id, true)
    ensures var m' := Step(m, Data(id, decoded));
      var connected := m.(notes := m.notes + [Note(id, IsConnected)]);
      match decoded
      case None => WentDown(m, m', id, true, true)
      case Some(messages) =>
        if messages == [] then m' == m
        else
          var hello := messages[0];
          if hello.kind != Hello || hello.onHandshake != Quiet then WentDown(m, m', id, true, true)
          else if hello.disconnectsOnChange then WentDown(connected, m', id, true, true)
          else if forall i <- messages[1..] :: Ordinary(i) then CameUp(m, m', id)
          else exists up :: CameUp(m, up, id) && WentDown(up, m', id, false, true)
  {
    if decoded.Some? && decoded.value != [] {
      var messages := decoded.value;
      FirstThenRest(m, messages);
      var greeted := Handle(m, messages[0]);
      if greeted.lifecycle.Disconnected? {
        DownIgnores(greeted, messages[1..]);
      } else {
        assert CameUp(m, greeted, id);
        ConnectedMessages(greeted, id, messages[1..]);
      }
      hide HandleAll;
    }
  }

  /** Bytes before the transport is known end the attempt; there is no transport to close yet. */
  lemma EarlyData(m: Machine, id: nat, decoded: Option<seq<Incoming>>)
    requires m.lifecycle == Connecting(id, false)
    ensures WentDown(m, Step(m, Data(id, decoded)), id, true, false)
  {
  }

  /** `connect` starts a new attempt unless there is one; a hook may end it at once. */
  lemma Connects(m: Machine, disconnects: bool)
    ensures var m', id := Step(m, Connect(disconnects)), m.sequence + 1;
      if !m.lifecycle.Disconnected? then m' == m
      else
        var started := m.(lifecycle := Connecting(id, false), sequence := id, opening := m.opening + {id},
                          notes := m.notes + [Note(id, IsConnecting)]);
        if disconnects then WentDown(started, m', id, true, false) else m' == started
  {
  }

  /** The transport of the attempt under way is kept; any other is closed. */
  lemma TransportArrives(m: Machine, id: nat)
    requires id in m.opening
    ensures var m' := Step(m, FactoryResolved(id));
      && m'.opening == m.opening - {id} && m'.received == m.received + {id}
      && m'.notes == m.notes && m'.settlements == m.settlements && m'.sequence == m.sequence
      && (if m.lifecycle.Connecting? && m.lifecycle.id == id
          then m'.lifecycle == Connecting(id, true) && m'.closed == m.closed
          else m'.lifecycle == m.lifecycle && m'.closed == m.closed + {id})
  {
  }

  /** A factory that fails ends its attempt if that is still under way. */
  lemma TransportFails(m: Machine, id: nat)
    requires id in m.opening && (m.lifecycle.Connected? ==> !m.lifecycle.handshake)
    ensures var m', without := Step(m, FactoryRejected(id)), m.(opening := m.opening - {id});
      if IsCurrent(m, id) then WentDown(without, m', id, m.lifecycle.Connecting?, false) else m' == without
  {
    assert m.settlements + [] == m.settlements;
  }

  /** What ends an attempt under way: a call to `disconnect` or `fail`, a transport error, a hello or a frame that
      cannot be sent, and a close by the other side, after which the transport counts as closed too. Nothing else
      changes, and none of them reaches an attempt that is over. */
  lemma Ends(m: Machine, id: nat, e: Event)
    requires m.lifecycle.Connected? ==> !m.lifecycle.handshake
    requires e in {Disconnect, Event.Error(id), Close(id), HelloFailed(id), SendFailed(id)}
    ensures var m' := Step(m, e);
      var reached := if e == Disconnect then !m.lifecycle.Disconnected? else IsCurrent(m, id);
      if reached && ((e == HelloFailed(id) || e == SendFailed(id)) ==> HasTransport(m.lifecycle))
      then WentDown(m, m', m.lifecycle.id, m.lifecycle.Connecting?, HasTransport(m.lifecycle))
      else m' == m
  {
    assert m.settlements + [] == m.settlements;
  }
}
