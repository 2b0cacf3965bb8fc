/** The `streamEvents` actor: one event source at a time, reopened after growing delays until disposed. */
module Reconnect {
  import opened Prelude

  const RECONNECT_DELAYS_MS: seq<nat> := [1000, 2000, 5000, 10_000, 30_000]

  function DelayMs(retryIndex: nat): (r: nat)
    ensures 1000 <= r <= 30_000
    ensures retryIndex >= 4 ==> r == 30_000
  {
    RECONNECT_DELAYS_MS[Min(retryIndex, |RECONNECT_DELAYS_MS| - 1)]
  }

  /** What the actor sends back to the machine about the connection. */
  datatype Signal = Connected | Disconnected

  /** The machine's monitor region, which these signals drive. */
  datatype Monitor = Connecting | Live | Degraded

  function OnSignal(m: Monitor, s: Signal): Monitor {
    match s
    case Connected => Live
    case Disconnected => Degraded
  }

  /** The closure's variables. A source is the number of the EventSource; `created` counts them; `timer`
      holds the delay of the pending reconnect; `sent` lists the signals. */
  datatype Stream = Stream(retryIndex: nat, source: Option<nat>, timer: Option<nat>, closed: bool, created: nat, sent: seq<Signal>)

  /** The handlers that can run. Closing a source removes its `onopen` and `onerror`, so those two come from the
      current source only. */
  datatype Handler = OnOpen | OnError | OnTimer | OnDispose

  predicate CanRun(s: Stream, h: Handler) {
    match h
    case OnOpen => s.source.Some?
    case OnError => s.source.Some?
    case OnTimer => s.timer.Some?
    case OnDispose => !s.closed
  }

  function OpenStream(s: Stream): Stream {
    if s.closed then s else s.(source := Some(s.created), created := s.created + 1)
  }

  function ScheduleReconnect(s: Stream): Stream {
    if s.closed || s.timer.Some? then s
    else s.(timer := Some(DelayMs(s.retryIndex)), retryIndex := s.retryIndex + 1)
  }

  function Started(): Stream {
    OpenStream(Stream(0, None, None, false, 0, []))
  }

  function Handle(s: Stream, h: Handler): Stream {
    match h
    case OnOpen => s.(retryIndex := 0, sent := s.sent + [Connected])
    case OnError => ScheduleReconnect(s.(sent := s.sent + [Disconnected], source := None))
    case OnTimer => OpenStream(s.(timer := None))
    case OnDispose => s.(closed := true, timer := None, source := None)
  }

  ghost predicate Run(s: Stream, hs: seq<Handler>)
    decreases |hs|
  {
    hs != [] ==> Run(s, hs[..|hs| - 1]) && CanRun(After(s, hs[..|hs| - 1]), hs[|hs| - 1])
  }

  function After(s: Stream, hs: seq<Handler>): Stream
    decreases |hs|
  {
    if hs == [] then s else Handle(After(s, hs[..|hs| - 1]), hs[|hs| - 1])
  }

  /** How many errors there were since the last successful open. */
  function FailuresSinceOpen(hs: seq<Handler>): nat {
    if hs == [] then 0
    else
      var before := FailuresSinceOpen(hs[..|hs| - 1]);
      match hs[|hs| - 1] case OnOpen => 0 case OnError => before + 1 case _ => before
  }

  function MonitorAfter(sent: seq<Signal>): Monitor {
    if sent == [] then Connecting else OnSignal(MonitorAfter(sent[..|sent| - 1]), sent[|sent| - 1])
  }

  /** Between handlers, a live actor has either an open source or a pending reconnect, never both and never
      neither; a disposed one has none of them, and no handler can run any more. */
  lemma {:induction false} OneConnection(hs: seq<Handler>)
    requires Run(Started(), hs)
    ensures var s := After(Started(), hs);
      && (!s.closed ==> (s.source.Some? <==> s.timer.None?))
      && (s.closed <==> OnDispose in hs)
      && (s.closed ==> s.source.None? && s.timer.None? && forall h :: !CanRun(s, h))
      && s.retryIndex == FailuresSinceOpen(hs)
    decreases |hs|
  {
    if hs != [] {
      OneConnection(hs[..|hs| - 1]);
      assert hs == hs[..|hs| - 1] + [hs[|hs| - 1]];
    }
  }

  /** After the k-th failure since the last successful open, the reconnect waits one, two, five, ten seconds, and half a
      minute from the fifth on. */
  lemma DelaySequence(hs: seq<Handler>)
    requires Run(Started(), hs + [OnError])
    ensures After(Started(), hs + [OnError]).timer
         == Some(match FailuresSinceOpen(hs) case 0 => 1000 case 1 => 2000 case 2 => 5000 case 3 => 10_000 case _ => 30_000)
  {
    var all := hs + [OnError];
    assert all[..|all| - 1] == hs;
    OneConnection(hs);
    OneConnection(all);
  }

  /** The monitor region never claims a connection that is gone: until disposal, `Live` means an open source whose
      last sign was its opening, `Degraded` means at least one failure since the last opening, and `Connecting`
      that nothing was heard yet. */
  lemma {:induction false} MonitorTracks(hs: seq<Handler>)
    requires Run(Started(), hs)
    ensures var s := After(Started(), hs); var m := MonitorAfter(s.sent);
      && (m.Live? ==> FailuresSinceOpen(hs) == 0 && (!s.closed ==> s.source.Some?))
      && (m.Degraded? <==> FailuresSinceOpen(hs) > 0)
      && (m.Connecting? <==> OnOpen !in hs && OnError !in hs)
    decreases |hs|
  {
    if hs != [] {
      var n := |hs| - 1;
      assert hs == hs[..n] + [hs[n]];
      MonitorTracks(hs[..n]);
      OneConnection(hs[..n]);
      OneConnection(hs);
      SignalSent(After(Started(), hs[..n]), hs[n]);
      hide Handle;
      hide MonitorAfter;
    }
  }

  /** What a handler makes the monitor region. */
  lemma SignalSent(s: Stream, h: Handler)
    ensures var m, t := MonitorAfter(s.sent), Handle(s, h);
      && MonitorAfter(t.sent) == (match h case OnOpen => Live case OnError => Degraded case _ => m)
      && (h.OnOpen? ==> t.source == s.source) && (h.OnTimer? && !s.closed ==> t.source.Some?)
      && (h.OnDispose? ==> t.closed) && (h.OnOpen? ==> t.closed == s.closed)
  {
    assert (s.sent + [Connected])[..|s.sent|] == s.sent;
    assert (s.sent + [Disconnected])[..|s.sent|] == s.sent;
  }

  /** The actor itself. */
  class StreamSupervisor {
    var retryIndex: nat
    var source: Option<nat>
    var reconnectTimer: Option<nat>
    var closed: bool
    var created: nat
    var sent: seq<Signal>

    ghost function State(): Stream
      reads this
    {
      Stream(retryIndex, source, reconnectTimer, closed, created, sent)
    }

    constructor ()
      ensures State() == Started()
    {
      retryIndex, source, reconnectTimer, closed, created, sent := 0, None, None, false, 0, [];
      new;
      OpenSource();
    }

    method CloseSource()
      modifies this`source
      ensures source == None
    {
      if source.None? {
        return;
      }
      source := None;
    }

    method ScheduleRetry()
      modifies this`retryIndex, this`reconnectTimer
      ensures State() == ScheduleReconnect(old(State()))
    {
      if closed || reconnectTimer.Some? {
        return;
      }
      reconnectTimer := Some(DelayMs(retryIndex));
      retryIndex := retryIndex + 1;
    }

    method OpenSource()
      modifies this`source, this`created
      ensures State() == OpenStream(old(State()))
    {
      if closed {
        return;
      }
      CloseSource();
      source := Some(created);
      created := created + 1;
    }

    method Opened()
      requires source.Some?
      modifies this`retryIndex, this`sent
      ensures State() == Handle(old(State()), OnOpen)
    {
      retryIndex := 0;
      sent := sent + [Connected];
    }

    method Failed()
      requires source.Some?
      modifies this
      ensures State() == Handle(old(State()), OnError)
    {
      sent := sent + [Disconnected];
      CloseSource();
      ScheduleRetry();
    }

    method TimerFired()
      requires reconnectTimer.Some?
      modifies this
      ensures State() == Handle(old(State()), OnTimer)
    {
      reconnectTimer := None;
      OpenSource();
    }

    method Dispose()
      modifies this
      ensures State() == Handle(old(State()), OnDispose)
    {
      closed := true;
      if reconnectTimer.Some? {
        reconnectTimer := None;
      }
      CloseSource();
    }
  }
}
