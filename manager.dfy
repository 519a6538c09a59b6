/** The connection manager of the page: it owns one peer connection, logs
    every ICE candidate the connection discovers, rebuilds a snapshot of the
    connection's state on the events that matter, and is an external store
    for React's `useSyncExternalStore` (subscribe, notify, getSnapshot). */
module Manager {
  import opened Util
  import opened Rtc

  /** A subscribed callback, identified as JavaScript identifies functions. */
  datatype Listener = Listener(id: nat)

  /** The function `subscribe` returns; calling it removes `listener` again. */
  datatype Unsubscribe = Unsubscribe(listener: Listener)

  /** The events an `RTCPeerConnection` dispatches to the manager. */
  datatype PeerEvent =
    | SignalingStateChange
    | ConnectionStateChange
    | IceGatheringStateChange
    | IceCandidateEvent(candidate: Option<IceCandidate>)  // None: the end-of-candidates event
    | IceConnectionStateChange
    | IceCandidateError
    | NegotiationNeeded
    | DataChannelAnnounced
    | Track

  /** The events whose listeners call `updateState`. */
  predicate Refreshes(e: PeerEvent) {
    e.SignalingStateChange? || e.ConnectionStateChange? || e.IceGatheringStateChange? || e.IceCandidateEvent?
  }

  /** What one event appends to the candidate log. */
  function Pushed(e: PeerEvent): seq<Option<IceCandidate>> {
    if e.IceCandidateEvent? then [e.candidate] else []
  }

  /** The candidate log produced by a sequence of events, oldest first. */
  function Trace(es: seq<PeerEvent>): seq<Option<IceCandidate>> {
    if es == [] then [] else Trace(es[..|es| - 1]) + Pushed(es[|es| - 1])
  }

  /** The log of a concatenation of event sequences is the concatenation of their logs. */
  lemma {:induction false} TraceAppend(a: seq<PeerEvent>, b: seq<PeerEvent>)
    ensures Trace(a + b) == Trace(a) + Trace(b)
  {
    if b == [] {
      assert a + b == a;
    } else {
      assert (a + b)[..|a + b| - 1] == a + b[..|b| - 1];
      TraceAppend(a, b[..|b| - 1]);
    }
  }

  /** Later events never change, remove or reorder entries already logged. */
  lemma TraceExtends(es: seq<PeerEvent>, k: nat)
    requires k <= |es|
    ensures Trace(es[..k]) <= Trace(es)
    ensures |Trace(es)| - |Trace(es[..k])| == |Trace(es[k..])|
  {
    assert es == es[..k] + es[k..];
    TraceAppend(es[..k], es[k..]);
  }

  /** The log holds exactly one entry per `icecandidate` event, in event order. */
  lemma {:induction false} TraceCandidates(es: seq<PeerEvent>, i: nat)
    requires i < |es| && es[i].IceCandidateEvent?
    ensures |Trace(es[..i])| < |Trace(es)|
    ensures Trace(es)[|Trace(es[..i])|] == es[i].candidate
  {
    assert es == es[..i] + [es[i]] + es[i + 1..];
    TraceAppend(es[..i] + [es[i]], es[i + 1..]);
    TraceAppend(es[..i], [es[i]]);
    assert Trace([es[i]]) == [es[i].candidate] by {
      assert [es[i]][..0] == [];
    }
  }

  /** Events other than `icecandidate` log nothing. */
  lemma {:induction false} TraceOfOtherEvents(es: seq<PeerEvent>)
    requires forall i :: 0 <= i < |es| ==> !es[i].IceCandidateEvent?
    ensures Trace(es) == []
  {
    if es != [] {
      TraceOfOtherEvents(es[..|es| - 1]);
    }
  }

  /** The JavaScript array `candidates`, an object that snapshots share. */
  class CandidateList {
    var items: seq<Option<IceCandidate>>

    constructor ()
      ensures items == []
    {
      items := [];
    }

    method Push(c: Option<IceCandidate>)
      modifies this
      ensures items == old(items) + [c]
    {
      items := items + [c];
    }
  }

  /** The object `updateState` builds: a copy of the six connection fields and
      a reference to the manager's own candidate list (not a copy). */
  class Snapshot {
    const connection: ConnectionFields
    const candidates: CandidateList

    constructor (connection: ConnectionFields, candidates: CandidateList)
      ensures this.connection == connection && this.candidates == candidates
    {
      this.connection := connection;
      this.candidates := candidates;
    }
  }

  class WebrtcManager {
    const pc: PeerConnection
    const candidates: CandidateList
    var state: Snapshot?
    /** The listener `Set`, in its iteration (insertion) order. */
    var listeners: seq<Listener>
    /** Every listener invocation so far, in order. */
    var delivered: seq<Listener>

    ghost predicate Valid()
      reads this
    {
      state != null && state.candidates == candidates && NoDup(listeners)
    }

    /** The candidate list starts empty; the constructor's closing
        `updateState` then makes a first snapshot and notifies nobody. */
    constructor (pc: PeerConnection)
      ensures Valid() && this.pc == pc
      ensures fresh(candidates) && candidates.items == []
      ensures fresh(state) && state.connection == pc.Fields()
      ensures listeners == [] && delivered == []
    {
      this.pc := pc;
      candidates := new CandidateList();
      state := null;
      listeners := [];
      delivered := [];
      new;
      UpdateState();
    }

    /** Replaces the snapshot by a fresh one holding the current connection
        fields and the shared candidate list, then notifies once. */
    method UpdateState()
      requires NoDup(listeners)
      modifies this
      ensures Valid() && fresh(state)
      ensures state.connection == pc.Fields() && state.candidates == candidates
      ensures listeners == old(listeners)
      ensures delivered == old(delivered) + listeners
    {
      state := new Snapshot(pc.Fields(), candidates);
      Notify();
    }

    /** Invokes every registered listener once, in iteration order. */
    method Notify()
      modifies this`delivered
      ensures delivered == old(delivered) + listeners
    {
      for i := 0 to |listeners|
        invariant delivered == old(delivered) + listeners[..i]
      {
        delivered := delivered + [listeners[i]];
      }
    }

    /** Adds `l` to the listener set (a second subscription of the same
        function changes nothing) and returns the function that removes it. */
    method Subscribe(l: Listener) returns (unsubscribe: Unsubscribe)
      requires Valid()
      modifies this`listeners
      ensures Valid() && unsubscribe.listener == l
      ensures Elements(listeners) == old(Elements(listeners)) + {l}
      ensures listeners == if l in old(listeners) then old(listeners) else old(listeners) + [l]
    {
      if l !in listeners {
        listeners := listeners + [l];
        assert NoDup(listeners) by {
          forall i, j | 0 <= i < j < |listeners| ensures listeners[i] != listeners[j] {
            if j == |listeners| - 1 { assert listeners[i] in old(listeners); }
          }
        }
      }
      unsubscribe := Unsubscribe(l);
    }

    /** Calls an unsubscribe function: removes its listener only, the
        others stay registered in the same order. */
    method CallUnsubscribe(unsubscribe: Unsubscribe)
      requires Valid()
      modifies this`listeners
      ensures Valid()
      ensures listeners == Without(old(listeners), unsubscribe.listener)
      ensures Elements(listeners) == old(Elements(listeners)) - {unsubscribe.listener}
    {
      listeners := Without(listeners, unsubscribe.listener);
    }

    /** The snapshot last assigned by `updateState`; its candidate list is
        the manager's own, so it shows candidates pushed after it was made. */
    function GetSnapshot(): (s: Snapshot)
      reads this
      requires Valid()
      ensures s == state && s.candidates == candidates
    {
      state
    }

    /** The listeners the manager has on its peer connection: the three
        state-change events refresh the snapshot; `icecandidate` first
        appends its candidate (possibly the end-of-candidates `null`);
        every other event reaches none of the manager's own listeners. */
    method Dispatch(e: PeerEvent)
      requires Valid()
      modifies this, candidates
      ensures Valid() && listeners == old(listeners)
      ensures candidates.items == old(candidates.items) + Pushed(e)
      ensures Refreshes(e) ==> fresh(state) && state.connection == pc.Fields()
      ensures Refreshes(e) ==> delivered == old(delivered) + listeners
      ensures !Refreshes(e) ==> state == old(state) && delivered == old(delivered)
    {
      match e
      case SignalingStateChange | ConnectionStateChange | IceGatheringStateChange =>
        UpdateState();
      case IceCandidateEvent(c) =>
        candidates.Push(c);
        UpdateState();
      case _ =>
    }
  }

  /** One notification reaches each registered listener exactly once and no
      other callback at all. */
  lemma NotifyDeliversOnce(before: seq<Listener>, listeners: seq<Listener>, l: Listener)
    requires NoDup(listeners)
    ensures Count(before + listeners, l) == Count(before, l) + (if l in listeners then 1 else 0)
  {
    CountAppend(before, listeners, l);
    NoDupCount(listeners, l);
  }

  /** After unsubscribing `l`, the next notification skips `l` and still
      reaches every other registered listener exactly once. */
  lemma UnsubscribeKeepsOthers(before: seq<Listener>, listeners: seq<Listener>, l: Listener, other: Listener)
    requires NoDup(listeners) && other != l
    ensures Count(before + Without(listeners, l), l) == Count(before, l)
    ensures Count(before + Without(listeners, l), other) == Count(before, other) + (if other in listeners then 1 else 0)
  {
    CountAppend(before, Without(listeners, l), l);
    CountAppend(before, Without(listeners, l), other);
    WithoutKeepsOthers(listeners, l, other);
    NoDupCount(listeners, other);
  }

  /** The browser delivering a sequence of events to the manager, one at a
      time: the candidate list grows by exactly the log of those events. */
  method DispatchAll(m: WebrtcManager, es: seq<PeerEvent>)
    requires m.Valid()
    modifies m, m.candidates
    ensures m.Valid() && m.listeners == old(m.listeners)
    ensures m.candidates.items == old(m.candidates.items) + Trace(es)
  {
    for i := 0 to |es|
      invariant m.Valid() && m.listeners == old(m.listeners)
      invariant m.candidates.items == old(m.candidates.items) + Trace(es[..i])
    {
      assert es[..i + 1][..i] == es[..i];
      m.Dispatch(es[i]);
    }
    assert es[..|es|] == es;
  }

  /** A client of the manager: the snapshot is replaced only by the events
      that refresh it, so an `iceconnectionstatechange` leaves a stale one. */
  method SnapshotScenario()
  {
    var pc := new PeerConnection();
    var m := new WebrtcManager(pc);
    var s0 := m.GetSnapshot();
    assert m.GetSnapshot() == s0;

    pc.iceConnectionState := IceConnectionState.Checking;
    m.Dispatch(IceConnectionStateChange);
    assert m.GetSnapshot() == s0;
    assert s0.connection.iceConnectionState == IceConnectionState.New;

    pc.iceGatheringState := IceGatheringState.Gathering;
    m.Dispatch(IceGatheringStateChange);
    var s1 := m.GetSnapshot();
    assert s1 != s0;
    assert s1.connection.iceConnectionState == IceConnectionState.Checking;
  }

  /** A client of the manager: an earlier snapshot shows later candidates,
      and notifications follow the listener set. */
  method CandidateScenario(c: IceCandidate)
  {
    var pc := new PeerConnection();
    var m := new WebrtcManager(pc);
    var a, b := Listener(1), Listener(2);
    var unsubscribeA := m.Subscribe(a);
    var _ := m.Subscribe(b);
    var _ := m.Subscribe(a);
    assert m.listeners == [a, b];
    var s0 := m.GetSnapshot();

    m.Dispatch(IceCandidateEvent(Some(c)));
    m.CallUnsubscribe(unsubscribeA);
    assert m.listeners == [b];
    m.Dispatch(IceCandidateEvent(None));
    assert s0.candidates.items == [Some(c), None];
    assert m.delivered == [a, b, b];
  }
}
