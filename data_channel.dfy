/** The `useDataChannel` hook of the page: its three pieces of React state
    (the channel, the channel's last seen state, the received messages) and
    the listeners `setChannelWrapper` attaches to a channel. */
module DataChannels {
  import opened Util
  import opened Rtc

  /** The `data` of a `message` event: text or binary. */
  datatype MessageData = Text(text: string) | Binary(bytes: seq<bv8>)

  datatype ChannelEventType = OpenEvent | CloseEvent | ClosingEvent | ErrorEvent | MessageEvent

  /** One listener the hook attached: the channel and the event it listens to. */
  datatype ChannelListener = ChannelListener(channel: DataChannel, event: ChannelEventType)

  /** The lifecycle events whose listeners copy `readyState`. */
  const LifecycleEvents: seq<ChannelEventType> := [OpenEvent, CloseEvent, ClosingEvent, ErrorEvent]

  /** The listeners one call of `setChannelWrapper` attaches to `ch`, in order. */
  function Attachment(ch: DataChannel): (r: seq<ChannelListener>)
    ensures |r| == 5
    ensures forall e :: Count(r, ChannelListener(ch, e)) == 1
  {
    var r := [ChannelListener(ch, OpenEvent), ChannelListener(ch, CloseEvent), ChannelListener(ch, ClosingEvent),
              ChannelListener(ch, ErrorEvent), ChannelListener(ch, MessageEvent)];
    assert forall e :: Count(r, ChannelListener(ch, e)) == 1 by {
      forall e ensures Count(r, ChannelListener(ch, e)) == 1 {
        var x := ChannelListener(ch, e);
        assert r[4..][1..] == [];
        assert Count(r[4..], x) == if e == MessageEvent then 1 else 0;
        assert r[3..][1..] == r[4..];
        assert Count(r[3..], x) == if e in {ErrorEvent, MessageEvent} then 1 else 0;
        assert r[2..][1..] == r[3..];
        assert Count(r[2..], x) == if e in {ClosingEvent, ErrorEvent, MessageEvent} then 1 else 0;
        assert r[1..][1..] == r[2..];
        assert Count(r[1..], x) == if e == OpenEvent then 0 else 1;
      }
    }
    r
  }

  class DataChannelHook {
    var channel: DataChannel?
    var state: Option<DataChannelState>
    var messages: seq<MessageData>
    /** Every listener this hook has attached, in attachment order; the code
        never removes one. */
    var listeners: seq<ChannelListener>

    /** The hook's first render: no channel, state `undefined`, no messages. */
    constructor ()
      ensures channel == null && state == None && messages == [] && listeners == []
    {
      channel, state, messages, listeners := null, None, [], [];
    }

    /** `ready`: the last copied state is "open". */
    function Ready(): (r: bool)
      reads this
      ensures r <==> state == Some(DataChannelState.Open)
    {
      state == Some(DataChannelState.Open)
    }

    /** `setChannelWrapper`: attaches the four lifecycle listeners and the
        message listener to `ch` (again, if `ch` was attached before) and
        makes `ch` the current channel. */
    method SetChannelWrapper(ch: DataChannel)
      modifies this
      ensures listeners == old(listeners) + Attachment(ch)
      ensures channel == ch && state == old(state) && messages == old(messages)
      ensures Ready() == old(Ready())
    {
      for i := 0 to |LifecycleEvents|
        invariant listeners == old(listeners) + Attachment(ch)[..i]
        invariant channel == old(channel) && state == old(state) && messages == old(messages)
      {
        listeners := listeners + [ChannelListener(ch, LifecycleEvents[i])];
      }
      listeners := listeners + [ChannelListener(ch, MessageEvent)];
      channel := ch;
    }

    /** The browser fires event `e` on `ch` (`data` is the payload of a
        `message` event). Every listener this hook attached to `ch` for `e`
        runs: a message listener appends `data`, and every one of them copies
        the channel's current `readyState`. */
    method Fire(ch: DataChannel, e: ChannelEventType, data: MessageData)
      modifies this
      ensures channel == old(channel) && listeners == old(listeners)
      ensures var k := Count(listeners, ChannelListener(ch, e));
        messages == old(messages) + (if e == MessageEvent then Repeat(data, k) else [])
      ensures state == if ChannelListener(ch, e) in listeners then Some(ch.readyState) else old(state)
      ensures ChannelListener(ch, e) in listeners ==> (Ready() <==> ch.readyState == DataChannelState.Open)
      ensures ChannelListener(ch, e) !in listeners ==> Ready() == old(Ready())
    {
      var k := Count(listeners, ChannelListener(ch, e));
      CountPositive(listeners, ChannelListener(ch, e));
      if e == MessageEvent {
        messages := messages + Repeat(data, k);
      }
      if k > 0 {
        state := Some(ch.readyState);
      }
    }
  }

  /** Attaching a channel once makes each of its events run exactly one
      listener, whatever other channels were attached before or after it. */
  lemma AttachedOnce(before: seq<ChannelListener>, ch: DataChannel, after: seq<ChannelListener>, e: ChannelEventType)
    requires forall i :: 0 <= i < |before| ==> before[i].channel != ch
    requires forall i :: 0 <= i < |after| ==> after[i].channel != ch
    ensures Count(before + Attachment(ch) + after, ChannelListener(ch, e)) == 1
  {
    CountAppend(before + Attachment(ch), after, ChannelListener(ch, e));
    CountAppend(before, Attachment(ch), ChannelListener(ch, e));
    CountPositive(before, ChannelListener(ch, e));
    CountPositive(after, ChannelListener(ch, e));
  }

  /** Attaching the same channel twice makes each of its events run two
      listeners (so each message arrives twice), whatever other channels were
      attached before, between or after the two attachments. */
  lemma AttachedTwice(before: seq<ChannelListener>, ch: DataChannel, mid: seq<ChannelListener>,
                      after: seq<ChannelListener>, e: ChannelEventType)
    requires forall i :: 0 <= i < |before| ==> before[i].channel != ch
    requires forall i :: 0 <= i < |mid| ==> mid[i].channel != ch
    requires forall i :: 0 <= i < |after| ==> after[i].channel != ch
    ensures Count(before + Attachment(ch) + mid + Attachment(ch) + after, ChannelListener(ch, e)) == 2
  {
    var x := ChannelListener(ch, e);
    CountAppend(before + Attachment(ch) + mid + Attachment(ch), after, x);
    CountAppend(before + Attachment(ch) + mid, Attachment(ch), x);
    CountAppend(before + Attachment(ch), mid, x);
    CountAppend(before, Attachment(ch), x);
    CountPositive(before, x);
    CountPositive(mid, x);
    CountPositive(after, x);
  }

  /** A client of the hook: messages in arrival order, `ready` following the
      channel's state, and a channel that stays wired after being replaced. */
  method ChannelScenario(m1: MessageData, m2: MessageData)
  {
    var hook := new DataChannelHook();
    var ch := new DataChannel("webrtc-demo");
    hook.SetChannelWrapper(ch);
    AttachedOnce([], ch, [], OpenEvent);
    AttachedOnce([], ch, [], MessageEvent);
    assert [] + Attachment(ch) + [] == hook.listeners;
    assert !hook.Ready();

    ch.readyState := DataChannelState.Open;
    hook.Fire(ch, OpenEvent, Text(""));
    assert hook.Ready();

    hook.Fire(ch, MessageEvent, m1);
    hook.Fire(ch, MessageEvent, m2);
    assert hook.messages == [m1, m2];

    var other := new DataChannel("webrtc-demo");
    hook.SetChannelWrapper(other);
    AttachedOnce([], ch, Attachment(other), CloseEvent);
    assert [] + Attachment(ch) + Attachment(other) == hook.listeners;
    ch.readyState := DataChannelState.Closed;
    hook.Fire(ch, CloseEvent, Text(""));
    assert hook.channel == other && !hook.Ready();
  }
}
