/** The browser objects the page code reads: the values of an
    `RTCPeerConnection`'s six observable state fields and an `RTCDataChannel`'s
    `readyState`. The browser changes these fields on its own (its signaling,
    ICE and connection state machines are not part of this model); the page
    code only reads them, so here they are plain mutable fields that any
    caller playing the browser may assign. */
module Rtc {
  import opened Util

  datatype SdpType = Offer | Pranswer | Answer | Rollback

  /** An `RTCSessionDescription`: its type tag and its SDP text. */
  datatype SessionDescription = SessionDescription(kind: SdpType, sdp: string)

  /** An `RTCIceCandidate`, kept as the fields its JSON form (`toJSON()`) carries. */
  datatype IceCandidate = IceCandidate(candidate: string, sdpMid: Option<string>, sdpMLineIndex: Option<nat>,
                                       usernameFragment: Option<string>)

  datatype PeerConnectionState = New | Connecting | Connected | Disconnected | Failed | Closed

  datatype SignalingState = Stable | HaveLocalOffer | HaveRemoteOffer | HaveLocalPranswer | HaveRemotePranswer | Closed

  datatype IceConnectionState = New | Checking | Connected | Completed | Failed | Disconnected | Closed

  datatype IceGatheringState = New | Gathering | Complete

  datatype DataChannelState = Connecting | Open | Closing | Closed

  /** The six peer-connection fields a snapshot copies. */
  datatype ConnectionFields = ConnectionFields(
    localDescription: Option<SessionDescription>,
    remoteDescription: Option<SessionDescription>,
    connectionState: PeerConnectionState,
    signalingState: SignalingState,
    iceConnectionState: IceConnectionState,
    iceGatheringState: IceGatheringState)

  /** The observable state of an `RTCPeerConnection`. */
  class PeerConnection {
    var localDescription: Option<SessionDescription>
    var remoteDescription: Option<SessionDescription>
    var connectionState: PeerConnectionState
    var signalingState: SignalingState
    var iceConnectionState: IceConnectionState
    var iceGatheringState: IceGatheringState

    /** A new connection: no descriptions, every state at its initial value. */
    constructor ()
      ensures Fields() == ConnectionFields(None, None, PeerConnectionState.New, SignalingState.Stable,
                                           IceConnectionState.New, IceGatheringState.New)
    {
      localDescription, remoteDescription := None, None;
      connectionState := PeerConnectionState.New;
      signalingState := SignalingState.Stable;
      iceConnectionState := IceConnectionState.New;
      iceGatheringState := IceGatheringState.New;
    }

    /** The current values of the six fields. */
    function Fields(): ConnectionFields
      reads this
    {
      ConnectionFields(localDescription, remoteDescription, connectionState,
                       signalingState, iceConnectionState, iceGatheringState)
    }
  }

  /** An `RTCDataChannel`, as far as the page code reads it. */
  class DataChannel {
    const channelLabel: string
    var readyState: DataChannelState

    constructor (channelLabel: string)
      ensures this.channelLabel == channelLabel && readyState == DataChannelState.Connecting
    {
      this.channelLabel := channelLabel;
      readyState := DataChannelState.Connecting;
    }
  }
}
