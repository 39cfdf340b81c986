/** The signaling messages and their JSON form, on JSON trees. */
module Signaling {
  import opened Words
  import opened Identity

  datatype Json =
    | Null
    | Bool(b: bool)
    | Num(n: int)
    | Str(s: string)
    | Arr(items: seq<Json>)
    | Obj(fields: map<string, Json>)

  datatype ConnectionId = Voice | Screen

  datatype WatchRejectReason = UnknownPeer | NotStreaming | Capacity

  datatype ParseError = MissingType | UnknownType | MissingField | InvalidField

  datatype Result<+T> = Ok(value: T) | Err(error: ParseError)

  datatype PeerIdentity = PeerIdentity(id: PeerId, username: string)

  datatype Message =
    | Welcome(id: PeerId, peers: seq<PeerIdentity>, streamingPeers: seq<PeerId>)
    | PeerJoined(id: PeerId, username: string)
    | PeerLeft(id: PeerId)
    | Offer(sdp: string, connection: ConnectionId)
    | Answer(sdp: string, connection: ConnectionId)
    | Candidate(candidate: string, sdpMid: string, connection: ConnectionId)
    | TrackBinding(sdpMid: string, peer: Option<PeerId>, connection: ConnectionId)
    | StreamingStart(from: Option<PeerId>)
    | StreamingStop(from: Option<PeerId>)
    | WatchStart(peerId: PeerId)
    | WatchStop(peerId: PeerId)
    | WatchRejected(peerId: PeerId, reason: WatchRejectReason)

  // ---------------------------------------------------------------- encoding

  function ConnectionName(c: ConnectionId): string
  {
    match c
    case Voice => "voice"
    case Screen => "screen"
  }

  function ReasonName(r: WatchRejectReason): string
  {
    match r
    case UnknownPeer => "unknown_peer"
    case NotStreaming => "not_streaming"
    case Capacity => "capacity"
  }

  function EncodePeer(p: PeerIdentity): Json
  {
    Obj(map["id" := Str(p.id), "username" := Str(p.username)])
  }

  function EncodePeers(peers: seq<PeerIdentity>): seq<Json>
  {
    seq(|peers|, i requires 0 <= i < |peers| => EncodePeer(peers[i]))
  }

  function EncodeIds(ids: seq<PeerId>): seq<Json>
  {
    seq(|ids|, i requires 0 <= i < |ids| => Str(ids[i]))
  }

  /** `add_from`: an absent or empty sender is left out. */
  function FromField(from: Option<PeerId>): map<string, Json>
  {
    if from.Some? && from.value != "" then map["from" := Str(from.value)] else map[]
  }

  function Encode(m: Message): Json
  {
    match m
    case Welcome(id, peers, streaming) =>
      Obj(map["type" := Str("welcome"), "id" := Str(id),
              "peers" := Arr(EncodePeers(peers)), "streaming_peers" := Arr(EncodeIds(streaming))])
    case PeerJoined(id, username) =>
      Obj(map["type" := Str("peer_joined"), "id" := Str(id), "username" := Str(username)])
    case PeerLeft(id) => Obj(map["type" := Str("peer_left"), "id" := Str(id)])
    case Offer(sdp, connection) =>
      Obj(map["type" := Str("offer"), "sdp" := Str(sdp), "connection" := Str(ConnectionName(connection))])
    case Answer(sdp, connection) =>
      Obj(map["type" := Str("answer"), "sdp" := Str(sdp), "connection" := Str(ConnectionName(connection))])
    case Candidate(candidate, sdpMid, connection) =>
      Obj(map["type" := Str("candidate"), "candidate" := Str(candidate), "sdpMid" := Str(sdpMid),
              "connection" := Str(ConnectionName(connection))])
    case TrackBinding(sdpMid, peer, connection) =>
      Obj(map["type" := Str("track_binding"), "sdpMid" := Str(sdpMid),
              "peerId" := if peer.Some? then Str(peer.value) else Null,
              "connection" := Str(ConnectionName(connection))])
    case StreamingStart(from) => Obj(map["type" := Str("streaming_start")] + FromField(from))
    case StreamingStop(from) => Obj(map["type" := Str("streaming_stop")] + FromField(from))
    case WatchStart(peerId) => Obj(map["type" := Str("watch_start"), "peerId" := Str(peerId)])
    case WatchStop(peerId) => Obj(map["type" := Str("watch_stop"), "peerId" := Str(peerId)])
    case WatchRejected(peerId, reason) =>
      Obj(map["type" := Str("watch_rejected"), "peerId" := Str(peerId), "reason" := Str(ReasonName(reason))])
  }

  // ---------------------------------------------------------------- parsing

  type Fields = map<string, Json>

  /** `required_string`: present, a string, and not empty. */
  function RequiredString(fields: Fields, key: string): Option<string>
  {
    if key in fields && fields[key].Str? && fields[key].s != "" then Some(fields[key].s) else None
  }

  /** `optional_string`: a field that is no string counts as an empty one. */
  function OptionalString(fields: Fields, key: string): Option<string>
  {
    if key !in fields || fields[key].Null? then None
    else if fields[key].Str? then Some(fields[key].s)
    else Some("")
  }

  function OptionalPeerId(fields: Fields, key: string): Option<PeerId>
  {
    var value := OptionalString(fields, key);
    if value.Some? && value.value != "" then value else None
  }

  /** The user name of a peer; whatever is missing or odd counts as no name. */
  function UsernameOf(fields: Fields): string
  {
    var username := OptionalString(fields, "username");
    if username.Some? then username.value else ""
  }

  function ParseConnection(fields: Fields): Result<ConnectionId>
  {
    if "connection" !in fields then Err(MissingField)
    else if fields["connection"] == Str("voice") then Ok(Voice)
    else if fields["connection"] == Str("screen") then Ok(Screen)
    else Err(InvalidField)
  }

  function ParseReason(fields: Fields): Result<WatchRejectReason>
  {
    var value := RequiredString(fields, "reason");
    if value.None? then Err(MissingField)
    else if value.value == "unknown_peer" then Ok(UnknownPeer)
    else if value.value == "not_streaming" then Ok(NotStreaming)
    else if value.value == "capacity" then Ok(Capacity)
    else Err(InvalidField)
  }

  function ParsePeer(item: Json): Option<PeerIdentity>
  {
    if !item.Obj? then None
    else
      var id := RequiredString(item.fields, "id");
      if id.None? then None else Some(PeerIdentity(id.value, UsernameOf(item.fields)))
  }

  /** The peers of a welcome, all of them or none. */
  function ParsePeers(items: seq<Json>): (r: Option<seq<PeerIdentity>>)
    ensures r.Some? ==> |r.value| == |items|
  {
    if items == [] then Some([])
    else
      var n := |items| - 1;
      var before := ParsePeers(items[..n]);
      var last := ParsePeer(items[n]);
      if before.None? || last.None? then None else Some(before.value + [last.value])
  }

  /** The streaming peers of a welcome; empty ids are skipped. */
  function ParseIds(items: seq<Json>): Option<seq<PeerId>>
  {
    if items == [] then Some([])
    else
      var n := |items| - 1;
      var before := ParseIds(items[..n]);
      if before.None? || !items[n].Str? then None
      else if items[n].s == "" then before
      else Some(before.value + [items[n].s])
  }

  function ParseWelcome(fields: Fields): Result<Message>
  {
    var id := RequiredString(fields, "id");
    if id.None? then Err(MissingField)
    else if "peers" in fields && !fields["peers"].Arr? then Err(InvalidField)
    else
      var peers := if "peers" in fields then ParsePeers(fields["peers"].items) else Some([]);
      if peers.None? then Err(InvalidField)
      else if "streaming_peers" in fields && !fields["streaming_peers"].Arr? then Err(InvalidField)
      else
        var streaming := if "streaming_peers" in fields then ParseIds(fields["streaming_peers"].items) else Some([]);
        if streaming.None? then Err(InvalidField) else Ok(Welcome(id.value, peers.value, streaming.value))
  }

  function ParseTrackBinding(fields: Fields): Result<Message>
  {
    var sdpMid := RequiredString(fields, "sdpMid");
    if sdpMid.None? || "peerId" !in fields then Err(MissingField)
    else
      var peer := fields["peerId"];
      if peer == Str("") || (!peer.Str? && !peer.Null?) then Err(InvalidField)
      else
        match ParseConnection(fields)
        case Err(error) => Err(error)
        case Ok(connection) => Ok(TrackBinding(sdpMid.value, if peer.Str? then Some(peer.s) else None, connection))
  }

  /** A message with one peer id. */
  function ParseWatch(fields: Fields, start: bool): Result<Message>
  {
    var peer := RequiredString(fields, "peerId");
    if peer.None? then Err(MissingField)
    else Ok(if start then WatchStart(peer.value) else WatchStop(peer.value))
  }

  function ParseWatchRejected(fields: Fields): Result<Message>
  {
    var peer := RequiredString(fields, "peerId");
    if peer.None? then Err(MissingField)
    else
      match ParseReason(fields)
      case Err(error) => Err(error)
      case Ok(reason) => Ok(WatchRejected(peer.value, reason))
  }

  function ParseDescription(fields: Fields, offer: bool): Result<Message>
  {
    var sdp := RequiredString(fields, "sdp");
    if sdp.None? then Err(MissingField)
    else
      match ParseConnection(fields)
      case Err(error) => Err(error)
      case Ok(connection) => Ok(if offer then Offer(sdp.value, connection) else Answer(sdp.value, connection))
  }

  function ParseCandidate(fields: Fields): Result<Message>
  {
    var candidate := RequiredString(fields, "candidate");
    var sdpMid := RequiredString(fields, "sdpMid");
    if candidate.None? || sdpMid.None? then Err(MissingField)
    else
      match ParseConnection(fields)
      case Err(error) => Err(error)
      case Ok(connection) => Ok(Candidate(candidate.value, sdpMid.value, connection))
  }

  function ParseOfType(kind: string, fields: Fields): Result<Message>
  {
    if kind == "welcome" then ParseWelcome(fields)
    else if kind == "peer_joined" then
      var id := RequiredString(fields, "id");
      if id.None? then Err(MissingField) else Ok(PeerJoined(id.value, UsernameOf(fields)))
    else if kind == "peer_left" then
      var id := RequiredString(fields, "id");
      if id.None? then Err(MissingField) else Ok(PeerLeft(id.value))
    else if kind == "offer" then ParseDescription(fields, true)
    else if kind == "answer" then ParseDescription(fields, false)
    else if kind == "candidate" then ParseCandidate(fields)
    else if kind == "track_binding" then ParseTrackBinding(fields)
    else if kind == "streaming_start" then Ok(StreamingStart(OptionalPeerId(fields, "from")))
    else if kind == "streaming_stop" then Ok(StreamingStop(OptionalPeerId(fields, "from")))
    else if kind == "watch_start" then ParseWatch(fields, true)
    else if kind == "watch_stop" then ParseWatch(fields, false)
    else if kind == "watch_rejected" then ParseWatchRejected(fields)
    else Err(UnknownType)
  }

  function ParseJson(msg: Json): Result<Message>
  {
    if !msg.Obj? then Err(InvalidField)
    else
      var kind := RequiredString(msg.fields, "type");
      if kind.None? then Err(MissingType) else ParseOfType(kind.value, msg.fields)
  }

  // ---------------------------------------------------------------- the loops over lists

  /** The loops of the encoder of a welcome. */
  method EncodeWelcomeLists(peers: seq<PeerIdentity>, streaming: seq<PeerId>) returns (peerItems: seq<Json>, ids: seq<Json>)
    ensures peerItems == EncodePeers(peers) && ids == EncodeIds(streaming)
  {
    peerItems := [];
    for i := 0 to |peers|
      invariant |peerItems| == i && forall k :: 0 <= k < i ==> peerItems[k] == EncodePeer(peers[k])
    {
      peerItems := peerItems + [Obj(map["id" := Str(peers[i].id), "username" := Str(peers[i].username)])];
    }
    ids := [];
    for i := 0 to |streaming|
      invariant |ids| == i && forall k :: 0 <= k < i ==> ids[k] == Str(streaming[k])
    {
      ids := ids + [Str(streaming[i])];
    }
  }

  /** The loop of the parser over the peers of a welcome. */
  method ParsePeerList(items: seq<Json>) returns (r: Option<seq<PeerIdentity>>)
    ensures r == ParsePeers(items)
  {
    var peers: seq<PeerIdentity> := [];
    for i := 0 to |items|
      invariant ParsePeers(items[..i]) == Some(peers)
    {
      assert items[..i + 1][..i] == items[..i];
      var item := items[i];
      if !item.Obj? || RequiredString(item.fields, "id").None? {
        NoPeers(items, i + 1);
        return None;
      }
      var peer := PeerIdentity(RequiredString(item.fields, "id").value, "");
      var username := OptionalString(item.fields, "username");
      if username.Some? && username.value != "" {
        peer := peer.(username := username.value);
      }
      peers := peers + [peer];
    }
    assert items[..|items|] == items;
    return Some(peers);
  }

  lemma {:induction false} NoPeers(items: seq<Json>, k: nat)
    requires k <= |items| && ParsePeers(items[..k]).None?
    ensures ParsePeers(items).None?
    decreases |items|
  {
    if k < |items| {
      assert items[..|items| - 1][..k] == items[..k];
      NoPeers(items[..|items| - 1], k);
    } else {
      assert items[..k] == items;
    }
  }

  /** The loop of the parser over the streaming peers of a welcome. */
  method ParseIdList(items: seq<Json>) returns (r: Option<seq<PeerId>>)
    ensures r == ParseIds(items)
  {
    var ids: seq<PeerId> := [];
    for i := 0 to |items|
      invariant ParseIds(items[..i]) == Some(ids)
    {
      assert items[..i + 1][..i] == items[..i];
      if !items[i].Str? {
        NoIds(items, i + 1);
        return None;
      }
      if items[i].s != "" {
        ids := ids + [items[i].s];
      }
    }
    assert items[..|items|] == items;
    return Some(ids);
  }

  lemma {:induction false} NoIds(items: seq<Json>, k: nat)
    requires k <= |items| && ParseIds(items[..k]).None?
    ensures ParseIds(items).None?
    decreases |items|
  {
    if k < |items| {
      assert items[..|items| - 1][..k] == items[..k];
      NoIds(items[..|items| - 1], k);
    } else {
      assert items[..k] == items;
    }
  }

  // ---------------------------------------------------------------- the codec

  /** The messages that survive the wire: every text that a field needs is there. */
  predicate Sendable(m: Message)
  {
    match m
    case Welcome(id, peers, streaming) =>
      id != "" && (forall i :: 0 <= i < |peers| ==> peers[i].id != "") && "" !in streaming
    case PeerJoined(id, _) => id != ""
    case PeerLeft(id) => id != ""
    case Offer(sdp, _) => sdp != ""
    case Answer(sdp, _) => sdp != ""
    case Candidate(candidate, sdpMid, _) => candidate != "" && sdpMid != ""
    case TrackBinding(sdpMid, peer, _) => sdpMid != "" && peer != Some("")
    case StreamingStart(from) => from != Some("")
    case StreamingStop(from) => from != Some("")
    case WatchStart(peerId) => peerId != ""
    case WatchStop(peerId) => peerId != ""
    case WatchRejected(peerId, _) => peerId != ""
  }

  lemma PeerReadBack(p: PeerIdentity)
    ensures ParsePeer(EncodePeer(p)) == if p.id != "" then Some(p) else None
  {
  }

  lemma {:induction false} PeersReadBack(peers: seq<PeerIdentity>)
    ensures ParsePeers(EncodePeers(peers))
            == if forall i :: 0 <= i < |peers| ==> peers[i].id != "" then Some(peers) else None
    decreases |peers|
  {
    hide ParsePeer, EncodePeer;
    if peers != [] {
      var n := |peers| - 1;
      var before, items := peers[..n], EncodePeers(peers);
      PeersReadBack(before);
      PeerReadBack(peers[n]);
      assert items[..n] == EncodePeers(before) && items[n] == EncodePeer(peers[n]);
      assert peers == before + [peers[n]];
      assert forall i :: 0 <= i < n ==> before[i] == peers[i];
    }
  }

  lemma {:induction false} IdsReadBack(ids: seq<PeerId>)
    ensures ParseIds(EncodeIds(ids)).Some?
    ensures ParseIds(EncodeIds(ids)) == Some(ids) <==> "" !in ids
    ensures |ParseIds(EncodeIds(ids)).value| <= |ids|
    decreases |ids|
  {
    if ids != [] {
      var n := |ids| - 1;
      var before, items := ids[..n], EncodeIds(ids);
      IdsReadBack(before);
      assert items[..n] == EncodeIds(before) && items[n] == Str(ids[n]);
      assert ids == before + [ids[n]];
      var read := ParseIds(EncodeIds(before)).value;
      assert ids[n] != "" ==> ParseIds(items) == Some(read + [ids[n]]);
      assert ids[n] != "" && read + [ids[n]] == ids ==> read == (read + [ids[n]])[..n];
    }
  }

  lemma WelcomeReadsBack(m: Message)
    requires m.Welcome?
    ensures ParseJson(Encode(m)) == Ok(m) <==> Sendable(m)
  {
    hide ParsePeers, ParseIds, EncodePeers, EncodeIds;
    PeersReadBack(m.peers);
    IdsReadBack(m.streamingPeers);
    var fields := Encode(m).fields;
    assert ParseJson(Encode(m)) == ParseWelcome(fields);
  }

  lemma ConnectionReadsBack(m: Message)
    requires m.Offer? || m.Answer? || m.Candidate? || m.TrackBinding?
    ensures ParseJson(Encode(m)) == Ok(m) <==> Sendable(m)
  {
    hide ParseWelcome, ParseWatch, ParseWatchRejected;
  }

  lemma PeerReadsBack(m: Message)
    requires m.PeerJoined? || m.PeerLeft? || m.WatchStart? || m.WatchStop? || m.WatchRejected?
    ensures ParseJson(Encode(m)) == Ok(m) <==> Sendable(m)
  {
    hide ParseWelcome, ParseDescription, ParseCandidate, ParseTrackBinding;
  }

  lemma StreamingReadsBack(m: Message)
    requires m.StreamingStart? || m.StreamingStop?
    ensures ParseJson(Encode(m)) == Ok(m) <==> Sendable(m)
  {
    hide ParseWelcome, ParseDescription, ParseCandidate, ParseTrackBinding, RequiredString, OptionalPeerId;
    OptionalReadsBack(if m.StreamingStart? then "streaming_start" else "streaming_stop", m.from);
  }

  /** For every message: it is read back as it was sent exactly when it is sendable. */
  lemma SentIsRead(m: Message)
    ensures ParseJson(Encode(m)) == Ok(m) <==> Sendable(m)
  {
    hide ParseJson, Encode, Sendable;
    if m.Welcome? {
      WelcomeReadsBack(m);
    } else if m.StreamingStart? || m.StreamingStop? {
      StreamingReadsBack(m);
    } else if m.Offer? || m.Answer? || m.Candidate? || m.TrackBinding? {
      ConnectionReadsBack(m);
    } else {
      PeerReadsBack(m);
    }
  }

  lemma OptionalReadsBack(kind: string, from: Option<PeerId>)
    requires kind in {"streaming_start", "streaming_stop"}
    ensures var fields := map["type" := Str(kind)] + FromField(from);
            && RequiredString(fields, "type") == Some(kind)
            && (OptionalPeerId(fields, "from") == from <==> from != Some(""))
  {
  }

  lemma {:induction false} ParsedPeersNamed(items: seq<Json>)
    ensures ParsePeers(items).Some? ==>
              forall i :: 0 <= i < |items| ==> ParsePeers(items).value[i].id != ""
    decreases |items|
  {
    if items != [] {
      ParsedPeersNamed(items[..|items| - 1]);
    }
  }

  lemma {:induction false} ParsedIdsNamed(items: seq<Json>)
    ensures ParseIds(items).Some? ==> "" !in ParseIds(items).value
    decreases |items|
  {
    if items != [] {
      ParsedIdsNamed(items[..|items| - 1]);
    }
  }

  lemma ParsedIsSendable(j: Json)
    requires ParseJson(j).Ok?
    ensures Sendable(ParseJson(j).value)
  {
    hide ParsePeers, ParseIds;
    if "peers" in j.fields && j.fields["peers"].Arr? {
      ParsedPeersNamed(j.fields["peers"].items);
    }
    if "streaming_peers" in j.fields && j.fields["streaming_peers"].Arr? {
      ParsedIdsNamed(j.fields["streaming_peers"].items);
    }
  }

  /** For every JSON tree: what was understood once is understood the same way after
      being sent on. */
  lemma ForwardedIsTheSame(j: Json)
    requires ParseJson(j).Ok?
    ensures ParseJson(Encode(ParseJson(j).value)) == ParseJson(j)
  {
    hide ParseJson, Encode, Sendable;
    ParsedIsSendable(j);
    SentIsRead(ParseJson(j).value);
  }

  // ---------------------------------------------------------------- the words on the wire

  /** One message of each kind, as it stands on the wire. */
  lemma PeersOnTheWire(a: string, b: string)
    ensures Encode(Welcome(a, [PeerIdentity(b, a)], [b]))
            == Obj(map["type" := Str("welcome"), "id" := Str(a),
                       "peers" := Arr([Obj(map["id" := Str(b), "username" := Str(a)])]), "streaming_peers" := Arr([Str(b)])])
    ensures Encode(PeerJoined(a, b)) == Obj(map["type" := Str("peer_joined"), "id" := Str(a), "username" := Str(b)])
    ensures Encode(PeerLeft(a)) == Obj(map["type" := Str("peer_left"), "id" := Str(a)])
  {
    assert EncodePeers([PeerIdentity(b, a)]) == [EncodePeer(PeerIdentity(b, a))];
    assert EncodeIds([b]) == [Str(b)];
  }

  lemma MediaOnTheWire(a: string, b: string)
    ensures Encode(Offer(a, Voice)) == Obj(map["type" := Str("offer"), "sdp" := Str(a), "connection" := Str("voice")])
    ensures Encode(Answer(a, Screen)) == Obj(map["type" := Str("answer"), "sdp" := Str(a), "connection" := Str("screen")])
    ensures Encode(Candidate(a, b, Voice))
            == Obj(map["type" := Str("candidate"), "candidate" := Str(a), "sdpMid" := Str(b), "connection" := Str("voice")])
    ensures Encode(TrackBinding(a, Some(b), Screen))
            == Obj(map["type" := Str("track_binding"), "sdpMid" := Str(a), "peerId" := Str(b), "connection" := Str("screen")])
    ensures Encode(TrackBinding(a, None, Voice))
            == Obj(map["type" := Str("track_binding"), "sdpMid" := Str(a), "peerId" := Null, "connection" := Str("voice")])
  {
  }

  lemma StreamsOnTheWire(a: string)
    requires a != ""
    ensures Encode(StreamingStart(Some(a))) == Obj(map["type" := Str("streaming_start"), "from" := Str(a)])
    ensures Encode(StreamingStop(Some(a))) == Obj(map["type" := Str("streaming_stop"), "from" := Str(a)])
    ensures Encode(StreamingStart(None)) == Obj(map["type" := Str("streaming_start")])
    ensures Encode(StreamingStop(None)) == Obj(map["type" := Str("streaming_stop")])
    ensures Encode(StreamingStart(Some(""))) == Encode(StreamingStart(None)) && Encode(StreamingStop(Some(""))) == Encode(StreamingStop(None))
  {
    assert map["type" := Str("streaming_start")] + map["from" := Str(a)] == map["type" := Str("streaming_start"), "from" := Str(a)];
    assert map["type" := Str("streaming_stop")] + map["from" := Str(a)] == map["type" := Str("streaming_stop"), "from" := Str(a)];
    assert map["type" := Str("streaming_start")] + map[] == map["type" := Str("streaming_start")];
    assert map["type" := Str("streaming_stop")] + map[] == map["type" := Str("streaming_stop")];
  }

  lemma WatchesOnTheWire(a: string)
    ensures Encode(WatchStart(a)) == Obj(map["type" := Str("watch_start"), "peerId" := Str(a)])
    ensures Encode(WatchStop(a)) == Obj(map["type" := Str("watch_stop"), "peerId" := Str(a)])
    ensures Encode(WatchRejected(a, UnknownPeer))
            == Obj(map["type" := Str("watch_rejected"), "peerId" := Str(a), "reason" := Str("unknown_peer")])
    ensures Encode(WatchRejected(a, NotStreaming))
            == Obj(map["type" := Str("watch_rejected"), "peerId" := Str(a), "reason" := Str("not_streaming")])
    ensures Encode(WatchRejected(a, Capacity))
            == Obj(map["type" := Str("watch_rejected"), "peerId" := Str(a), "reason" := Str("capacity")])
  {
  }

  // ---------------------------------------------------------------- which error is given

  predicate HasText(fields: Fields, key: string)
  {
    key in fields && fields[key].Str? && fields[key] != Str("")
  }

  /** The fields a message of this type needs as texts; none for an unknown type. */
  function NeededTexts(kind: string): Option<set<string>>
  {
    if kind in {"welcome", "peer_joined", "peer_left"} then Some({"id"})
    else if kind in {"offer", "answer"} then Some({"sdp"})
    else if kind == "candidate" then Some({"candidate", "sdpMid"})
    else if kind == "track_binding" then Some({"sdpMid"})
    else if kind in {"streaming_start", "streaming_stop"} then Some({})
    else if kind in {"watch_start", "watch_stop"} then Some({"peerId"})
    else if kind == "watch_rejected" then Some({"peerId", "reason"})
    else None
  }

  const CONNECTED := {"offer", "answer", "candidate", "track_binding"}

  /** A field that must be there is not, or is no text where one is needed. */
  predicate LacksField(kind: string, fields: Fields)
    requires NeededTexts(kind).Some?
  {
    || (exists key :: key in NeededTexts(kind).value && !HasText(fields, key))
    || (kind == "track_binding" && "peerId" !in fields)
    || (kind in CONNECTED && "connection" !in fields && (kind == "track_binding" ==> PeerOrNull(fields)))
  }

  /** The peer of a binding: a name, or null for nobody. */
  predicate PeerOrNull(fields: Fields)
  {
    "peerId" in fields && (fields["peerId"] == Null || HasText(fields, "peerId"))
  }

  predicate NamedPeer(j: Json)
  {
    j.Obj? && HasText(j.fields, "id")
  }

  predicate ListOfPeers(j: Json)
  {
    j.Arr? && forall i :: 0 <= i < |j.items| ==> NamedPeer(j.items[i])
  }

  predicate ListOfTexts(j: Json)
  {
    j.Arr? && forall i :: 0 <= i < |j.items| ==> j.items[i].Str?
  }

  /** Every field that is there has a value it may have. */
  predicate FieldsAreValid(kind: string, fields: Fields)
  {
    && (kind == "welcome" ==>
          && ("peers" in fields ==> ListOfPeers(fields["peers"]))
          && ("streaming_peers" in fields ==> ListOfTexts(fields["streaming_peers"])))
    && (kind == "track_binding" ==> PeerOrNull(fields))
    && (kind in CONNECTED ==> "connection" in fields && fields["connection"] in {Str("voice"), Str("screen")})
    && (kind == "watch_rejected" ==>
          "reason" in fields && fields["reason"] in {Str("unknown_peer"), Str("not_streaming"), Str("capacity")})
  }

  /** The answer to any JSON tree, but for the message itself. */
  function Verdict(j: Json): Option<ParseError>
  {
    if !j.Obj? then Some(InvalidField)
    else if !HasText(j.fields, "type") then Some(MissingType)
    else
      var kind := j.fields["type"].s;
      if NeededTexts(kind).None? then Some(UnknownType)
      else if LacksField(kind, j.fields) then Some(MissingField)
      else if !FieldsAreValid(kind, j.fields) then Some(InvalidField)
      else None
  }

  lemma {:induction false} PeersAreRead(items: seq<Json>)
    ensures ParsePeers(items).Some? <==> ListOfPeers(Arr(items))
    decreases |items|
  {
    hide OptionalString, NamedPeer, ParsePeer;
    if items != [] {
      var n := |items| - 1;
      PeersAreRead(items[..n]);
      PeerIsRead(items[n]);
      assert forall i :: 0 <= i < n ==> items[..n][i] == items[i];
    }
  }

  lemma PeerIsRead(j: Json)
    ensures ParsePeer(j).Some? <==> NamedPeer(j)
  {
  }

  lemma {:induction false} IdsAreRead(items: seq<Json>)
    ensures ParseIds(items).Some? <==> ListOfTexts(Arr(items))
    decreases |items|
  {
    if items != [] {
      var n := |items| - 1;
      IdsAreRead(items[..n]);
      assert forall i :: 0 <= i < n ==> items[..n][i] == items[i];
    }
  }

  predicate Answers(r: Result<Message>, verdict: Option<ParseError>)
  {
    match r
    case Ok(_) => verdict.None?
    case Err(error) => verdict == Some(error)
  }

  lemma WelcomeVerdict(j: Json)
    requires j.Obj? && "type" in j.fields && j.fields["type"] == Str("welcome")
    ensures Answers(ParseJson(j), Verdict(j))
  {
    hide ParsePeers, ParseIds, ListOfPeers, ListOfTexts;
    if "peers" in j.fields && j.fields["peers"].Arr? {
      PeersAreRead(j.fields["peers"].items);
    }
    if "streaming_peers" in j.fields && j.fields["streaming_peers"].Arr? {
      IdsAreRead(j.fields["streaming_peers"].items);
    }
    ListsAreArrays(j.fields);
  }

  lemma ListsAreArrays(fields: Fields)
    ensures forall key :: key in fields && ListOfPeers(fields[key]) ==> fields[key].Arr?
    ensures forall key :: key in fields && ListOfTexts(fields[key]) ==> fields[key].Arr?
  {
  }

  lemma ConnectedVerdict(j: Json)
    requires j.Obj? && "type" in j.fields && j.fields["type"].Str? && j.fields["type"].s in CONNECTED
    ensures Answers(ParseJson(j), Verdict(j))
  {
    hide ParseWelcome, ParseWatch, ParseWatchRejected, ListOfPeers, ListOfTexts;
  }

  lemma OtherVerdict(j: Json)
    requires j.Obj? && "type" in j.fields && j.fields["type"].Str? && j.fields["type"].s !in CONNECTED
    requires j.fields["type"].s != "welcome"
    ensures Answers(ParseJson(j), Verdict(j))
  {
    hide ParseWelcome, ParseDescription, ParseCandidate, ParseTrackBinding, ListOfPeers, ListOfTexts, OptionalString, OptionalPeerId;
  }

  /** For every JSON tree: a message is understood exactly when its type is known, its needed
      fields are there and all have values they may have; otherwise the first of these
      that fails is the error that is given. */
  lemma VerdictIsExact(j: Json)
    ensures Answers(ParseJson(j), Verdict(j))
  {
    if j.Obj? && "type" in j.fields && j.fields["type"].Str? {
      hide ParseJson, Verdict, Answers;
      if j.fields["type"].s == "welcome" {
        WelcomeVerdict(j);
      } else if j.fields["type"].s in CONNECTED {
        ConnectedVerdict(j);
      } else {
        OtherVerdict(j);
      }
    }
  }

  /** A user name or a sender that is missing, empty or no text counts as none. */
  lemma OddTextsCountAsNone(fields: Fields)
    requires "type" in fields
    ensures fields["type"] == Str("peer_joined") && HasText(fields, "id") ==>
              ParseJson(Obj(fields)) == Ok(PeerJoined(fields["id"].s, if HasText(fields, "username") then fields["username"].s else ""))
    ensures fields["type"] == Str("streaming_start") ==>
              ParseJson(Obj(fields)) == Ok(StreamingStart(if HasText(fields, "from") then Some(fields["from"].s) else None))
    ensures fields["type"] == Str("streaming_stop") ==>
              ParseJson(Obj(fields)) == Ok(StreamingStop(if HasText(fields, "from") then Some(fields["from"].s) else None))
  {
    hide ParseWelcome, ParseDescription, ParseCandidate, ParseTrackBinding, ParseWatch, ParseWatchRejected;
  }
}
