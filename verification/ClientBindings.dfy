/** The client's side of slot binding: which publisher each of its media sections shows. */
module ClientBindings {
  import opened Words
  import opened Identity

  type Mid = string

  /** A `track_binding` message: the slot now carries this publisher, or none. */
  datatype Notice = Notice(mid: Mid, publisher: Option<PeerId>)

  function Apply(bindings: map<Mid, PeerId>, n: Notice): map<Mid, PeerId>
  {
    match n.publisher
    case Some(p) => bindings[n.mid := p]
    case None => bindings - {n.mid}
  }

  /** What the client knows after these messages, in order. */
  function Fold(sent: seq<Notice>): map<Mid, PeerId>
  {
    if sent == [] then map[] else Apply(Fold(sent[..|sent| - 1]), sent[|sent| - 1])
  }

  lemma {:induction false} FoldAppend(sent: seq<Notice>, more: seq<Notice>)
    ensures Fold(sent + more) == FoldFrom(Fold(sent), more)
    decreases |more|
  {
    if more == [] {
      assert sent + more == sent;
    } else {
      var n := |more| - 1;
      assert (sent + more)[..|sent| + n] == sent + more[..n];
      FoldAppend(sent, more[..n]);
    }
  }

  function FoldFrom(bindings: map<Mid, PeerId>, sent: seq<Notice>): map<Mid, PeerId>
  {
    if sent == [] then bindings else Apply(FoldFrom(bindings, sent[..|sent| - 1]), sent[|sent| - 1])
  }

  lemma FoldNext(sent: seq<Notice>, n: Notice)
    ensures Fold(sent + [n]) == Apply(Fold(sent), n)
  {
    assert (sent + [n])[..|sent|] == sent;
  }

  datatype Connection = VoiceConnection | ScreenConnection

  /** Both connections of one client, each with the bindings of its session. */
  class Client {
    var voiceBindings: map<Mid, PeerId>
    var screenBindings: map<Mid, PeerId>
    var screenVideoMids: set<Mid>
    ghost var voiceReceived: seq<Notice>
    ghost var screenReceived: seq<Notice>

    /** Each map is what the notices of its session say. */
    ghost predicate Valid()
      reads this
    {
      voiceBindings == Fold(voiceReceived) && screenBindings == Fold(screenReceived)
    }

    /** The publisher a screen video section shows. */
    ghost function Frame(mid: Mid): Option<PeerId>
      reads this
    {
      if mid in screenVideoMids && mid in screenBindings then Some(screenBindings[mid]) else None
    }

    constructor ()
      ensures Valid() && voiceReceived == [] && screenReceived == [] && screenVideoMids == {}
    {
      voiceBindings, screenBindings, screenVideoMids := map[], map[], {};
      voiceReceived, screenReceived := [], [];
    }

    /** `on_remote_track` of the screen session. */
    method RemoteScreenTrack(mid: Mid, video: bool)
      requires Valid()
      modifies this`screenVideoMids
      ensures Valid() && screenVideoMids == old(screenVideoMids) + (if video then {mid} else {})
    {
      if video {
        screenVideoMids := screenVideoMids + {mid};
      }
    }

    /** `apply_binding`. A removed publisher is reported exactly when the screen video
        section with this mid showed one, with a name, and shows it no more. */
    method ApplyBinding(connection: Connection, mid: Mid, publisher: Option<PeerId>) returns (removed: Option<PeerId>)
      requires Valid()
      modifies this`voiceBindings, this`screenBindings, this`voiceReceived, this`screenReceived
      ensures Valid()
      ensures voiceReceived == old(voiceReceived) + if connection.VoiceConnection? then [Notice(mid, publisher)] else []
      ensures screenReceived == old(screenReceived) + if connection.ScreenConnection? then [Notice(mid, publisher)] else []
      ensures forall other :: other != mid ==> Frame(other) == old(Frame(other))
      ensures removed == if old(Frame(mid)).Some? && Frame(mid) != old(Frame(mid)) && old(Frame(mid)) != Some("")
                         then old(Frame(mid)) else None
    {
      hide Fold;
      FoldNext(if connection.VoiceConnection? then voiceReceived else screenReceived, Notice(mid, publisher));
      var bindings := if connection.VoiceConnection? then voiceBindings else screenBindings;
      var removedPeer := "";
      var changed := if mid !in bindings then publisher.Some?
                     else publisher.None? || bindings[mid] != publisher.value;
      if connection.ScreenConnection? && mid in bindings && changed && mid in screenVideoMids {
        removedPeer := bindings[mid];
      }
      if publisher.Some? {
        bindings := bindings[mid := publisher.value];
      } else {
        bindings := bindings - {mid};
      }
      if connection.VoiceConnection? {
        voiceBindings := bindings;
        voiceReceived := voiceReceived + [Notice(mid, publisher)];
        assert screenReceived + [] == screenReceived;
      } else {
        screenBindings := bindings;
        screenReceived := screenReceived + [Notice(mid, publisher)];
        assert voiceReceived + [] == voiceReceived;
      }
      removed := if removedPeer != "" then Some(removedPeer) else None;
    }

    method StopVoiceSession()
      requires Valid()
      modifies this`voiceBindings, this`voiceReceived
      ensures Valid() && voiceReceived == [] && voiceBindings == map[]
    {
      voiceBindings, voiceReceived := map[], [];
    }

    /** `stop_screen_session`: whoever a video section still shows is removed. */
    method StopScreenSession() returns (removedPeers: set<PeerId>)
      requires Valid()
      modifies this`screenBindings, this`screenVideoMids, this`screenReceived
      ensures Valid() && screenReceived == [] && screenVideoMids == {}
      ensures forall p :: p in removedPeers <==> exists mid :: old(Frame(mid)) == Some(p)
      ensures forall mid :: Frame(mid).None?
    {
      removedPeers := {};
      var todo := screenBindings.Keys;
      while todo != {}
        invariant todo <= screenBindings.Keys
        invariant forall p :: p in removedPeers <==> exists mid :: mid !in todo && old(Frame(mid)) == Some(p)
        decreases |todo|
      {
        var mid :| mid in todo;
        ghost var before, left := removedPeers, todo;
        if mid in screenVideoMids {
          removedPeers := removedPeers + {screenBindings[mid]};
        }
        todo := todo - {mid};
        forall p ensures p in removedPeers <==> exists m :: m !in todo && old(Frame(m)) == Some(p) {
          assert p in removedPeers <==> p in before || old(Frame(mid)) == Some(p);
          assert forall m :: m !in todo <==> m !in left || m == mid;
        }
      }
      screenBindings, screenVideoMids, screenReceived := map[], {}, [];
    }
  }
}
