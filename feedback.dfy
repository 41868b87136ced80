/** The control panel's handling of the server's Started/Ended events (the
    feedback loop of the GUI main loop): a renderer's button is switched on when
    its stream starts; when a stream ends and no other connection from that host
    is registered, the button is switched off, or, with auto-resume, the
    renderer is told to play again. */
module Feedback {
  import opened Common
  import opened Addresses
  import opened ClientRegistry

  /** The buttons (on/off per renderer host) and the play requests issued so far. */
  datatype PanelState = PanelState(buttons: map<string, bool>, played: seq<Renderer>)

  /** The first renderer with host address `ip`. */
  function FindRenderer(renderers: seq<Renderer>, ip: string): (r: Option<Renderer>)
    ensures r.None? <==> forall i :: 0 <= i < |renderers| ==> renderers[i].remoteAddr != ip
    ensures r.Some? ==> exists i :: 0 <= i < |renderers| && renderers[i] == r.value
                          && r.value.remoteAddr == ip
                          && forall j :: 0 <= j < i ==> renderers[j].remoteAddr != ip
  {
    if renderers == [] then None
    else if renderers[0].remoteAddr == ip then Some(renderers[0])
    else
      var r := FindRenderer(renderers[1..], ip);
      if r.Some? then
        ghost var i :| 0 <= i < |renderers[1..]| && renderers[1..][i] == r.value
                       && forall j :: 0 <= j < i ==> renderers[1..][j].remoteAddr != ip;
        assert renderers[i + 1] == r.value;
        assert forall j :: 1 <= j < i + 1 ==> renderers[j] == renderers[1..][j - 1];
        r
      else r
  }

  /** The effect of one feedback event on the panel. `clients` is the registry
      as the panel reads it when it handles the event. */
  function OnFeedback(s: PanelState, renderers: seq<Renderer>, autoResume: bool,
                      clients: map<string, ChannelStream>, fb: StreamerFeedback): (r: PanelState)
    // no button appears or disappears, and only the event's host's button can change
    ensures r.buttons.Keys == s.buttons.Keys
    ensures forall ip :: ip in s.buttons && ip != fb.remoteIp ==> r.buttons[ip] == s.buttons[ip]
    // events for a host without a button are ignored
    ensures fb.remoteIp !in s.buttons ==> r == s
    // a start switches the button on
    ensures fb.remoteIp in s.buttons && fb.streamingState == Started ==>
              r.buttons[fb.remoteIp] && r.played == s.played
    // an end while the host is still registered changes nothing
    ensures fb.streamingState == Ended && StillStreaming(clients, fb.remoteIp) ==> r == s
    // otherwise an end leaves the button on only under auto-resume
    ensures fb.remoteIp in s.buttons && fb.streamingState == Ended ==>
              r.buttons[fb.remoteIp] == (s.buttons[fb.remoteIp]
                                         && (StillStreaming(clients, fb.remoteIp) || autoResume))
    // a renderer is told to play again exactly when a switched-on host's last stream
    // ended under auto-resume, and it is the first renderer at that host
    ensures r.played != s.played <==>
              && fb.remoteIp in s.buttons && s.buttons[fb.remoteIp]
              && fb.streamingState == Ended && !StillStreaming(clients, fb.remoteIp)
              && autoResume && FindRenderer(renderers, fb.remoteIp).Some?
    ensures r.played != s.played ==>
              r.played == s.played + [FindRenderer(renderers, fb.remoteIp).value]
  {
    var ip := fb.remoteIp;
    if ip !in s.buttons then s
    else match fb.streamingState
      case Started => s.(buttons := s.buttons[ip := true])
      case Ended =>
        if StillStreaming(clients, ip) then s
        else if autoResume && s.buttons[ip] then
          match FindRenderer(renderers, ip)
          case Some(renderer) => s.(played := s.played + [renderer])
          case None => s
        else if s.buttons[ip] then s.(buttons := s.buttons[ip := false])
        else s
  }

  /** The panel after handling `events` in order. */
  function Drain(s: PanelState, renderers: seq<Renderer>, autoResume: bool,
                 clients: map<string, ChannelStream>, events: seq<StreamerFeedback>): PanelState
  {
    if events == [] then s
    else OnFeedback(Drain(s, renderers, autoResume, clients, events[..|events| - 1]),
                    renderers, autoResume, clients, events[|events| - 1])
  }

  lemma {:induction false} DrainKeepsButtons(s: PanelState, renderers: seq<Renderer>, autoResume: bool,
                                             clients: map<string, ChannelStream>, events: seq<StreamerFeedback>)
    ensures Drain(s, renderers, autoResume, clients, events).buttons.Keys == s.buttons.Keys
  {
    if events != [] {
      DrainKeepsButtons(s, renderers, autoResume, clients, events[..|events| - 1]);
    }
  }

  /** While a host is registered, no sequence of events switches its button off. */
  lemma {:induction false} DrainKeepsStreamingHostOn(s: PanelState, renderers: seq<Renderer>, autoResume: bool,
                                                     clients: map<string, ChannelStream>,
                                                     events: seq<StreamerFeedback>, ip: string)
    requires ip in s.buttons && s.buttons[ip] && StillStreaming(clients, ip)
    ensures ip in Drain(s, renderers, autoResume, clients, events).buttons
    ensures Drain(s, renderers, autoResume, clients, events).buttons[ip]
  {
    if events != [] {
      DrainKeepsStreamingHostOn(s, renderers, autoResume, clients, events[..|events| - 1], ip);
    }
  }

  /** Every play request issued while draining answers an Ended event for that
      renderer's host. */
  lemma {:induction false} DrainPlaysOnlyOnEnded(s: PanelState, renderers: seq<Renderer>, autoResume: bool,
                                                 clients: map<string, ChannelStream>, events: seq<StreamerFeedback>)
    ensures var r := Drain(s, renderers, autoResume, clients, events);
            && s.played <= r.played
            && forall k :: |s.played| <= k < |r.played| ==>
                 StreamerFeedback(r.played[k].remoteAddr, Ended) in events
  {
    if events != [] {
      var front := events[..|events| - 1];
      DrainPlaysOnlyOnEnded(s, renderers, autoResume, clients, front);
      var mid := Drain(s, renderers, autoResume, clients, front);
      var r := Drain(s, renderers, autoResume, clients, events);
      forall k | |s.played| <= k < |r.played|
        ensures StreamerFeedback(r.played[k].remoteAddr, Ended) in events
      {
        if k < |mid.played| {
          assert StreamerFeedback(r.played[k].remoteAddr, Ended) in front;
        } else {
          assert events[|events| - 1] == StreamerFeedback(r.played[k].remoteAddr, Ended);
        }
      }
    }
  }

  /** A renderer that reconnects before its old connection's Ended is handled
      keeps its button: the registry still holds the new connection, under
      another key with the same host. */
  lemma ReconnectSuppressesEnded(s: PanelState, renderers: seq<Renderer>, autoResume: bool,
                                 clients: map<string, ChannelStream>, key: string, other: string)
    requires KeyedByAddress(clients)
    requires other in clients && other != key && RemoteIp(other) == RemoteIp(key)
    ensures OnFeedback(s, renderers, autoResume, clients - {key},
                       StreamerFeedback(RemoteIp(key), Ended)) == s
  {
    assert (clients - {key})[other] in (clients - {key}).Values;
  }

  /** When the connection that ended was the host's last one, its switched-on
      button stays on only under auto-resume. */
  lemma LastConnectionEndedActs(s: PanelState, renderers: seq<Renderer>, autoResume: bool,
                                clients: map<string, ChannelStream>, key: string)
    requires KeyedByAddress(clients)
    requires forall k :: k in clients && k != key ==> RemoteIp(k) != RemoteIp(key)
    requires RemoteIp(key) in s.buttons && s.buttons[RemoteIp(key)]
    ensures OnFeedback(s, renderers, autoResume, clients - {key},
                       StreamerFeedback(RemoteIp(key), Ended)).buttons[RemoteIp(key)] == autoResume
  {
    StillStreamingByKey(clients - {key}, RemoteIp(key));
  }

  /** Every button belongs to a known renderer. */
  ghost predicate ButtonsHaveRenderers(buttons: map<string, bool>, renderers: seq<Renderer>) {
    forall ip :: ip in buttons ==> exists i :: 0 <= i < |renderers| && renderers[i].remoteAddr == ip
  }

  /** On a panel whose buttons all belong to renderers, auto-resume always finds
      the renderer to play again. */
  lemma AutoResumePlaysAgain(s: PanelState, renderers: seq<Renderer>,
                             clients: map<string, ChannelStream>, ip: string)
    requires ButtonsHaveRenderers(s.buttons, renderers)
    requires ip in s.buttons && s.buttons[ip] && !StillStreaming(clients, ip)
    ensures var r := OnFeedback(s, renderers, true, clients, StreamerFeedback(ip, Ended));
            r.buttons[ip] && |r.played| == |s.played| + 1 && r.played[|s.played|].remoteAddr == ip
  {
    var i :| 0 <= i < |renderers| && renderers[i].remoteAddr == ip;
  }

  class ControlPanel {
    var buttons: map<string, bool>
    var renderers: seq<Renderer>
    var played: seq<Renderer>

    ghost predicate Valid()
      reads this
    {
      ButtonsHaveRenderers(buttons, renderers)
    }

    function State(): PanelState
      reads this
    {
      PanelState(buttons, played)
    }

    constructor ()
      ensures Valid() && buttons == map[] && renderers == [] && played == []
    {
      buttons, renderers, played := map[], [], [];
    }

    /** A newly discovered renderer gets a button, initially off. */
    method AddRenderer(r: Renderer)
      requires Valid()
      modifies this
      ensures Valid()
      ensures renderers == old(renderers) + [r]
      ensures buttons == old(buttons)[r.remoteAddr := false]
      ensures played == old(played)
    {
      renderers := renderers + [r];
      buttons := buttons[r.remoteAddr := false];
      forall ip | ip in buttons
        ensures exists i :: 0 <= i < |renderers| && renderers[i].remoteAddr == ip
      {
        if ip == r.remoteAddr {
          assert renderers[|renderers| - 1].remoteAddr == ip;
        } else {
          var i :| 0 <= i < |old(renderers)| && old(renderers)[i].remoteAddr == ip;
          assert renderers[i] == old(renderers)[i];
        }
      }
    }

    /** Handles one event; `autoResume` is the state of the auto-resume checkbox. */
    method HandleFeedback(fb: StreamerFeedback, clients: map<string, ChannelStream>, autoResume: bool)
      requires Valid()
      modifies this
      ensures Valid() && renderers == old(renderers)
      ensures State() == OnFeedback(old(State()), renderers, autoResume, clients, fb)
    {
      if fb.remoteIp in buttons {
        var ip := fb.remoteIp;
        match fb.streamingState {
          case Started =>
            if !buttons[ip] {
              buttons := buttons[ip := true];
            }
          case Ended =>
            var stillStreaming := StillStreaming(clients, ip);
            if !stillStreaming {
              if autoResume && buttons[ip] {
                var renderer := FindRenderer(renderers, ip);
                if renderer.Some? {
                  played := played + [renderer.value];
                }
              } else if buttons[ip] {
                buttons := buttons[ip := false];
              }
            }
        }
      }
    }

    /** Handles every pending event, in the order they were sent. */
    method DrainFeedback(events: seq<StreamerFeedback>, clients: map<string, ChannelStream>, autoResume: bool)
      requires Valid()
      modifies this
      ensures Valid() && renderers == old(renderers)
      ensures State() == Drain(old(State()), renderers, autoResume, clients, events)
    {
      var i := 0;
      while i < |events|
        invariant 0 <= i <= |events|
        invariant Valid() && renderers == old(renderers)
        invariant State() == Drain(old(State()), renderers, autoResume, clients, events[..i])
      {
        assert events[..i + 1][..i] == events[..i];
        HandleFeedback(events[i], clients, autoResume);
        i := i + 1;
      }
      assert events[..i] == events;
    }
  }
}
