/** From a handler to the screen: the channel, the server's list, a subscription and the desktop's slab. */
module Screen {
  import opened Common
  import opened DeviceWire
  import opened Desktop
  import D = Dispatcher
  import G = Generations
  import L = Listing
  import S = Subscriber

  /** What a quiet subscription to this server's list has sent last. */
  ghost predicate LastSent(server: D.Server, begin: S.State, actions: seq<S.Action>, sent: seq<Device>)
    reads server
  {
    && S.Initial(begin) && S.CanRun(begin, actions)
    && var t := S.Run(begin, actions);
    && S.Quiet(t) && t.versions != [] && S.Current(t) == D.Devices(server.deviceList)
    && t.sent != [] && t.sent[|t.sent| - 1].devices == sent
  }

  lemma QuietScreenMirrors(server: D.Server, begin: S.State, actions: seq<S.Action>, sent: seq<Device>,
                           screen: HubContext)
    requires server.Valid() && LastSent(server, begin, actions, sent)
    requires screen.Valid() && screen.devices == Carried(sent, RoundTrip)
    ensures Mirrors(screen.deviceKeys, screen.devices, D.DevicesAfter(server.history), RoundTrip)
  {
    S.QuietClientMirrorsServer(begin, actions, server.deviceList, D.DevicesAfter(server.history), screen.deviceKeys);
  }

  /**
   * Whatever discoverers, handlers, clients and subscriptions did: when the channel is drained and the
   * subscription quiet, a desktop that rebuilt its slab has a slot for the device exactly if its latest handler
   * is live, and the slot shows the very record that handler holds, as the wire carries it, unless it drifted.
   */
  lemma ScreenShowsHandler(s: G.State, actions: seq<G.Action>, server: D.Server, begin: S.State,
                           following: seq<S.Action>, sent: seq<Device>, screen: HubContext, device: Device)
    requires G.Initial(s) && G.CanRun(s, actions) && G.Drained(G.Run(s, actions))
    requires server.Valid() && D.Only(server.history, s.uuid) == G.Run(s, actions).list
    requires LastSent(server, begin, following, sent)
    requires screen.Valid() && screen.devices == Carried(sent, RoundTrip) && device.uuid == s.uuid
    ensures var t := G.Run(s, actions); var key := screen.DeviceKey(device);
            && (key.Some? <==> G.Live(t))
            && (G.Live(t) ==>
                  var held := t.gens[|t.gens| - 1].state.device;
                  && key.value < |screen.devices|
                  && (L.NoDrift(L.Noted(L.NONE, s, actions), held) ==> screen.devices[key.value] == RoundTrip(held)))
  {
    QuietScreenMirrors(server, begin, following, sent, screen);
    G.DrainedListShowsLiveHandler(s, actions, server.history);
    if G.Live(G.Run(s, actions)) {
      L.ListAgreesExactly(s, actions, server.history);
    }
  }

  /** In orderly runs it is always the very record. */
  lemma OrderlyScreenShowsHandler(s: G.State, actions: seq<G.Action>, server: D.Server, begin: S.State,
                                  following: seq<S.Action>, sent: seq<Device>, screen: HubContext, device: Device)
    requires G.Initial(s) && G.CanRun(s, actions) && G.Drained(G.Run(s, actions)) && L.AllOrderly(s, actions)
    requires server.Valid() && D.Only(server.history, s.uuid) == G.Run(s, actions).list
    requires LastSent(server, begin, following, sent)
    requires screen.Valid() && screen.devices == Carried(sent, RoundTrip) && device.uuid == s.uuid
    requires G.Live(G.Run(s, actions))
    ensures var t := G.Run(s, actions); var key := screen.DeviceKey(device);
            key.Some? && screen.devices[key.value] == RoundTrip(t.gens[|t.gens| - 1].state.device)
  {
    QuietScreenMirrors(server, begin, following, sent, screen);
    L.ListShowsHandler(s, actions, server.history);
  }
}
