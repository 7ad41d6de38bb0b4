/** The control loop (update_status) and the handlers it dispatches to:
    the geometry reply (monitor_info), the threshold rule (blur), the disable
    button, and the settings refresh that rebinds the socket (script_update).

    The pure part states one tick over a snapshot of the socket, the host's
    flags and the effect trace; the methods act on the objects and are proved
    to match it. */
module Control {
  import opened Wrappers
  import opened Settings
  import opened Protocol
  import opened Transport
  import opened Obs
  import opened Toggle
  import opened Screen

  /** The settings a tick reads. */
  datatype Config = Config(threshold: real, monitor: Setting, source: string)

  /** What a tick can change: the socket's queue and reply state, the host's
      flags, and the trace of effects. */
  datatype World = World(inbox: seq<Request>, awaitingReply: bool, enabled: map<string, bool>, trace: seq<Effect>)

  /** A tick's new world, and whether it ended in an exception. */
  datatype TickResult = TickResult(world: World, raised: bool)

  /** The request kinds `update_status` answers. */
  predicate Known(kind: string)
  {
    kind == "screen" || kind == "predict"
  }

  /** The world after sending `r`. */
  function Answer(w: World, r: Reply): World
  {
    w.(awaitingReply := false, trace := w.trace + [Send(r)])
  }

  /** The writes `blur(pred)` issues to the target source in world `w`. */
  function BlurWritesIn(w: World, cfg: Config, pred: real): seq<bool>
  {
    BlurWrites(SourceEnabled(w.enabled, cfg.source), pred, cfg.threshold)
  }

  /** The world after `blur(pred)`. */
  function BlurWorld(w: World, cfg: Config, pred: real): World
  {
    var writes := BlurWritesIn(w, cfg, pred);
    w.(enabled := AfterWrites(w.enabled, cfg.source, writes),
       trace := w.trace + SetCalls(cfg.source, writes))
  }

  /** The geometry reply for the configured source. */
  function ScreenReply(cfg: Config, geo: Geometry): Reply
  {
    Info(MonitorInfo(SourceSize(geo, cfg.source), SceneitemCrop(geo, cfg.source), cfg.monitor))
  }

  /** One tick: poll, receive, dispatch on the kind. With `replyUnknown`, a
      request of any other kind is answered with an empty reply. */
  function Dispatch(w: World, cfg: Config, geo: Geometry, replyUnknown: bool): TickResult
  {
    if w.inbox == [] || w.awaitingReply then TickResult(w, false)
    else
      var m := w.inbox[0];
      var received := w.(inbox := w.inbox[1..], awaitingReply := true, trace := w.trace + [Recv(m)]);
      if m.kind == "screen" then TickResult(Answer(received, ScreenReply(cfg, geo)), false)
      else if m.kind == "predict" then
        var acked := Answer(received, Ack);
        match m.pred
        case None => TickResult(acked, true)
        case Some(p) => TickResult(BlurWorld(acked, cfg, p), false)
      else if replyUnknown then TickResult(Answer(received, Ack), false)
      else TickResult(received, false)
  }

  /** `update_status` as written: a request of an unknown kind is received and
      never answered, so the socket is left owing a reply. */
  function Tick(w: World, cfg: Config, geo: Geometry): (r: TickResult)
    ensures r.world.awaitingReply <==>
      w.awaitingReply || (w.inbox != [] && !Known(w.inbox[0].kind))
  {
    Dispatch(w, cfg, geo, false)
  }

  /** `update_status` answering every request: it never leaves a reply owed. */
  function TickReplying(w: World, cfg: Config, geo: Geometry): (r: TickResult)
    ensures r.world.awaitingReply == w.awaitingReply
  {
    Dispatch(w, cfg, geo, true)
  }

  /** `n` successive ticks. */
  function RunWith(w: World, cfg: Config, geo: Geometry, replyUnknown: bool, n: nat): World
    decreases n
  {
    if n == 0 then w else RunWith(Dispatch(w, cfg, geo, replyUnknown).world, cfg, geo, replyUnknown, n - 1)
  }

  lemma {:induction false} RepliesSetCalls(name: string, writes: seq<bool>)
    ensures Replies(SetCalls(name, writes)) == []
    decreases |writes|
  {
    if writes != [] {
      var front := writes[..|writes| - 1];
      assert SetCalls(name, writes)[..|writes| - 1] == SetCalls(name, front);
      RepliesSetCalls(name, front);
    }
  }

  lemma RepliesRecvSend(m: Request, r: Reply)
    ensures Replies([Recv(m), Send(r)]) == [r]
    ensures Replies([Recv(m)]) == []
  {
    assert [Recv(m)][..0] == [];
    assert Replies([Recv(m)]) == [];
    assert [Recv(m), Send(r)][..1] == [Recv(m)];
  }

  /** A tick that finds nothing ready, or a reply still owed, receives,
      sends and toggles nothing. */
  lemma IdleTickChangesNothing(w: World, cfg: Config, geo: Geometry)
    requires w.inbox == [] || w.awaitingReply
    ensures Tick(w, cfg, geo) == TickResult(w, false)
  {
  }

  /** A "screen" request gets exactly one reply, the geometry dictionary with
      'monitor_num' equal to the monitor setting; no flag changes. */
  lemma {:induction false} ScreenTick(w: World, cfg: Config, geo: Geometry)
    requires w.inbox != [] && !w.awaitingReply && w.inbox[0].kind == "screen"
    ensures var r := Tick(w, cfg, geo);
      !r.raised &&
      r.world.trace == w.trace + [Recv(w.inbox[0]), Send(ScreenReply(cfg, geo))] &&
      Replies(r.world.trace) == Replies(w.trace) + [ScreenReply(cfg, geo)] &&
      ScreenReply(cfg, geo).fields["monitor_num"] == Value(cfg.monitor) &&
      r.world.enabled == w.enabled && !r.world.awaitingReply && r.world.inbox == w.inbox[1..]
  {
    var m := w.inbox[0];
    assert w.trace + [Recv(m)] + [Send(ScreenReply(cfg, geo))] == w.trace + [Recv(m), Send(ScreenReply(cfg, geo))];
    RepliesAppend(w.trace, [Recv(m), Send(ScreenReply(cfg, geo))]);
    RepliesRecvSend(m, ScreenReply(cfg, geo));
  }

  /** A "predict" request gets exactly one reply, the empty acknowledgement,
      sent before any write to the flag; afterwards the target source is
      enabled exactly when the prediction exceeds the threshold, and no other
      source changes. */
  lemma {:induction false} PredictTick(w: World, cfg: Config, geo: Geometry, p: real)
    requires w.inbox != [] && !w.awaitingReply && w.inbox[0] == Request("predict", Some(p))
    ensures var r := Tick(w, cfg, geo);
      !r.raised &&
      r.world.trace == w.trace + [Recv(w.inbox[0]), Send(Ack)] +
        SetCalls(cfg.source, BlurWrites(SourceEnabled(w.enabled, cfg.source), p, cfg.threshold)) &&
      Replies(r.world.trace) == Replies(w.trace) + [Ack] &&
      (cfg.source in w.enabled ==> r.world.enabled == w.enabled[cfg.source := p > cfg.threshold]) &&
      (cfg.source !in w.enabled ==> r.world.enabled == w.enabled) &&
      !r.world.awaitingReply && r.world.inbox == w.inbox[1..]
  {
    var m := w.inbox[0];
    var writes := BlurWrites(SourceEnabled(w.enabled, cfg.source), p, cfg.threshold);
    var calls := SetCalls(cfg.source, writes);
    var r := Tick(w, cfg, geo).world;
    assert r.trace == w.trace + [Recv(m), Send(Ack)] + calls by {
      assert w.trace + [Recv(m)] + [Send(Ack)] == w.trace + [Recv(m), Send(Ack)];
    }
    assert Replies(r.trace) == Replies(w.trace) + [Ack] by {
      RepliesAppend(w.trace + [Recv(m), Send(Ack)], calls);
      RepliesAppend(w.trace, [Recv(m), Send(Ack)]);
      RepliesRecvSend(m, Ack);
      RepliesSetCalls(cfg.source, writes);
    }
    assert r.enabled == AfterWrites(w.enabled, cfg.source, writes);
    if cfg.source in w.enabled {
      BlurIsLevel(w.enabled[cfg.source], p, cfg.threshold);
      BlurTransitions(w.enabled[cfg.source], p, cfg.threshold);
    }
  }

  /** A "predict" request without a prediction is acknowledged, then raises
      before the flag is read. */
  lemma {:induction false} PredictWithoutPredictionTick(w: World, cfg: Config, geo: Geometry)
    requires w.inbox != [] && !w.awaitingReply && w.inbox[0] == Request("predict", None)
    ensures var r := Tick(w, cfg, geo);
      r.raised && r.world.trace == w.trace + [Recv(w.inbox[0]), Send(Ack)] &&
      Replies(r.world.trace) == Replies(w.trace) + [Ack] && r.world.enabled == w.enabled
  {
    var m := w.inbox[0];
    assert w.trace + [Recv(m)] + [Send(Ack)] == w.trace + [Recv(m), Send(Ack)];
    RepliesAppend(w.trace, [Recv(m), Send(Ack)]);
    RepliesRecvSend(m, Ack);
  }

  /** A request of any other kind is received and gets no reply. */
  lemma {:induction false} UnknownKindTick(w: World, cfg: Config, geo: Geometry)
    requires w.inbox != [] && !w.awaitingReply && !Known(w.inbox[0].kind)
    ensures var r := Tick(w, cfg, geo);
      !r.raised && r.world.trace == w.trace + [Recv(w.inbox[0])] &&
      Replies(r.world.trace) == Replies(w.trace) &&
      r.world.awaitingReply && r.world.enabled == w.enabled
  {
    RepliesAppend(w.trace, [Recv(w.inbox[0])]);
    RepliesRecvSend(w.inbox[0], Ack);
  }

  /** A tick that may answer the head request answers it: one reply, and no
      reply owed afterwards. */
  lemma {:induction false} DispatchAnswers(w: World, cfg: Config, geo: Geometry, replyUnknown: bool)
    requires w.inbox != [] && !w.awaitingReply
    requires replyUnknown || Known(w.inbox[0].kind)
    ensures var r := Dispatch(w, cfg, geo, replyUnknown).world;
      !r.awaitingReply && r.inbox == w.inbox[1..] && |Replies(r.trace)| == |Replies(w.trace)| + 1
  {
    var m := w.inbox[0];
    if m.kind == "screen" {
      ScreenTick(w, cfg, geo);
    } else if m.kind == "predict" {
      if m.pred.Some? {
        PredictTick(w, cfg, geo, m.pred.value);
      } else {
        PredictWithoutPredictionTick(w, cfg, geo);
      }
    } else {
      assert w.trace + [Recv(m)] + [Send(Ack)] == w.trace + [Recv(m), Send(Ack)];
      RepliesAppend(w.trace, [Recv(m), Send(Ack)]);
      RepliesRecvSend(m, Ack);
    }
  }

  /** Starting with no reply owed, `n` ticks receive the first min(n, |inbox|)
      requests and answer each exactly once, provided every request can be
      answered: all of a known kind, or unknown kinds answered too. */
  lemma {:induction false} RunAnswersEveryRequest(w: World, cfg: Config, geo: Geometry, replyUnknown: bool, n: nat)
    requires !w.awaitingReply
    requires replyUnknown || forall i :: 0 <= i < |w.inbox| ==> Known(w.inbox[i].kind)
    ensures var k := if n < |w.inbox| then n else |w.inbox|;
      var r := RunWith(w, cfg, geo, replyUnknown, n);
      !r.awaitingReply && r.inbox == w.inbox[k..] && |Replies(r.trace)| == |Replies(w.trace)| + k
    decreases n
  {
    if n == 0 {
    } else if w.inbox == [] {
      RunAnswersEveryRequest(w, cfg, geo, replyUnknown, n - 1);
    } else {
      var next := Dispatch(w, cfg, geo, replyUnknown).world;
      DispatchAnswers(w, cfg, geo, replyUnknown);
      assert forall i :: 0 <= i < |next.inbox| ==> next.inbox[i] == w.inbox[i + 1];
      RunAnswersEveryRequest(next, cfg, geo, replyUnknown, n - 1);
      var k := if n - 1 < |next.inbox| then n - 1 else |next.inbox|;
      assert next.inbox[k..] == w.inbox[k + 1..];
    }
  }

  /** While a reply is owed, `update_status` as written does nothing, however
      often it runs. */
  lemma {:induction false} OwedReplyBlocksForever(w: World, cfg: Config, geo: Geometry, n: nat)
    requires w.awaitingReply
    ensures RunWith(w, cfg, geo, false, n) == w
    decreases n
  {
    if n > 0 {
      IdleTickChangesNothing(w, cfg, geo);
      OwedReplyBlocksForever(w, cfg, geo, n - 1);
    }
  }

  /** A "ping" ahead of a prediction of 0.9 against the default threshold: the
      code as written receives the ping, never answers it, and never receives
      the prediction, so the overlay stays disabled on every later tick; when
      unknown kinds are answered, two ticks enable it. */
  lemma UnknownKindWedgesSocket(n: nat)
    ensures var cfg := Config(0.5, I(1), "blur");
      var geo := Geometry(map[], map[]);
      var w := World([Request("ping", None), Request("predict", Some(0.9))], false, map["blur" := false], []);
      var stuck := RunWith(w, cfg, geo, false, n + 1);
      stuck.inbox == [Request("predict", Some(0.9))] && stuck.awaitingReply &&
      !SourceEnabled(stuck.enabled, "blur") &&
      SourceEnabled(RunWith(w, cfg, geo, true, 2).enabled, "blur")
  {
    var cfg := Config(0.5, I(1), "blur");
    var geo := Geometry(map[], map[]);
    var w := World([Request("ping", None), Request("predict", Some(0.9))], false, map["blur" := false], []);
    var first := Dispatch(w, cfg, geo, false).world;
    assert first.awaitingReply && first.inbox == [Request("predict", Some(0.9))];
    OwedReplyBlocksForever(first, cfg, geo, n);
    var answered := Dispatch(w, cfg, geo, true).world;
    assert answered.inbox == [Request("predict", Some(0.9))] && !answered.awaitingReply;
    var second := Dispatch(answered, cfg, geo, true).world;
    assert second.enabled == map["blur" := true];
  }

  // ---------------------------------------------------------------------
  // The script's objects and the functions it runs on them.

  /** The settings a tick reads from the store. */
  function ConfigOf(stgs: ScriptSettings): Config
    reads stgs
    requires stgs.Valid()
  {
    Config(stgs.Threshold(), stgs.Monitor(), stgs.Source())
  }

  /** The world as the socket, the host and the shared trace hold it. */
  ghost function Snap(socket: Socket, host: Host): World
    reads socket, host, socket.trace
  {
    World(socket.inbox, socket.awaitingReply, host.enabled, socket.trace.events)
  }

  /** The module-level `monitor_info()`: the target source's geometry reply
      with 'monitor_num' equal to the monitor setting. */
  function CurrentMonitorInfo(stgs: ScriptSettings, host: Host): (info: map<string, Field>)
    reads stgs, host
    requires stgs.Valid()
    ensures info.Keys == {"source_size", "crop", "monitor_num"}
    ensures info["monitor_num"] == Value(stgs.Monitor())
    ensures ParseScreenReply(info) ==
      Some(ScreenGeometry(SourceSize(host.geometry, stgs.Source()).0, SourceSize(host.geometry, stgs.Source()).1,
                          SceneitemCrop(host.geometry, stgs.Source()), stgs.Monitor().i))
  {
    ScreenReplyRoundTrip(SourceSize(host.geometry, stgs.Source()), SceneitemCrop(host.geometry, stgs.Source()), stgs.Monitor().i);
    ScreenReply(ConfigOf(stgs), host.geometry).fields
  }

  /** `blur(pred)`: reads the target's flag once, then disables it when it was
      on and the prediction is at most the threshold, or enables it when it was
      off and the prediction is above. */
  method Blur(stgs: ScriptSettings, host: Host, pred: real)
    requires stgs.Valid()
    modifies host`enabled, host.trace
    ensures var writes := BlurWrites(SourceEnabled(old(host.enabled), stgs.Source()), pred, stgs.Threshold());
      host.enabled == AfterWrites(old(host.enabled), stgs.Source(), writes) &&
      host.trace.events == old(host.trace.events) + SetCalls(stgs.Source(), writes)
    ensures stgs.Source() in old(host.enabled) ==> SourceEnabled(host.enabled, stgs.Source()) == (pred > stgs.Threshold())
  {
    var source := stgs.Source();
    var blured := SourceEnabled(host.enabled, source);
    if blured && pred <= stgs.Threshold() {
      host.SetEnabled(source, false);
    }
    if !blured && pred > stgs.Threshold() {
      host.SetEnabled(source, true);
    }
  }

  /** The "Disable Source" button: disables the target when it is enabled. */
  method DisableButton(stgs: ScriptSettings, host: Host)
    requires stgs.Valid()
    modifies host`enabled, host.trace
    ensures var writes := DisableWrites(SourceEnabled(old(host.enabled), stgs.Source()));
      host.enabled == AfterWrites(old(host.enabled), stgs.Source(), writes) &&
      host.trace.events == old(host.trace.events) + SetCalls(stgs.Source(), writes)
    ensures !SourceEnabled(host.enabled, stgs.Source())
  {
    var source := stgs.Source();
    var enabled := SourceEnabled(host.enabled, source);
    if enabled {
      host.SetEnabled(source, false);
    }
  }

  /** `update_status`, one timer tick, as `Tick` states it. */
  method UpdateStatus(socket: Socket, stgs: ScriptSettings, host: Host) returns (raised: bool)
    requires socket.trace == host.trace && stgs.Valid()
    modifies socket`inbox, socket`awaitingReply, host`enabled, socket.trace
    ensures var r := Tick(old(Snap(socket, host)), ConfigOf(stgs), host.geometry);
      Snap(socket, host) == r.world && raised == r.raised
  {
    raised := false;
    var ready := socket.Poll();
    if ready {
      var msg := socket.Recv();
      if msg.kind == "screen" {
        socket.Send(Info(CurrentMonitorInfo(stgs, host)));
      } else if msg.kind == "predict" {
        socket.Send(Ack);
        match msg.pred {
          case None =>
            raised := true;
          case Some(p) =>
            Blur(stgs, host, p);
        }
      }
    }
  }

  /** `script_update`: refreshes the store from the host, then binds the socket
      to the port setting. */
  method ScriptUpdate(stgs: ScriptSettings, socket: Socket, data: HostData)
    requires stgs.Valid()
    modifies stgs, socket`port, socket.trace
    ensures stgs.settings == Updated(old(stgs.settings), data) && stgs.Valid()
    ensures socket.port == stgs.Port()
    ensures socket.trace.events == old(socket.trace.events) + BindEffects(old(socket.port), stgs.Port())
  {
    stgs.Update(data);
    socket.Bind(stgs.Port());
  }
}
