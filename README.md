# vsc OBS script: a Dafny model of its controller

The script runs inside OBS. A separate predictor process classifies what a
monitor shows. It talks to the script over a ZeroMQ reply socket on a
loopback port. The script answers two requests:

- `"screen"` is answered with the target source's size, its scene item's crop
  and the configured monitor number.
- `"predict"` carries a probability. The script acknowledges it with an empty
  reply, then enables or disables the target source (a blur overlay) by
  comparing the probability with a threshold.

The script also keeps a settings dictionary that the host refreshes. Each
refresh rebinds the socket to the configured port.

The model has these modules:

- `Settings`: the settings store (`OBS_ScriptSettings`). It is a
  `map<string, Setting>` whose values keep their Python type, so each value
  selects the host getter that refreshes it. `DEFAULTS` is the store's
  initial value.
- `Protocol`: requests, replies and the shared ghost `Trace`. The trace
  records every bind, unbind, receive, send and `set_enabled` call in order.
- `Transport`: the socket (`OBS_Socket`), with the port it holds (0 while
  unbound). It also has the pure `BindEffects` that specifies `bind`.
- `Obs`: the host's side. It holds the sources' enabled flags and the
  geometry reads. A name the host does not know reads as zero or false, and
  writes to it are ignored.
- `Toggle`: the threshold rule of `blur` and the one-sided rule of the
  disable button. Each rule is stated as the writes it issues after reading
  the flag once.
- `Screen`: the geometry reply dictionary, and the peer's reading of it.
- `Control`: one timer tick (`update_status`) as a pure function over a
  snapshot (`World`). Beside it are the methods `Blur`, `DisableButton`,
  `UpdateStatus` and `ScriptUpdate`, which act on the objects and are proved
  to match the pure functions.

Choices:

- `bind` takes any integer. The model does not require `port > 0`. The
  single-address property is proved for non-zero ports, and
  `BindZeroLeaksAddress` shows what port 0 does. The host's panel limits the
  port to 1..10000, so port 0 cannot come from the panel.
- The request is `Request(kind, pred)`, where `pred` is an `Option`.
  Dispatch compares `kind` with `"screen"` and `"predict"` as the code does.
- A `"predict"` request without `pred` is acknowledged first. Then the
  lookup of `pred` raises, which the model reports as `raised`.
- Predictions and the threshold are `real`, because they are only compared.
  NaN is not represented (see "## Left out").
- The socket follows ZeroMQ's reply-socket rule. `poll` reports a ready
  request only while no reply is owed. `recv` needs a ready request, and
  `send` needs a reply to be owed.

## Model

| member | source | states |
|---|---|---|
| `Transport.Socket.Bind` | vsc/vsc_obs_script.py:15-23 | afterwards the stored port is the argument; the trace gains exactly the calls of `BindEffects` for the old port |
| `Transport.BindCases` | vsc/vsc_obs_script.py:15-23 | unbound: exactly one bind of the new port and no unbind; same non-zero port: no call at all; different port: unbind of the old address, then bind of the new one |
| `Transport.BindIdempotent` | vsc/vsc_obs_script.py:16-23 | binding the non-zero port already held issues nothing, so two binds of the same port make exactly the calls of one |
| `Transport.BindKeepsOneAddress` | vsc/vsc_obs_script.py:15-23 | from a trace whose bound addresses match the stored port, binding a non-zero port never has two addresses bound at any point, and leaves exactly that port bound |
| `Transport.BindAllKeepsOneAddress` | vsc/vsc_obs_script.py:15-23 | any sequence of binds with non-zero ports keeps at most one address bound throughout, and ends with only the last port bound |
| `Transport.BindZeroLeaksAddress` | vsc/vsc_obs_script.py:15-18 | `bind(0)` stores 0, so a later `bind(5557)` binds without unbinding: two addresses are bound |
| `Transport.Socket.Poll` | vsc/vsc_obs_script.py:25-26 | a request is ready exactly when one is queued and no reply is owed |
| `Transport.Socket.Recv` | vsc/vsc_obs_script.py:28-29 | returns the first queued request, removes it from the queue, records it in the trace, and leaves a reply owed |
| `Transport.Socket.Send` | vsc/vsc_obs_script.py:31-32 | records the reply in the trace and clears the owed reply |
| `Settings.Read` | vsc/vsc_obs_script.py:37-40 | the getter of a kind returns a value of that kind; the user's value wins when it has that kind, otherwise the registered default of that kind |
| `Settings.Updated` | vsc/vsc_obs_script.py:95-97 | the refreshed store has the same keys, and every value keeps its type |
| `Settings.UpdateKeepsWellTyped` | vsc/vsc_obs_script.py:141-148 | a store with the keys and types of `DEFAULTS` keeps them through any refresh, whatever the host holds |
| `Settings.UpdateAfterDefaults` | vsc/vsc_obs_script.py:91-97 | registering the store as defaults and then refreshing gives back each value, unless the user set a value of the same type for that key |
| `Settings.DefaultsRoundTrip` | vsc/vsc_obs_script.py:91-97 | with no user values for the store's keys, defaults-then-refresh gives back the store unchanged |
| `Settings.ScriptSettings.constructor` | vsc/vsc_obs_script.py:46-48 | the store is the dictionary it is given; built on `DEFAULTS`, it has their keys and types |
| `Settings.ScriptSettings.Get` | vsc/vsc_obs_script.py:50-51 | on a well-typed store, `stgs.<key>` finds a value exactly for the keys of `DEFAULTS` (so it never raises KeyError for them), and the value has the type of its default |
| `Settings.ScriptSettings.Threshold` | vsc/vsc_obs_script.py:50-51 | in a well-typed store, `pred_threshold` is a float, and this returns it |
| `Settings.ScriptSettings.Port` | vsc/vsc_obs_script.py:50-51 | in a well-typed store, `port` is an integer, and this returns it |
| `Settings.ScriptSettings.Source` | vsc/vsc_obs_script.py:50-51 | in a well-typed store, `source` is a string, and this returns it |
| `Settings.ScriptSettings.Monitor` | vsc/vsc_obs_script.py:50-51 | in a well-typed store, `monitor` is an integer setting, and this returns the setting as stored |
| `Settings.ScriptSettings.SetDefaults` | vsc/vsc_obs_script.py:91-93 | the host object becomes `WithDefaults` of the old one and the store, the function the round-trip lemmas speak about: every key of the store gets its value as a host default, and other defaults and all user values are unchanged |
| `Settings.ScriptSettings.Update` | vsc/vsc_obs_script.py:95-97 | each entry is re-read in place with the getter of its current type; a well-typed store stays well-typed |
| `Toggle.BlurWritesAtMostOnce` | vsc/vsc_obs_script.py:178-186 | `blur` reads the flag once and issues at most one write, and that write changes the flag |
| `Toggle.BlurTransitions` | vsc/vsc_obs_script.py:181-185 | enabled and `pred <= t` ends disabled; disabled and `pred > t` ends enabled; otherwise no write and no change; `pred == t` always ends disabled |
| `Toggle.BlurIsLevel` | vsc/vsc_obs_script.py:178-186 | the flag after `blur` is `pred > t`, whatever it was before: a comparator without hysteresis |
| `Toggle.BlurIdempotent` | vsc/vsc_obs_script.py:178-186 | a second `blur` with the same prediction writes nothing and leaves the flag of the first |
| `Toggle.DisableLeavesDisabled` | vsc/vsc_obs_script.py:170-175 | the button leaves the source disabled, and writes exactly when it was enabled |
| `Screen.SceneitemInfo` | vsc/vsc_obs_script.py:130-139 | the scene item's dictionary has exactly the keys `source_size` and `crop`; the scale is not part of it |
| `Screen.MonitorInfo` | vsc/vsc_obs_script.py:189-192 | the reply has exactly `source_size`, `crop` and `monitor_num`, with no scale; `monitor_num` is the monitor setting as stored, whatever the geometry |
| `Screen.ScreenReplyRoundTrip` | vsc/vsc_obs_script.py:135-136 | a peer reading the crop tuple as (top, left, right, bottom) recovers the host's crop, the source size and the monitor number |
| `Control.CurrentMonitorInfo` | vsc/vsc_obs_script.py:189-192 | the reply for the configured source carries its size and crop (zero when the host does not know it) and `monitor_num` equal to the monitor setting |
| `Control.Tick` | vsc/vsc_obs_script.py:195-202 | after a tick a reply is owed exactly when one was owed before, or when the tick received a request of an unknown kind |
| `Control.IdleTickChangesNothing` | vsc/vsc_obs_script.py:196 | when `poll` is false, the tick receives, sends and toggles nothing |
| `Control.ScreenTick` | vsc/vsc_obs_script.py:198-199 | a `"screen"` request gets exactly one reply, the geometry dictionary with `monitor_num` equal to the monitor setting; no flag changes |
| `Control.PredictTick` | vsc/vsc_obs_script.py:200-202 | a `"predict"` request gets exactly one reply, the empty acknowledgement, which comes before every flag write in the trace; afterwards the target is enabled exactly when `pred > t`, and no other source changes |
| `Control.PredictWithoutPredictionTick` | vsc/vsc_obs_script.py:200-202 | a `"predict"` request without `pred` is acknowledged, then raises; no flag changes |
| `Control.UnknownKindTick` | vsc/vsc_obs_script.py:198-202 | a request of any other kind is received, gets no reply, and leaves a reply owed |
| `Control.DispatchAnswers` | vsc/vsc_obs_script.py:195-202 | a tick whose head request is answerable sends exactly one reply and leaves none owed |
| `Control.RunAnswersEveryRequest` | vsc/vsc_obs_script.py:195-202 | starting with no reply owed, `n` ticks receive the first min(n, queue length) requests and answer each exactly once, when every request is of a known kind or unknown kinds are answered too |
| `Control.OwedReplyBlocksForever` | vsc/vsc_obs_script.py:196 | while a reply is owed, any number of ticks as written changes nothing |
| `Control.UnknownKindWedgesSocket` | vsc/vsc_obs_script.py:195-202 | a `"ping"` queued before a prediction of 0.9 leaves the code as written owing a reply forever: the prediction is never received and the overlay stays disabled; answering unknown kinds enables it in two ticks |
| `Control.TickReplying` | vsc/vsc_obs_script.py:195-202 | the corrected tick answers requests of unknown kinds with an empty reply, so it never leaves a reply owed |
| `Control.Blur` | vsc/vsc_obs_script.py:178-186 | the flag is read once; the host's flags and the trace change exactly by the writes of the threshold rule; an existing target ends enabled exactly when `pred > t` |
| `Control.DisableButton` | vsc/vsc_obs_script.py:170-175 | the host's flags and the trace change exactly by the one-sided rule's writes; the target ends disabled |
| `Control.UpdateStatus` | vsc/vsc_obs_script.py:195-202 | the socket, the host's flags and the trace end as `Tick` says, and `raised` is set when the tick raises |
| `Control.ScriptUpdate` | vsc/vsc_obs_script.py:205-207 | the store is refreshed from the host data and stays well-typed; then the socket holds the refreshed port, with the trace extended by that bind's calls |

## Findings

| source | as written | input that shows it | evidently intended | confidence | as-written member | corrected member |
|---|---|---|---|---|---|---|
| vsc/vsc_obs_script.py:195-202 | a request whose `msg` is neither `"screen"` nor `"predict"` is received and never answered. The reply socket then owes a reply, `poll` stays false, and no later request is ever received | queue `{msg: "ping"}`, then `{msg: "predict", pred: 0.9}`, with threshold 0.5 and the overlay disabled | the controller goes on serving later requests. A reply socket cannot drop a request and go on, so the corrected tick answers an unknown kind with an empty reply, which the peer receives as an acknowledgement | not executed; medium: relies on a reply socket reporting no input while a reply is owed | `Control.UnknownKindWedgesSocket` | `Control.TickReplying` |

The corrected tick answers an unknown kind with an empty reply.
`Control.RunAnswersEveryRequest` proves that it then receives every queued
request and answers each one exactly once. `Control.UpdateStatus` still
models the code as written.

## Left out

- ZeroMQ context, socket and poller construction, pickling, and the
  connection to the peer. The socket is a queue of incoming requests, a flag
  for an owed reply, and the trace. A failed bind (port in use) is not
  modelled.
- A request dictionary without a `msg` key, or with a `pred` that cannot be
  compared with a float. Both raise in Python and are not modelled. A missing
  `pred` is modelled.
- The property panel (`script_properties`, the `add_*` helpers and source
  enumeration), `script_description`, and the path widget. These are host UI
  and do not affect the controller's behaviour.
- Host lookups and reference counting (`obs_get_source_by_name`,
  `obs_source_release`, scene and scene item lookup). The model treats them
  as reads of the maps in `Obs.Geometry` and `Obs.Host.enabled`.
- The scale read `_scale`. It is a float vector, and it is read and then
  dropped, so no reply ever contains it.
- The timer registration in `script_update` (`timer_add`), including the
  extra timer that every update adds. This is host scheduling. `UpdateStatus`
  models one timer tick.
- `Settings.Read` models the host getters in a simplified way. The user's
  value is used when it has the requested type, then the default of that
  type, then zero. The host's conversions between integer and float items
  are not modelled.
- Iteration order of the settings dictionary. The loops visit the keys in
  an arbitrary order. Each key is written once, from its own old value, so
  the order does not change the result.
- `Toggle.BlurIsLevel`: NaN predictions are not represented. For a NaN
  `pred`, both comparisons in `blur` are false, so the code writes nothing
  and an enabled overlay stays enabled. The flag is `pred > t` only for the
  real values that the model covers.
- `Control.Blur`: NaN predictions are not represented. For NaN the code
  writes nothing, so "ends enabled exactly when `pred > t`" holds only for
  non-NaN predictions.
- `Control.PredictTick`: NaN predictions are not represented. For NaN the
  acknowledgement is still sent, but no flag is written.
- Integer widths of the host's sizes and crops. These are unbounded integers
  and are only copied into the reply.
