/** The script's settings store (class OBS_ScriptSettings): a dictionary from
    setting name to value, refreshed from the host's settings object with the
    getter that the Python type of each current value selects. */
module Settings {
  import opened Wrappers

  /** A setting value, tagged with the Python type it has. */
  datatype Setting = B(b: bool) | S(s: string) | I(i: int) | F(f: real)

  /** The Python type of a value: the key of the getter and default tables. */
  datatype Kind = BoolKind | StrKind | IntKind | FloatKind

  function KindOf(v: Setting): Kind
  {
    match v
    case B(_) => BoolKind
    case S(_) => StrKind
    case I(_) => IntKind
    case F(_) => FloatKind
  }

  /** What a host getter of kind `k` returns when it finds no item of that kind. */
  function ZeroOf(k: Kind): (v: Setting)
    ensures KindOf(v) == k
  {
    match k
    case BoolKind => B(false)
    case StrKind => S("")
    case IntKind => I(0)
    case FloatKind => F(0.0)
  }

  /** The module-level DEFAULTS dictionary; the store is built on this very object. */
  const DEFAULTS: map<string, Setting> :=
    map["pred_threshold" := F(0.5), "monitor" := I(1), "port" := I(5557),
        "interval" := I(30), "source" := S("")]

  /** The host's settings object: the values the user set and the registered defaults. */
  datatype HostData = HostData(user: map<string, Setting>, defaults: map<string, Setting>)

  /** A typed host getter (obs_data_get_bool/_string/_int/_double): the user value
      when it has the requested kind, else the default of that kind, else zero. */
  function Read(data: HostData, name: string, k: Kind): (v: Setting)
    ensures KindOf(v) == k
    ensures name in data.user && KindOf(data.user[name]) == k ==> v == data.user[name]
    ensures ((name !in data.user || KindOf(data.user[name]) != k) &&
             name in data.defaults && KindOf(data.defaults[name]) == k) ==> v == data.defaults[name]
  {
    if name in data.user && KindOf(data.user[name]) == k then data.user[name]
    else if name in data.defaults && KindOf(data.defaults[name]) == k then data.defaults[name]
    else ZeroOf(k)
  }

  /** The store after `update`: each key re-read with the getter of its current kind. */
  function Updated(s: map<string, Setting>, data: HostData): (r: map<string, Setting>)
    ensures r.Keys == s.Keys
    ensures forall k :: k in s ==> k in r && KindOf(r[k]) == KindOf(s[k])
  {
    map k | k in s :: Read(data, k, KindOf(s[k]))
  }

  /** The host's settings object after `set_defaults` registered every entry of `s`. */
  function WithDefaults(data: HostData, s: map<string, Setting>): HostData
  {
    HostData(data.user, data.defaults + s)
  }

  /** Registering the store's values as defaults and then refreshing the store
      gives back the store, except where the user set a value of the same kind. */
  lemma UpdateAfterDefaults(s: map<string, Setting>, data: HostData)
    ensures forall k :: k in s ==>
      Updated(s, WithDefaults(data, s))[k] ==
        if k in data.user && KindOf(data.user[k]) == KindOf(s[k]) then data.user[k] else s[k]
  {
  }

  /** With no user values for the store's keys, defaults-then-update is the identity. */
  lemma {:induction false} DefaultsRoundTrip(s: map<string, Setting>, data: HostData)
    requires forall k :: k in s ==> k !in data.user
    ensures Updated(s, WithDefaults(data, s)) == s
  {
    var r := Updated(s, WithDefaults(data, s));
    forall k | k in s
      ensures r[k] == s[k]
    {
      UpdateAfterDefaults(s, data);
    }
  }

  /** Keys and kinds are those of DEFAULTS. */
  ghost predicate WellTyped(s: map<string, Setting>)
  {
    s.Keys == DEFAULTS.Keys &&
    forall k :: k in s ==> KindOf(s[k]) == KindOf(DEFAULTS[k])
  }

  /** An update keeps a well-typed store well-typed, whatever the host holds. */
  lemma UpdateKeepsWellTyped(s: map<string, Setting>, data: HostData)
    requires WellTyped(s)
    ensures WellTyped(Updated(s, data))
  {
  }

  class ScriptSettings {
    var settings: map<string, Setting>

    ghost predicate Valid()
      reads this
    {
      WellTyped(settings)
    }

    constructor (initial: map<string, Setting>)
      ensures settings == initial
      ensures initial == DEFAULTS ==> Valid()
    {
      settings := initial;
    }

    /** Attribute access `stgs.<name>`: the entry, or None where Python raises
        KeyError. On a well-typed store it finds exactly the keys of DEFAULTS,
        each with the type of its default. */
    function Get(name: string): (r: Option<Setting>)
      reads this
      requires Valid()
      ensures r.Some? <==> name in DEFAULTS
      ensures r.Some? ==> KindOf(r.value) == KindOf(DEFAULTS[name])
    {
      if name in settings then Some(settings[name]) else None
    }

    function Threshold(): (t: real)
      reads this
      requires Valid()
      ensures Get("pred_threshold") == Some(F(t))
    {
      settings["pred_threshold"].f
    }

    function Port(): (p: int)
      reads this
      requires Valid()
      ensures Get("port") == Some(I(p))
    {
      settings["port"].i
    }

    function Source(): (name: string)
      reads this
      requires Valid()
      ensures Get("source") == Some(S(name))
    {
      settings["source"].s
    }

    function Monitor(): (m: Setting)
      reads this
      requires Valid()
      ensures Get("monitor") == Some(m) && m.I?
    {
      settings["monitor"]
    }

    /** `set_defaults`: registers every entry of the store as a host default,
        with the setter of its kind; nothing else in the host object changes. */
    method SetDefaults(data: HostData) returns (r: HostData)
      ensures r == WithDefaults(data, settings)
      ensures r.user == data.user
      ensures r.defaults.Keys == data.defaults.Keys + settings.Keys
      ensures forall k :: k in settings ==> r.defaults[k] == settings[k]
      ensures forall k :: k in data.defaults && k !in settings ==> r.defaults[k] == data.defaults[k]
    {
      r := data;
      var todo := settings.Keys;
      while todo != {}
        invariant todo <= settings.Keys
        invariant r.user == data.user
        invariant r.defaults.Keys == data.defaults.Keys + (settings.Keys - todo)
        invariant forall k :: k in settings && k !in todo ==> r.defaults[k] == settings[k]
        invariant forall k :: k in data.defaults && k !in settings ==> r.defaults[k] == data.defaults[k]
        invariant forall k :: k in data.defaults && k in todo ==> r.defaults[k] == data.defaults[k]
        decreases todo
      {
        var name :| name in todo;
        r := r.(defaults := r.defaults[name := settings[name]]);
        todo := todo - {name};
      }
    }

    /** `update`: rewrites every entry in place with the getter of its current kind. */
    method Update(data: HostData)
      modifies this
      ensures settings == Updated(old(settings), data)
      ensures old(Valid()) ==> Valid()
    {
      ghost var before := settings;
      var todo := settings.Keys;
      while todo != {}
        invariant todo <= before.Keys
        invariant settings.Keys == before.Keys
        invariant forall k :: k in before && k !in todo ==> settings[k] == Read(data, k, KindOf(before[k]))
        invariant forall k :: k in todo ==> settings[k] == before[k]
        decreases todo
      {
        var name :| name in todo;
        settings := settings[name := Read(data, name, KindOf(settings[name]))];
        todo := todo - {name};
      }
      if WellTyped(before) {
        UpdateKeepsWellTyped(before, data);
      }
    }
  }
}
