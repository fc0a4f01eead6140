/** Provisioning, persisting, restarting and reconnecting: what happens to the credentials. */
module Lifecycle {
  import opened Prelude

  /** A JSON or environment value. */
  datatype Value = Text(s: string) | Whole(n: int) | Truth(b: bool) | Texts(ts: seq<string>) | Null | Odd

  /** The names of settings and bundle fields. */
  datatype Key =
    | QpuId | QpuDisplayName | QpuLabel | NativeGateSet | NumQubits | RedisUrl | WebappUrl | CloudBaseUrl
    | ConnectPath | HeartbeatPath | WebhookPath | VpnRequired | VpnCheckInterval | VpnInterfaceHint
    | VpnProbeTargets | NodeAutoVpn | NodeVpnProfilePath | NodeMachineFingerprint
    | JwtPrivateKey | JwtKeyId | NodeToken

  type Dict = map<Key, Value>

  /** What `current in ("", None, [])` asks. */
  predicate Blank(v: Value) {
    v == Text("") || v == Null || v == Texts([])
  }

  /** A non-empty string. */
  predicate Filled(d: Dict, k: Key) {
    k in d && d[k].Text? && d[k].s != ""
  }

  const OTHER_KEYS: seq<Key> := [
    QpuId, QpuDisplayName, NativeGateSet, NumQubits, RedisUrl, WebappUrl, ConnectPath,
    HeartbeatPath, WebhookPath, VpnRequired, VpnCheckInterval, VpnInterfaceHint,
    VpnProbeTargets, NodeAutoVpn, NodeVpnProfilePath, NodeMachineFingerprint]

  /** The field defaults of `Settings`, with `/tmp` for the temporary directory. */
  const DEFAULTS: Dict := map[
    QpuId := Text(""), QpuDisplayName := Text(""), NativeGateSet := Text("cz"), NumQubits := Whole(5),
    RedisUrl := Text(""), WebappUrl := Text("https://coda.conductorquantum.com"),
    ConnectPath := Text("/api/internal/qpu/connect"), HeartbeatPath := Text("/api/internal/qpu/heartbeat"),
    WebhookPath := Text("/api/internal/qpu/webhook"), VpnRequired := Truth(true), VpnCheckInterval := Whole(10),
    VpnInterfaceHint := Null, VpnProbeTargets := Texts([]), NodeAutoVpn := Truth(true),
    NodeVpnProfilePath := Text("/tmp/coda-node.ovpn"), NodeMachineFingerprint := Text("")]

  /** Every persisted setting besides the credentials has a value, as the fields of an object have. */
  predicate Settled(o: Dict) {
    DEFAULTS.Keys <= o.Keys
  }

  /** The two files that outlive a run. */
  datatype Files = Files(key: Option<string>, config: Option<Dict>)

  /** The settings the credentials depend on; `others` holds the persisted rest. */
  datatype Conf = Conf(token: string, key: string, keyId: string, others: Dict)

  // ---------------------------------------------------------------- reading what was persisted

  function Picked(d: Dict, keys: seq<Key>): (r: Dict)
    ensures forall k :: k in r <==> k in keys && k in d
    ensures forall k :: k in r ==> r[k] == d[k]
  {
    map k | k in keys && k in d :: d[k]
  }

  /** `load_persisted_runtime_config` */
  function Loaded(f: Files): Dict {
    match f.config
    case None => map[]
    case Some(d) =>
      var p := Picked(d, OTHER_KEYS + [JwtKeyId]);
      if f.key.Some? && f.key.value != "" then p[JwtPrivateKey := Text(f.key.value)] else p
  }

  /** `merge_persisted_runtime_config`: what is persisted fills what is missing or blank. */
  function Merged(data: Dict, persisted: Dict): Dict {
    map k | k in data.Keys + persisted.Keys ::
      if k in persisted && (k !in data || Blank(data[k])) then persisted[k] else data[k]
  }

  function Part(d: Dict, keys: set<Key>): Dict {
    map k | k in d && k in keys :: d[k]
  }

  lemma MergeOne(data: Dict, persisted: Dict, done: set<Key>, key: Key)
    requires key in persisted && key !in done
    ensures var m := Merged(data, Part(persisted, done));
            Merged(data, Part(persisted, done + {key})) ==
            if key !in m || Blank(m[key]) then m[key := persisted[key]] else m
  {
  }

  lemma MergeEnds(data: Dict, persisted: Dict)
    ensures Merged(data, Part(persisted, {})) == data
    ensures Part(persisted, persisted.Keys) == persisted
  {
  }

  lemma MergeMeans(data: Dict, persisted: Dict)
    ensures Merged(data, persisted).Keys == data.Keys + persisted.Keys
    ensures forall k :: k in Merged(data, persisted) ==>
              Merged(data, persisted)[k] ==
              if k in persisted && (k !in data || data[k] in {Text(""), Null, Texts([])}) then persisted[k] else data[k]
  {
  }

  method MergePersisted(data: Dict, persisted: Dict) returns (merged: Dict)
    ensures merged == Merged(data, persisted)
    ensures merged.Keys == data.Keys + persisted.Keys
    ensures forall k :: k in merged ==>
              merged[k] ==
              if k in persisted && (k !in data || data[k] in {Text(""), Null, Texts([])}) then persisted[k] else data[k]
  {
    merged := data;
    var todo := persisted.Keys;
    ghost var done: set<Key> := {};
    hide Merged, Part, Blank;
    MergeEnds(data, persisted);
    while todo != {}
      invariant todo == persisted.Keys - done && done <= persisted.Keys
      invariant merged == Merged(data, Part(persisted, done))
      decreases |todo|
    {
      var key :| key in todo;
      MergeOne(data, persisted, done, key);
      if key !in merged || Blank(merged[key]) {
        merged := merged[key := persisted[key]];
      }
      done := done + {key};
      todo := todo - {key};
    }
    assert done == persisted.Keys;
    MergeMeans(data, persisted);
  }

  method Pick(data: Dict, keys: seq<Key>) returns (picked: Dict)
    ensures picked == Picked(data, keys)
  {
    picked := map[];
    for i := 0 to |keys|
      invariant picked == Picked(data, keys[..i])
    {
      if keys[i] in data { picked := picked[keys[i] := data[keys[i]]]; }
    }
    assert keys[..|keys|] == keys;
  }

  /** `load_persisted_runtime_config`: of the configuration file exactly the listed
      settings, and the key exactly when both files are there and it is not empty. */
  method LoadPersisted(f: Files) returns (persisted: Dict)
    ensures persisted == Loaded(f)
    ensures forall k :: k in persisted && k != JwtPrivateKey <==>
              f.config.Some? && k in f.config.value && (k in OTHER_KEYS || k == JwtKeyId)
    ensures forall k :: k in persisted && k != JwtPrivateKey ==> persisted[k] == f.config.value[k]
    ensures JwtPrivateKey in persisted <==> f.config.Some? && f.key.Some? && f.key.value != ""
    ensures JwtPrivateKey in persisted ==> persisted[JwtPrivateKey] == Text(f.key.value)
  {
    if f.config.None? { return map[]; }
    persisted := Pick(f.config.value, OTHER_KEYS + [JwtKeyId]);
    if f.key.Some? && f.key.value != "" {
      persisted := persisted[JwtPrivateKey := Text(f.key.value)];
    }
  }

  // ---------------------------------------------------------------- constructing settings

  predicate Stringy(d: Dict, k: Key) {
    k in d ==> d[k].Text?
  }

  function StringAt(d: Dict, k: Key): string {
    if k in d && d[k].Text? then d[k].s else ""
  }

  /** What the settings are built from. */
  function Source(data: Dict, f: Files): Dict {
    if StringAt(data, NodeToken) != "" then data else Merged(data, Loaded(f))
  }

  /** The fields built from `m`, defaults included. */
  function Fields(m: Dict): (o: Dict)
    ensures Settled(o)
  {
    map k | k in DEFAULTS :: if k in m then m[k] else DEFAULTS[k]
  }

  /** `Settings()`: None when validation rejects it. */
  function Constructed(data: Dict, f: Files): (c: Option<Conf>)
    ensures c.Some? ==> Settled(c.value.others)
  {
    var m := Source(data, f);
    var c := Conf(StringAt(m, NodeToken), StringAt(m, JwtPrivateKey), StringAt(m, JwtKeyId), Fields(m));
    if !(Stringy(m, NodeToken) && Stringy(m, JwtPrivateKey) && Stringy(m, JwtKeyId)) then None
    else if c.token == "" && (c.key == "" || c.keyId == "") then None
    else Some(c)
  }

  // ---------------------------------------------------------------- applying a bundle

  datatype Vpn = Vpn(required: Value, hint: Value, interval: Value, targets: Value, profile: Value)
  datatype Bundle = Bundle(fields: Dict, vpn: Option<Vpn>)

  function Get(d: Dict, k: Key): Value {
    if k in d then d[k] else Null
  }

  /** Python's `a or b` on values. */
  predicate Truthy(v: Value) {
    match v
    case Text(s) => s != ""
    case Whole(n) => n != 0
    case Truth(b) => b
    case Texts(ts) => ts != []
    case Null => false
    case Odd => true
  }

  predicate IsInt(v: Value) {
    v.Whole? || v.Truth?
  }

  function WebappKey(d: Dict): Key {
    if WebappUrl in d then WebappUrl else CloudBaseUrl
  }

  predicate NeedsVpn(others: Dict, v: Vpn) {
    if v.required.Truth? then v.required.b else Get(others, VpnRequired) != Truth(false)
  }

  /** The bundle has everything it must have, for settings with these credentials. */
  predicate Acceptable(c: Conf, b: Bundle, tunnelUp: bool) {
    && Filled(b.fields, QpuId)
    && Filled(b.fields, NativeGateSet)
    && (NumQubits in b.fields ==> IsInt(b.fields[NumQubits]))
    && (Filled(b.fields, JwtPrivateKey) || c.key != "")
    && (Filled(b.fields, JwtKeyId) || c.keyId != "")
    && Filled(b.fields, RedisUrl)
    && Filled(b.fields, WebappKey(b.fields))
    && (b.vpn.Some? ==>
          var profiled := b.vpn.value.profile.Text? && b.vpn.value.profile.s != "";
          && (NeedsVpn(c.others, b.vpn.value) ==> profiled)
          && (profiled && Get(c.others, NodeAutoVpn) != Truth(false) ==> tunnelUp))
  }

  function At(d: Dict, k: Key): Option<Value> {
    if k in d then Some(d[k]) else None
  }

  predicate NonEmpty(v: Option<Value>) {
    v.Some? && v.value.Text? && v.value.s != ""
  }

  /** Key by key: the setting `k` after a bundle, when it was `was` before. */
  function After(b: Bundle, k: Key, was: Option<Value>): Option<Value> {
    var d := b.fields;
    match k
    case QpuId => At(d, QpuId)
    case QpuDisplayName =>
      if QpuDisplayName in d && Truthy(d[QpuDisplayName]) then At(d, QpuDisplayName)
      else if QpuLabel in d && Truthy(d[QpuLabel]) then At(d, QpuLabel)
      else Some(Text(""))
    case NativeGateSet => At(d, NativeGateSet)
    case NumQubits => if NumQubits in d then At(d, NumQubits) else was
    case RedisUrl => At(d, RedisUrl)
    case WebappUrl => if WebappUrl in d then At(d, WebappUrl) else At(d, CloudBaseUrl)
    case ConnectPath => if NonEmpty(At(d, ConnectPath)) then At(d, ConnectPath) else was
    case HeartbeatPath => if NonEmpty(At(d, HeartbeatPath)) then At(d, HeartbeatPath) else was
    case WebhookPath => if NonEmpty(At(d, WebhookPath)) then At(d, WebhookPath) else was
    case VpnRequired => if b.vpn.Some? && b.vpn.value.required.Truth? then Some(b.vpn.value.required) else was
    case VpnInterfaceHint =>
      if b.vpn.Some? && (b.vpn.value.hint.Text? || b.vpn.value.hint.Null?) then Some(b.vpn.value.hint) else was
    case VpnCheckInterval =>
      if b.vpn.Some? && (b.vpn.value.interval.Whole? || b.vpn.value.interval.Truth?) then Some(b.vpn.value.interval)
      else was
    case VpnProbeTargets =>
      if b.vpn.Some? && b.vpn.value.targets.Texts? && |b.vpn.value.targets.ts| > 0 then Some(b.vpn.value.targets)
      else was
    case _ => was
  }

  lemma IdentityAt(o: Dict, b: Bundle, k: Key)
    requires Complete(b.fields)
    ensures At(UpdatedIdentity(o, b.fields), k)
         == if k in {QpuId, QpuDisplayName, NativeGateSet, NumQubits} then After(b, k, At(o, k)) else At(o, k)
  {
  }

  lemma EndpointsAt(o: Dict, b: Bundle, k: Key)
    requires Complete(b.fields)
    ensures At(UpdatedEndpoints(o, b.fields), k)
         == if k in {RedisUrl, WebappUrl, ConnectPath, HeartbeatPath, WebhookPath} then After(b, k, At(o, k))
            else At(o, k)
  {
  }

  lemma VpnAt(o: Dict, b: Bundle, k: Key)
    requires b.vpn.Some?
    ensures At(UpdatedVpn(o, b.vpn.value), k)
         == if k in {VpnRequired, VpnInterfaceHint, VpnCheckInterval, VpnProbeTargets} then After(b, k, At(o, k))
            else At(o, k)
  {
  }

  /** After a bundle each setting is what the table says. */
  lemma UpdatedAt(o: Dict, b: Bundle, k: Key)
    requires Complete(b.fields)
    ensures At(Updated(o, b), k) == After(b, k, At(o, k))
  {
    var o1 := UpdatedIdentity(o, b.fields);
    IdentityAt(o, b, k);
    EndpointsAt(o1, b, k);
    if b.vpn.Some? { VpnAt(UpdatedEndpoints(o1, b.fields), b, k); }
    hide UpdatedIdentity, UpdatedEndpoints, UpdatedVpn, At, Truthy, Filled, WebappKey, NonEmpty;
  }

  /** The runtime settings object, changed in place. */
  class Settings {
    const nodeToken: string
    var jwtPrivateKey: string
    var jwtKeyId: string
    var others: Dict

    constructor (c: Conf)
      ensures View() == c
    {
      nodeToken, jwtPrivateKey, jwtKeyId, others := c.token, c.key, c.keyId, c.others;
    }

    function View(): Conf
      reads this
    {
      Conf(nodeToken, jwtPrivateKey, jwtKeyId, others)
    }

    /** `apply_node_bundle`; false stands for the exception it raises, which
        leaves the object half changed. `tunnelUp` is how writing the profile
        and waiting for the tunnel goes. */
    method ApplyNodeBundle(b: Bundle, tunnelUp: bool) returns (ok: bool)
      modifies this
      ensures ok <==> Acceptable(old(View()), b, tunnelUp)
      ensures ok ==>
                jwtPrivateKey
                == if Filled(b.fields, JwtPrivateKey) then b.fields[JwtPrivateKey].s else old(jwtPrivateKey)
      ensures ok ==> jwtKeyId == if Filled(b.fields, JwtKeyId) then b.fields[JwtKeyId].s else old(jwtKeyId)
      ensures ok ==> jwtPrivateKey != "" && jwtKeyId != ""
      ensures ok ==> others == Updated(old(others), b)
      ensures ok ==> forall k :: At(others, k) == After(b, k, At(old(others), k))
    {
      if Complete(b.fields) {
        forall k ensures At(Updated(others, b), k) == After(b, k, At(others, k)) { UpdatedAt(others, b, k); }
      }
      var d := b.fields;
      ok := ApplyIdentity(d);
      if !ok { return; }
      ok := ApplyCredentials(d);
      if !ok { return; }
      ok := ApplyEndpoints(d);
      if !ok { return; }
      VpnUntouched(old(others), d);
      if b.vpn.Some? { ok := ApplyVpn(b.vpn.value, tunnelUp); }
    }

    method ApplyIdentity(d: Dict) returns (ok: bool)
      modifies `others
      ensures ok <==> Filled(d, QpuId) && Filled(d, NativeGateSet) && (NumQubits in d ==> IsInt(d[NumQubits]))
      ensures ok ==> others == UpdatedIdentity(old(others), d)
    {
      if !Filled(d, QpuId) { return false; }
      others := others[QpuId := d[QpuId]];
      others := others[QpuDisplayName := DisplayName(d)];
      if !Filled(d, NativeGateSet) { return false; }
      others := others[NativeGateSet := d[NativeGateSet]];
      if NumQubits in d {
        if !IsInt(d[NumQubits]) { return false; }
        others := others[NumQubits := d[NumQubits]];
      }
      return true;
    }

    method ApplyCredentials(d: Dict) returns (ok: bool)
      modifies `jwtPrivateKey, `jwtKeyId
      ensures ok <==> (Filled(d, JwtPrivateKey) || old(jwtPrivateKey) != "")
                      && (Filled(d, JwtKeyId) || old(jwtKeyId) != "")
      ensures ok ==> jwtPrivateKey == if Filled(d, JwtPrivateKey) then d[JwtPrivateKey].s else old(jwtPrivateKey)
      ensures ok ==> jwtKeyId == if Filled(d, JwtKeyId) then d[JwtKeyId].s else old(jwtKeyId)
    {
      if Filled(d, JwtPrivateKey) {
        jwtPrivateKey := d[JwtPrivateKey].s;
      } else if jwtPrivateKey == "" {
        return false;
      }
      if Filled(d, JwtKeyId) {
        jwtKeyId := d[JwtKeyId].s;
      } else if jwtKeyId == "" {
        return false;
      }
      return true;
    }

    method ApplyEndpoints(d: Dict) returns (ok: bool)
      modifies `others
      ensures ok <==> Filled(d, RedisUrl) && Filled(d, WebappKey(d))
      ensures ok ==> others == UpdatedEndpoints(old(others), d)
    {
      if !Filled(d, RedisUrl) { return false; }
      others := others[RedisUrl := d[RedisUrl]];
      if !Filled(d, WebappKey(d)) { return false; }
      others := others[WebappUrl := d[WebappKey(d)]];
      if Filled(d, ConnectPath) { others := others[ConnectPath := d[ConnectPath]]; }
      if Filled(d, HeartbeatPath) { others := others[HeartbeatPath := d[HeartbeatPath]]; }
      if Filled(d, WebhookPath) { others := others[WebhookPath := d[WebhookPath]]; }
      return true;
    }

    /** The `vpn` part of a bundle. */
    method ApplyVpn(v: Vpn, tunnelUp: bool) returns (ok: bool)
      modifies `others
      ensures others == UpdatedVpn(old(others), v)
      ensures ok <==>
              var profiled := v.profile.Text? && v.profile.s != "";
              && (NeedsVpn(old(others), v) ==> profiled)
              && (profiled && Get(old(others), NodeAutoVpn) != Truth(false) ==> tunnelUp)
    {
      if v.required.Truth? { others := others[VpnRequired := v.required]; }
      if v.hint.Null? || v.hint.Text? { others := others[VpnInterfaceHint := v.hint]; }
      if IsInt(v.interval) { others := others[VpnCheckInterval := v.interval]; }
      if v.targets.Texts? && v.targets.ts != [] { others := others[VpnProbeTargets := v.targets]; }
      var profiled := v.profile.Text? && v.profile.s != "";
      if Get(others, VpnRequired) != Truth(false) && !profiled { return false; }
      if profiled && Get(others, NodeAutoVpn) != Truth(false) { return tunnelUp; }
      return true;
    }
  }

  function DisplayName(d: Dict): Value {
    if Truthy(Get(d, QpuDisplayName)) then d[QpuDisplayName]
    else if Truthy(Get(d, QpuLabel)) then d[QpuLabel]
    else Text("")
  }

  function PutIf(o: Dict, c: bool, k: Key, v: Value): Dict {
    if c then o[k := v] else o
  }

  /** The persisted settings after each part of a bundle was applied. */
  function UpdatedIdentity(o: Dict, d: Dict): Dict
    requires QpuId in d && NativeGateSet in d
  {
    var o1 := o[QpuId := d[QpuId]][QpuDisplayName := DisplayName(d)][NativeGateSet := d[NativeGateSet]];
    PutIf(o1, NumQubits in d, NumQubits, Get(d, NumQubits))
  }

  function UpdatedEndpoints(o: Dict, d: Dict): Dict
    requires RedisUrl in d && WebappKey(d) in d
  {
    var o1 := o[RedisUrl := d[RedisUrl]][WebappUrl := d[WebappKey(d)]];
    var o2 := PutIf(o1, Filled(d, ConnectPath), ConnectPath, Get(d, ConnectPath));
    var o3 := PutIf(o2, Filled(d, HeartbeatPath), HeartbeatPath, Get(d, HeartbeatPath));
    PutIf(o3, Filled(d, WebhookPath), WebhookPath, Get(d, WebhookPath))
  }

  predicate Complete(d: Dict) {
    Filled(d, QpuId) && Filled(d, NativeGateSet) && Filled(d, RedisUrl) && Filled(d, WebappKey(d))
  }

  /** The plain fields leave the VPN switches alone. */
  lemma VpnUntouched(o: Dict, d: Dict)
    requires Complete(d)
    ensures var o' := UpdatedEndpoints(UpdatedIdentity(o, d), d);
            && Get(o', VpnRequired) == Get(o, VpnRequired)
            && Get(o', NodeAutoVpn) == Get(o, NodeAutoVpn)
  {
  }

  function UpdatedVpn(o: Dict, v: Vpn): Dict {
    var o1 := PutIf(o, v.required.Truth?, VpnRequired, v.required);
    var o2 := PutIf(o1, v.hint.Null? || v.hint.Text?, VpnInterfaceHint, v.hint);
    var o3 := PutIf(o2, IsInt(v.interval), VpnCheckInterval, v.interval);
    PutIf(o3, v.targets.Texts? && v.targets.ts != [], VpnProbeTargets, v.targets)
  }

  function Updated(o: Dict, b: Bundle): (r: Dict)
    requires Complete(b.fields)
    ensures o.Keys <= r.Keys
  {
    var o1 := UpdatedEndpoints(UpdatedIdentity(o, b.fields), b.fields);
    if b.vpn.Some? then UpdatedVpn(o1, b.vpn.value) else o1
  }

  // ---------------------------------------------------------------- why a bundle is refused

  predicate TextFor(d: Dict, k: Key) {
    At(d, k).Some? && At(d, k).value.Text? && |At(d, k).value.s| > 0
  }

  /** A bundle is refused exactly for one of these reasons: a text it must bring is
      missing or empty, its qubit count is no number, a credential is neither
      brought nor held, a required tunnel has no profile, or the tunnel that its
      profile describes does not come up although it is to be set up. */
  lemma RefusedExactly(c: Conf, b: Bundle, tunnelUp: bool)
    ensures !Acceptable(c, b, tunnelUp) <==>
            || !TextFor(b.fields, QpuId) || !TextFor(b.fields, NativeGateSet) || !TextFor(b.fields, RedisUrl)
            || !TextFor(b.fields, if WebappUrl in b.fields then WebappUrl else CloudBaseUrl)
            || (NumQubits in b.fields && !b.fields[NumQubits].Whole? && !b.fields[NumQubits].Truth?)
            || (!TextFor(b.fields, JwtPrivateKey) && c.key == "")
            || (!TextFor(b.fields, JwtKeyId) && c.keyId == "")
            || (b.vpn.Some?
                && var profiled := b.vpn.value.profile.Text? && |b.vpn.value.profile.s| > 0;
                   var required := if b.vpn.value.required.Truth? then b.vpn.value.required
                                   else if VpnRequired in c.others then c.others[VpnRequired] else Truth(true);
                   var auto := if NodeAutoVpn in c.others then c.others[NodeAutoVpn] else Truth(true);
                   (!profiled && required != Truth(false)) || (profiled && auto != Truth(false) && !tunnelUp))
  {
  }

  /** What a first start with nothing but a token is built from. */
  lemma FreshSettings(token: string)
    requires token != ""
    ensures Constructed(map[NodeToken := Text(token)], Files(None, None)) ==
            Some(Conf(token, "", "", map[
              QpuId := Text(""), QpuDisplayName := Text(""), NativeGateSet := Text("cz"), NumQubits := Whole(5),
              RedisUrl := Text(""), WebappUrl := Text("https://coda.conductorquantum.com"),
              ConnectPath := Text("/api/internal/qpu/connect"), HeartbeatPath := Text("/api/internal/qpu/heartbeat"),
              WebhookPath := Text("/api/internal/qpu/webhook"), VpnRequired := Truth(true),
              VpnCheckInterval := Whole(10), VpnInterfaceHint := Null, VpnProbeTargets := Texts([]),
              NodeAutoVpn := Truth(true), NodeVpnProfilePath := Text("/tmp/coda-node.ovpn"),
              NodeMachineFingerprint := Text("")]))
  {
    var m: Dict := map[NodeToken := Text(token)];
    assert Fields(m) == DEFAULTS;
  }
}
