/** Any sequence of starts: token runs, reconnects, failing bundles, interrupted writes. */
module Restarts {
  import opened Prelude
  import opened Lifecycle

  /** What one start of the node meets. `cloud` is None when no bundle comes back,
      `interrupted` when the process dies between the two persist writes. */
  datatype Start = Start(
    data: Dict, fingerprint: string, cloud: Option<Bundle>, tunnelUp: bool, interrupted: bool)

  datatype Outcome = Rejected | Unanswered | BundleRefused | Interrupted | Connected

  function Fingerprinted(c: Conf, fingerprint: string): (r: Conf)
    ensures Settled(c.others) ==> Settled(r.others)
  {
    if StringAt(c.others, NodeMachineFingerprint) != "" then c
    else c.(others := c.others[NodeMachineFingerprint := Text(fingerprint)])
  }

  /** The settings once an acceptable bundle has been applied. */
  function Applied(c: Conf, b: Bundle): (r: Conf)
    requires Complete(b.fields)
    ensures Settled(c.others) ==> Settled(r.others)
  {
    Conf(c.token,
         if Filled(b.fields, JwtPrivateKey) then b.fields[JwtPrivateKey].s else c.key,
         if Filled(b.fields, JwtKeyId) then b.fields[JwtKeyId].s else c.keyId,
         Updated(c.others, b))
  }

  /** What is written besides the key. */
  function ConfigOf(c: Conf): Dict
    requires Settled(c.others)
  {
    var o := c.others;
    map[
      QpuId := o[QpuId], QpuDisplayName := o[QpuDisplayName], NativeGateSet := o[NativeGateSet],
      NumQubits := o[NumQubits], JwtKeyId := Text(c.keyId), RedisUrl := o[RedisUrl], WebappUrl := o[WebappUrl],
      ConnectPath := o[ConnectPath], HeartbeatPath := o[HeartbeatPath], WebhookPath := o[WebhookPath],
      VpnRequired := o[VpnRequired], VpnCheckInterval := o[VpnCheckInterval],
      VpnInterfaceHint := o[VpnInterfaceHint], VpnProbeTargets := o[VpnProbeTargets],
      NodeAutoVpn := o[NodeAutoVpn], NodeVpnProfilePath := o[NodeVpnProfilePath],
      NodeMachineFingerprint := o[NodeMachineFingerprint]]
  }

  /** Key by key: what the file says after settings `c` were persisted. */
  function Kept(c: Conf, k: Key): Option<Value> {
    match k
    case QpuId => At(c.others, QpuId)
    case QpuDisplayName => At(c.others, QpuDisplayName)
    case NativeGateSet => At(c.others, NativeGateSet)
    case NumQubits => At(c.others, NumQubits)
    case RedisUrl => At(c.others, RedisUrl)
    case WebappUrl => At(c.others, WebappUrl)
    case ConnectPath => At(c.others, ConnectPath)
    case HeartbeatPath => At(c.others, HeartbeatPath)
    case WebhookPath => At(c.others, WebhookPath)
    case VpnRequired => At(c.others, VpnRequired)
    case VpnCheckInterval => At(c.others, VpnCheckInterval)
    case VpnInterfaceHint => At(c.others, VpnInterfaceHint)
    case VpnProbeTargets => At(c.others, VpnProbeTargets)
    case NodeAutoVpn => At(c.others, NodeAutoVpn)
    case NodeVpnProfilePath => At(c.others, NodeVpnProfilePath)
    case NodeMachineFingerprint => At(c.others, NodeMachineFingerprint)
    case JwtKeyId => Some(Text(c.keyId))
    case _ => None
  }

  lemma ConfigKeeps(c: Conf, k: Key)
    requires Settled(c.others)
    ensures At(ConfigOf(c), k) == Kept(c, k)
  {
  }

  lemma ConfigKeepsAll(c: Conf)
    requires Settled(c.others)
    ensures forall k :: At(ConfigOf(c), k) == Kept(c, k)
  {
    forall k ensures At(ConfigOf(c), k) == Kept(c, k) { ConfigKeeps(c, k); }
    hide ConfigOf, At, Kept;
  }

  /** The files after settings `c` met the cloud. */
  function Connect(f: Files, c: Conf, st: Start): (Files, Outcome)
    requires Settled(c.others)
  {
    var c1 := Fingerprinted(c, st.fingerprint);
    if st.cloud.None? then (f, Unanswered)
    else if !Acceptable(c1, st.cloud.value, st.tunnelUp) then (f, BundleRefused)
    else
      var c2 := Applied(c1, st.cloud.value);
      if st.interrupted then (f.(key := Some(c2.key)), Interrupted)
      else (Files(Some(c2.key), Some(ConfigOf(c2))), Connected)
  }

  function Boot(f: Files, st: Start): (Files, Outcome) {
    match Constructed(st.data, f)
    case None => (f, Rejected)
    case Some(c) => Connect(f, c, st)
  }

  // ---------------------------------------------------------------- in place

  /** The two persisted files. */
  class Disk {
    var key: Option<string>
    var config: Option<Dict>

    function View(): Files
      reads this
    {
      Files(key, config)
    }

    /** `_persist_runtime_config`: the key first, then the configuration. */
    method PersistRuntimeConfig(s: Settings, interrupted: bool)
      requires Settled(s.others)
      modifies this
      ensures key == Some(s.jwtPrivateKey)
      ensures interrupted ==> config == old(config)
      ensures !interrupted ==> config.Some? && forall k :: At(config.value, k) == Kept(s.View(), k)
      ensures !interrupted ==> config == Some(ConfigOf(s.View()))
    {
      key := Some(s.jwtPrivateKey);
      if interrupted { return; }
      ConfigKeepsAll(s.View());
      hide Kept, At;
      var o := s.others;
      config := Some(map[
        QpuId := o[QpuId], QpuDisplayName := o[QpuDisplayName], NativeGateSet := o[NativeGateSet],
        NumQubits := o[NumQubits], JwtKeyId := Text(s.jwtKeyId), RedisUrl := o[RedisUrl], WebappUrl := o[WebappUrl],
        ConnectPath := o[ConnectPath], HeartbeatPath := o[HeartbeatPath], WebhookPath := o[WebhookPath],
        VpnRequired := o[VpnRequired], VpnCheckInterval := o[VpnCheckInterval],
        VpnInterfaceHint := o[VpnInterfaceHint], VpnProbeTargets := o[VpnProbeTargets],
        NodeAutoVpn := o[NodeAutoVpn], NodeVpnProfilePath := o[NodeVpnProfilePath],
        NodeMachineFingerprint := o[NodeMachineFingerprint]]);
    }

    /** `connect_settings`: what the cloud answers is applied to the settings and persisted. */
    method ConnectSettings(s: Settings, st: Start) returns (o: Outcome)
      requires Settled(s.others)
      modifies this, s
      ensures (View(), o) == Connect(old(View()), old(s.View()), st)
      ensures o in {Unanswered, BundleRefused} ==> View() == old(View())
      ensures o in {Interrupted, Connected} ==>
                && st.cloud.Some? && Complete(st.cloud.value.fields)
                && s.View() == Applied(Fingerprinted(old(s.View()), st.fingerprint), st.cloud.value)
                && key == Some(s.jwtPrivateKey)
      ensures o == Connected ==> config.Some? && forall k :: At(config.value, k) == Kept(s.View(), k)
    {
      if StringAt(s.others, NodeMachineFingerprint) == "" {
        s.others := s.others[NodeMachineFingerprint := Text(st.fingerprint)];
      }
      assert s.View() == Fingerprinted(old(s.View()), st.fingerprint);
      hide Acceptable, Updated, Fingerprinted, After, Kept, At, ConfigOf;
      if st.cloud.None? { return Unanswered; }
      var ok := s.ApplyNodeBundle(st.cloud.value, st.tunnelUp);
      if !ok { return BundleRefused; }
      PersistRuntimeConfig(s, st.interrupted);
      o := if st.interrupted then Interrupted else Connected;
    }

    /** `Settings()` followed by `connect_settings`. */
    method StartNode(st: Start) returns (o: Outcome)
      modifies this
      ensures (View(), o) == Boot(old(View()), st)
    {
      var c := Constructed(st.data, View());
      if c.None? { return Rejected; }
      var s := new Settings(c.value);
      hide Constructed, Connect, Settled;
      o := ConnectSettings(s, st);
    }
  }

  // ---------------------------------------------------------------- credentials over any sequence of starts

  function BootAll(f: Files, starts: seq<Start>): Files
    decreases |starts|
  {
    if starts == [] then f else BootAll(Boot(f, starts[0]).0, starts[1..])
  }

  /** Both files hold a credential. */
  predicate Provisioned(f: Files) {
    && f.key.Some? && f.key.value != ""
    && f.config.Some? && Filled(f.config.value, JwtKeyId)
  }

  lemma AppliedHasCredentials(c: Conf, b: Bundle, tunnelUp: bool)
    requires Acceptable(c, b, tunnelUp)
    ensures Complete(b.fields) && Applied(c, b).key != "" && Applied(c, b).keyId != ""
  {
    hide Updated;
  }

  lemma WrittenIsProvisioned(c: Conf)
    requires Settled(c.others) && c.key != "" && c.keyId != ""
    ensures Provisioned(Files(Some(c.key), Some(ConfigOf(c))))
  {
    ConfigKeeps(c, JwtKeyId);
    hide ConfigOf;
  }

  lemma BootKeepsCredentials(f: Files, st: Start)
    ensures Boot(f, st).1 == Connected || Provisioned(f) ==> Provisioned(Boot(f, st).0)
    ensures Boot(f, st).1 in {Rejected, Unanswered, BundleRefused} ==> Boot(f, st).0 == f
  {
    hide Constructed, Acceptable, Applied, Fingerprinted, ConfigOf, Filled, Complete, Settled;
    var c := Constructed(st.data, f);
    if c.Some? && st.cloud.Some? {
      var c1 := Fingerprinted(c.value, st.fingerprint);
      if Acceptable(c1, st.cloud.value, st.tunnelUp) {
        AppliedHasCredentials(c1, st.cloud.value, st.tunnelUp);
        WrittenIsProvisioned(Applied(c1, st.cloud.value));
      }
    }
  }

  /** Once one connect succeeded, the disk holds a non-empty private key and key id
      after every further start, whatever it meets and even when it is interrupted. */
  lemma {:induction false} CredentialsSurvive(f: Files, starts: seq<Start>)
    requires Provisioned(f)
    ensures Provisioned(BootAll(f, starts))
    decreases |starts|
  {
    if starts != [] {
      BootKeepsCredentials(f, starts[0]);
      CredentialsSurvive(Boot(f, starts[0]).0, starts[1..]);
    }
    hide Boot;
  }

  /** The environment has no token and overrides no credential with a non-string. */
  predicate Tokenless(data: Dict) {
    && StringAt(data, NodeToken) == "" && Stringy(data, NodeToken)
    && (JwtPrivateKey in data ==> data[JwtPrivateKey].Text? || Blank(data[JwtPrivateKey]))
    && (JwtKeyId in data ==> data[JwtKeyId].Text? || Blank(data[JwtKeyId]))
  }

  /** A start without a token takes each credential from the environment if it is
      there and from disk otherwise, and passes validation if and only if it
      finds both. */
  lemma TokenlessStart(f: Files, data: Dict)
    requires Tokenless(data)
    requires f.config.Some? && JwtKeyId in f.config.value ==> f.config.value[JwtKeyId].Text?
    ensures var key := if Filled(data, JwtPrivateKey) then data[JwtPrivateKey].s
                       else if f.config.Some? && f.key.Some? then f.key.value else "";
            var id := if Filled(data, JwtKeyId) then data[JwtKeyId].s
                      else if f.config.Some? then StringAt(f.config.value, JwtKeyId) else "";
            && (key != "" && id != "" ==>
                  Constructed(data, f).Some? && Constructed(data, f).value.key == key
                    && Constructed(data, f).value.keyId == id)
            && (Constructed(data, f).Some? ==> key != "" && id != "")
  {
    var m := Source(data, f);
    var p := Loaded(f);
    assert NodeToken !in p by { LoadedHasNoToken(f); }
    LoadedCredentials(f);
    assert StringAt(m, NodeToken) == "";
    hide Loaded;
  }

  lemma LoadedHasNoToken(f: Files)
    ensures NodeToken !in Loaded(f)
  {
  }

  lemma LoadedCredentials(f: Files)
    ensures JwtKeyId in Loaded(f) <==> f.config.Some? && JwtKeyId in f.config.value
    ensures JwtKeyId in Loaded(f) ==> Loaded(f)[JwtKeyId] == f.config.value[JwtKeyId]
    ensures JwtPrivateKey in Loaded(f) <==> f.config.Some? && f.key.Some? && f.key.value != ""
    ensures JwtPrivateKey in Loaded(f) ==> Loaded(f)[JwtPrivateKey] == Text(f.key.value)
  {
    assert JwtKeyId in OTHER_KEYS + [JwtKeyId] by { assert (OTHER_KEYS + [JwtKeyId])[|OTHER_KEYS|] == JwtKeyId; }
    assert JwtPrivateKey !in OTHER_KEYS + [JwtKeyId];
  }

  /** After one successful connect and any number of further starts, a start
      without a token passes credential validation. */
  lemma LaterStartsValidate(f: Files, first: Start, starts: seq<Start>, data: Dict)
    requires Boot(f, first).1 == Connected && Tokenless(data)
    ensures Constructed(data, BootAll(Boot(f, first).0, starts)).Some?
  {
    var f' := BootAll(Boot(f, first).0, starts);
    BootKeepsCredentials(f, first);
    CredentialsSurvive(Boot(f, first).0, starts);
    hide Boot, BootAll, Constructed;
    TokenlessStart(f', data);
  }

  /** A reconnect whose bundle brings no key, with none in the environment, keeps the one on disk. */
  lemma ReconnectKeepsKey(f: Files, st: Start)
    requires Provisioned(f) && Tokenless(st.data) && !Filled(st.data, JwtPrivateKey)
    requires st.cloud.Some? && !Filled(st.cloud.value.fields, JwtPrivateKey)
    ensures Boot(f, st).0.key == f.key
  {
    TokenlessStart(f, st.data);
    var c := Constructed(st.data, f);
    hide Constructed, Acceptable, Updated;
  }

  // ---------------------------------------------------------------- the two files as a pair

  function PairOf(f: Files): (string, string)
    requires Provisioned(f)
  {
    (f.key.value, f.config.value[JwtKeyId].s)
  }

  /** A connect leaves key and key id of the same settings; an interrupted one
      leaves the new key beside the old id, so the two still belong together if
      and only if the id did not change. */
  lemma InterruptionSplitsThePair(f: Files, st: Start)
    requires Provisioned(f) && Boot(f, st).1 in {Interrupted, Connected}
    ensures Constructed(st.data, f).Some? && st.cloud.Some? && Complete(st.cloud.value.fields)
    ensures Provisioned(Boot(f, st).0)
    ensures var c := Applied(Fingerprinted(Constructed(st.data, f).value, st.fingerprint), st.cloud.value);
            PairOf(Boot(f, st).0) == (c.key, c.keyId) <==> Boot(f, st).1 == Connected || c.keyId == PairOf(f).1
  {
    BootKeepsCredentials(f, st);
    hide Constructed, Acceptable, Updated, Fingerprinted;
    var c1 := Fingerprinted(Constructed(st.data, f).value, st.fingerprint);
    AppliedHasCredentials(c1, st.cloud.value, st.tunnelUp);
  }

  // ---------------------------------------------------------------- every other setting

  /** The position of a setting in the list that is read back. */
  function Position(k: Key): nat
    requires k in DEFAULTS
  {
    match k
    case QpuId => 0
    case QpuDisplayName => 1
    case NativeGateSet => 2
    case NumQubits => 3
    case RedisUrl => 4
    case WebappUrl => 5
    case ConnectPath => 6
    case HeartbeatPath => 7
    case WebhookPath => 8
    case VpnRequired => 9
    case VpnCheckInterval => 10
    case VpnInterfaceHint => 11
    case VpnProbeTargets => 12
    case NodeAutoVpn => 13
    case NodeVpnProfilePath => 14
    case NodeMachineFingerprint => 15
  }

  lemma OthersArePicked(k: Key)
    requires k in DEFAULTS
    ensures k in OTHER_KEYS
  {
    assert OTHER_KEYS[Position(k)] == k;
  }

  /** Where each setting of a start comes from: with a token from the environment
      alone, without one from the environment unless it is missing or empty there,
      then from disk; from the defaults last. */
  lemma SettingsComeFrom(data: Dict, f: Files, k: Key)
    requires k in DEFAULTS && Constructed(data, f).Some?
    ensures Constructed(data, f).value.others.Keys == DEFAULTS.Keys
    ensures Constructed(data, f).value.others[k] ==
            if StringAt(data, NodeToken) == ""
               && (k !in data || data[k] in {Text(""), Null, Texts([])})
               && f.config.Some? && k in f.config.value
            then f.config.value[k]
            else if k in data then data[k] else DEFAULTS[k]
  {
    OthersArePicked(k);
    LoadedOther(f, k);
    SourceOf(data, f, k);
    hide Source, Loaded;
  }

  lemma LoadedOther(f: Files, k: Key)
    requires k in OTHER_KEYS && k != JwtKeyId && k != JwtPrivateKey
    ensures k in Loaded(f) <==> f.config.Some? && k in f.config.value
    ensures k in Loaded(f) ==> Loaded(f)[k] == f.config.value[k]
  {
  }

  lemma SourceOf(data: Dict, f: Files, k: Key)
    ensures var m, p := Source(data, f), Loaded(f);
            var blank := k !in data || data[k] in {Text(""), Null, Texts([])};
            && (k in m <==> k in data || (StringAt(data, NodeToken) == "" && k in p))
            && (k in m ==> m[k] == if StringAt(data, NodeToken) == "" && blank && k in p then p[k] else data[k])
  {
    hide Loaded;
  }

  /** The settings with which a start ended that got through to the cloud's bundle. */
  function FinalSettings(f: Files, st: Start): Conf
    requires Boot(f, st).1 in {Interrupted, Connected}
  {
    Applied(Fingerprinted(Constructed(st.data, f).value, st.fingerprint), st.cloud.value)
  }

  lemma ConnectedFiles(f: Files, st: Start)
    requires Boot(f, st).1 == Connected
    ensures var c := FinalSettings(f, st);
            Settled(c.others) && Boot(f, st).0 == Files(Some(c.key), Some(ConfigOf(c))) && c.key != "" && c.keyId != ""
  {
    var c1 := Fingerprinted(Constructed(st.data, f).value, st.fingerprint);
    AppliedHasCredentials(c1, st.cloud.value, st.tunnelUp);
    hide Constructed, Acceptable, Applied, Fingerprinted, ConfigOf, Complete;
  }

  lemma {:induction false} FailedStartsChangeNothing(f: Files, starts: seq<Start>)
    requires forall i :: 0 <= i < |starts| ==> Boot(f, starts[i]).1 in {Rejected, Unanswered, BundleRefused}
    ensures BootAll(f, starts) == f
    decreases |starts|
  {
    if starts != [] {
      BootKeepsCredentials(f, starts[0]);
      FailedStartsChangeNothing(f, starts[1..]);
    }
    hide Boot;
  }

  lemma ReadsBack(c: Conf)
    requires Settled(c.others) && c.key != "" && c.keyId != ""
    ensures var c' := Constructed(map[], Files(Some(c.key), Some(ConfigOf(c))));
            && c'.Some? && c'.value.token == "" && c'.value.key == c.key && c'.value.keyId == c.keyId
            && forall k :: k in DEFAULTS ==> c'.value.others[k] == c.others[k]
  {
    var f := Files(Some(c.key), Some(ConfigOf(c)));
    ConfigKeeps(c, JwtKeyId);
    TokenlessStart(f, map[]);
    assert Constructed(map[], f).value.token == "" by { LoadedHasNoToken(f); hide ConfigOf, Loaded; }
    forall k | k in DEFAULTS ensures Constructed(map[], f).value.others[k] == c.others[k] {
      SettingsComeFrom(map[], f, k);
      ConfigKeeps(c, k);
      OthersAreKept(c, k);
      hide Constructed, ConfigOf, Kept;
    }
    hide Constructed, ConfigOf, Kept;
  }

  lemma OthersAreKept(c: Conf, k: Key)
    requires k in DEFAULTS && Settled(c.others)
    ensures Kept(c, k) == Some(c.others[k])
  {
  }

  /** Nothing is lost between two connects: after a start that connected, and any
      further ones that failed, a start with an empty environment has the
      credentials and every other setting with which the connected one ended. */
  lemma ReconnectFindsSettings(f: Files, first: Start, failed: seq<Start>)
    requires Boot(f, first).1 == Connected
    requires forall i :: 0 <= i < |failed| ==>
               Boot(Boot(f, first).0, failed[i]).1 in {Rejected, Unanswered, BundleRefused}
    ensures var c := FinalSettings(f, first);
            var c' := Constructed(map[], BootAll(Boot(f, first).0, failed));
            && c'.Some? && c'.value.token == "" && c'.value.key == c.key && c'.value.keyId == c.keyId
            && DEFAULTS.Keys <= c.others.Keys
            && forall k :: k in DEFAULTS ==> c'.value.others[k] == c.others[k]
  {
    ConnectedFiles(f, first);
    FailedStartsChangeNothing(Boot(f, first).0, failed);
    ReadsBack(FinalSettings(f, first));
    hide Boot, BootAll, Constructed, ConfigOf, FinalSettings;
  }

  lemma BundleKeepsFingerprint(c: Conf, b: Bundle)
    requires Complete(b.fields)
    ensures At(Applied(c, b).others, NodeMachineFingerprint) == At(c.others, NodeMachineFingerprint)
  {
    UpdatedAt(c.others, b, NodeMachineFingerprint);
    hide Updated;
  }

  lemma HasFingerprint(c: Conf, fingerprint: string)
    requires fingerprint != ""
    ensures StringAt(Fingerprinted(c, fingerprint).others, NodeMachineFingerprint) != ""
  {
  }

  /** A fingerprint once known is not generated again. */
  lemma KnownFingerprintStays(c: Conf, again: string)
    requires StringAt(c.others, NodeMachineFingerprint) != ""
    ensures Fingerprinted(c, again) == c
  {
  }

  lemma SameString(o: Dict, o': Dict, k: Key)
    requires At(o, k) == At(o', k)
    ensures StringAt(o, k) == StringAt(o', k)
  {
  }

  /** So the machine keeps the fingerprint it first connected with. */
  lemma FingerprintIsStable(f: Files, first: Start, again: string)
    requires Boot(f, first).1 == Connected && first.fingerprint != ""
    ensures var c := FinalSettings(f, first);
            var c' := Constructed(map[], Boot(f, first).0);
            && c'.Some?
            && StringAt(c.others, NodeMachineFingerprint) != ""
            && StringAt(c'.value.others, NodeMachineFingerprint) == StringAt(c.others, NodeMachineFingerprint)
            && Fingerprinted(c'.value, again) == c'.value
  {
    var c1 := Fingerprinted(Constructed(first.data, f).value, first.fingerprint);
    var c := FinalSettings(f, first);
    ConnectedFiles(f, first);
    BundleKeepsFingerprint(c1, first.cloud.value);
    HasFingerprint(Constructed(first.data, f).value, first.fingerprint);
    SameString(c.others, c1.others, NodeMachineFingerprint);
    ReadsBack(c);
    hide Boot, Constructed, Acceptable, Applied, ConfigOf, StringAt, Settled;
    var c' := Constructed(map[], Boot(f, first).0);
    assert NodeMachineFingerprint in DEFAULTS;
    SameString(c'.value.others, c.others, NodeMachineFingerprint);
    KnownFingerprintStays(c'.value, again);
    hide Fingerprinted;
  }
}
