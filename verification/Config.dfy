/** Agent configuration (internal/config/config.go). What a URL parses to, if it parses, is given with it. */
module Config {
  import opened Types

  datatype ParsedUrl = ParsedUrl(
    scheme: string, host: string, loopback: bool, hasUser: bool, path: string, query: string, fragment: string)

  datatype BackendConfig = BackendConfig(
    id: string, kind: string, url: string, parsed: Option<ParsedUrl>, keyEnv: string, models: seq<string>,
    concurrency: int)

  /** A URL with a host and without credentials, query or fragment. */
  predicate PlainUrl(u: Option<ParsedUrl>) {
    u.Some? && u.value.host != "" && !u.value.hasUser && u.value.query == "" && u.value.fragment == ""
  }

  /** Outside loopback the coordinator is reached over TLS only. */
  predicate CoordinatorUrlOk(u: Option<ParsedUrl>) {
    && PlainUrl(u) && u.value.path == "/relay/v1/connect"
    && (u.value.scheme == "wss" || (u.value.scheme == "ws" && u.value.loopback))
  }

  /** A coordinator is accepted over TLS anywhere, and in the clear exactly on loopback. */
  lemma InTheClearOnlyOnLoopback(u: ParsedUrl)
    requires u.path == "/relay/v1/connect" && u.host != "" && !u.hasUser && u.query == "" && u.fragment == ""
    ensures u.scheme == "wss" ==> CoordinatorUrlOk(Some(u))
    ensures u.scheme == "ws" ==> (CoordinatorUrlOk(Some(u)) <==> u.loopback)
    ensures u.scheme != "wss" && u.scheme != "ws" ==> !CoordinatorUrlOk(Some(u))
    ensures !CoordinatorUrlOk(None)
  {}

  predicate BackendUrlOk(u: Option<ParsedUrl>) {
    && PlainUrl(u) && (u.value.path == "" || u.value.path == "/")
    && (u.value.scheme == "http" || u.value.scheme == "https")
  }

  /** Drops the slashes at the end and nothing else. */
  function TrimSlashes(s: string): (r: string)
    ensures r <= s && (forall i | |r| <= i < |s| :: s[i] == '/')
    ensures r != [] ==> r[|r| - 1] != '/'
  {
    if s != [] && s[|s| - 1] == '/' then TrimSlashes(s[..|s| - 1]) else s
  }

  predicate IdentifierChar(c: char) {
    'a' <= c <= 'z' || 'A' <= c <= 'Z' || '0' <= c <= '9' || c == '_' || c == '-'
  }

  predicate Identifier(s: string) {
    1 <= |s| <= 64 && forall i | 0 <= i < |s| :: IdentifierChar(s[i])
  }

  predicate ModelName(m: string) {
    m != "" && |m| <= 256 && '\r' !in m && '\n' !in m
  }

  /** One to 64 letters, digits, underscores and hyphens, by their codes. */
  lemma IdentifiersMean(s: string)
    ensures Identifier(s) <==>
      && 1 <= |s| <= 64
      && forall i | 0 <= i < |s| ::
           var c := s[i] as int;
           48 <= c <= 57 || 65 <= c <= 90 || 97 <= c <= 122 || c == 45 || c == 95
  {}

  /** A model name is nonempty, at most 256 bytes, and has no line break. */
  lemma ModelNamesMean(s: string)
    ensures ModelName(s) <==>
      1 <= |s| <= 256 && forall i | 0 <= i < |s| :: s[i] as int != 10 && s[i] as int != 13
  {}

  function WithDefault(b: BackendConfig): BackendConfig {
    b.(url := TrimSlashes(b.url), concurrency := OrDefault(b.concurrency, 1))
  }

  ghost predicate AllowlistOk(models: seq<string>) {
    && (forall i | 0 <= i < |models| :: ModelName(models[i]))
    && (forall i, j | 0 <= i < j < |models| :: models[i] != models[j])
  }

  ghost predicate BackendOk(b: BackendConfig) {
    && Identifier(b.id) && (b.kind == "ollama" || b.kind == "cliproxyapi")
    && (b.keyEnv == "" || Identifier(b.keyEnv)) && BackendUrlOk(b.parsed)
    && 1 <= b.concurrency <= 64 && |b.models| <= 1024 && AllowlistOk(b.models)
  }

  function Total(bs: seq<BackendConfig>): int {
    if bs == [] then 0 else Total(bs[..|bs| - 1]) + bs[|bs| - 1].concurrency
  }

  /** What Agent.Validate promises about the backends it accepted. */
  ghost predicate BackendsOk(bs: seq<BackendConfig>) {
    && 1 <= |bs| <= 64
    && (forall i | 0 <= i < |bs| :: BackendOk(bs[i]))
    && (forall i, j | 0 <= i < j < |bs| :: bs[i].id != bs[j].id)
    && Total(bs) <= 64
  }

  predicate TimeoutsOk(start: int, total: int) {
    1 <= start <= total <= 86400
  }

  function OrDefault(value: int, default: int): int {
    if value == 0 then default else value
  }

  ghost function Defaulted(bs: seq<BackendConfig>): (ds: seq<BackendConfig>)
    ensures |ds| == |bs|
    ensures forall i | 0 <= i < |bs| :: ds[i] == WithDefault(bs[i])
  {
    if bs == [] then [] else Defaulted(bs[..|bs| - 1]) + [WithDefault(bs[|bs| - 1])]
  }

  /** Writes the defaults first, then judges. */
  method Timeouts(start: int, total: int) returns (ok: bool, newStart: int, newTotal: int)
    ensures newStart == OrDefault(start, 120) && newTotal == OrDefault(total, 600)
    ensures ok <==> TimeoutsOk(newStart, newTotal)
  {
    newStart, newTotal := start, total;
    if newStart == 0 {
      newStart := 120;
    }
    if newTotal == 0 {
      newTotal := 600;
    }
    ok := !(newStart < 1 || newTotal < newStart || newTotal > 86400);
  }

  method AllowlistValid(models: seq<string>) returns (ok: bool)
    ensures ok <==> AllowlistOk(models)
  {
    hide ModelName;
    var seen: set<string> := {};
    var i := 0;
    while i < |models|
      invariant 0 <= i <= |models|
      invariant seen == set k | 0 <= k < i :: models[k]
      invariant AllowlistOk(models[..i])
    {
      if !ModelName(models[i]) || models[i] in seen {
        return false;
      }
      seen := seen + {models[i]};
      i := i + 1;
    }
    assert models[..i] == models;
    return true;
  }

  class AgentConfig {
    var hostId: string
    var tokenEnv: string
    var coordinatorUrl: Option<ParsedUrl>
    var startTimeoutSeconds: int
    var totalTimeoutSeconds: int
    var backends: seq<BackendConfig>

    /** What must hold of a configuration, once defaults are in, for it to be accepted. */
    ghost predicate Acceptable()
      reads this
    {
      && Identifier(hostId) && Identifier(tokenEnv) && CoordinatorUrlOk(coordinatorUrl)
      && TimeoutsOk(OrDefault(startTimeoutSeconds, 120), OrDefault(totalTimeoutSeconds, 600))
      && BackendsOk(Defaulted(backends))
    }

    method Validate() returns (ok: bool)
      modifies this
      ensures ok == old(Acceptable())
      ensures ok ==> backends == Defaulted(old(backends)) && BackendsOk(backends)
      ensures ok ==> |backends| == |old(backends)| && forall i | 0 <= i < |backends| ::
        && backends[i] == old(backends)[i].(url := backends[i].url, concurrency := backends[i].concurrency)
        && backends[i].concurrency == (if old(backends)[i].concurrency == 0 then 1 else old(backends)[i].concurrency)
        && backends[i].url == TrimSlashes(old(backends)[i].url)
      ensures ok ==> 1 <= startTimeoutSeconds <= totalTimeoutSeconds <= 86400
      ensures ok ==>
        && coordinatorUrl.Some? && coordinatorUrl.value.path == "/relay/v1/connect" && !coordinatorUrl.value.hasUser
        && (coordinatorUrl.value.scheme == "wss"
            || (coordinatorUrl.value.scheme == "ws" && coordinatorUrl.value.loopback))
      ensures ok ==> startTimeoutSeconds == OrDefault(old(startTimeoutSeconds), 120)
                     && totalTimeoutSeconds == OrDefault(old(totalTimeoutSeconds), 600)
      ensures unchanged(`hostId, `tokenEnv, `coordinatorUrl)
    {
      hide Total, Defaulted, BackendOk, Identifier;
      if !Identifier(hostId) || !Identifier(tokenEnv) || !CoordinatorUrlOk(coordinatorUrl) {
        return false;
      }
      var timeoutsOk: bool;
      timeoutsOk, startTimeoutSeconds, totalTimeoutSeconds := Timeouts(startTimeoutSeconds, totalTimeoutSeconds);
      if !timeoutsOk {
        return false;
      }
      ok := ValidateBackends();
    }

    /** The loop over backends in Validate, which stores each default as it goes. */
    method ValidateBackends() returns (ok: bool)
      modifies this`backends
      ensures ok == BackendsOk(Defaulted(old(backends)))
      ensures ok ==> backends == Defaulted(old(backends))
    {
      hide BackendOk, AllowlistOk, Identifier, Total, Defaulted, WithDefault;
      ghost var wanted := Defaulted(backends);
      if |backends| == 0 || |backends| > 64 {
        return false;
      }
      var ids: set<string> := {};
      var total := 0;
      var i := 0;
      TotalOfNone();
      while i < |backends|
        invariant 0 <= i <= |backends| == |wanted|
        invariant forall k | 0 <= k < i :: backends[k] == wanted[k] && BackendOk(wanted[k]) && wanted[k].id in ids
        invariant forall k | i <= k < |backends| :: WithDefault(backends[k]) == wanted[k]
        invariant forall id | id in ids :: exists k :: 0 <= k < i && wanted[k].id == id
        invariant forall k, l | 0 <= k < l < i :: wanted[k].id != wanted[l].id
        invariant total == Total(wanted[..i])
      {
        var b := WithDefault(backends[i]);
        backends := backends[i := b];
        var fits := BackendFits(b);
        if !fits || b.id in ids {
          return false;
        }
        ids := ids + {b.id};
        TotalStep(wanted, i);
        total := total + b.concurrency;
        i := i + 1;
      }
      assert wanted[..i] == wanted;
      assert backends == wanted;
      return total <= 64;
    }
  }

  /** An acceptable backend, as the operator wrote it: zero concurrency stands for one. */
  lemma AcceptableBackendMeans(b: BackendConfig)
    ensures BackendOk(WithDefault(b)) <==>
      && Identifier(b.id) && (b.kind == "ollama" || b.kind == "cliproxyapi")
      && (b.keyEnv != "" ==> Identifier(b.keyEnv))
      && b.parsed.Some? && b.parsed.value.host != "" && !b.parsed.value.hasUser && b.parsed.value.query == ""
      && b.parsed.value.fragment == "" && b.parsed.value.path in {"", "/"}
      && b.parsed.value.scheme in {"http", "https"}
      && 0 <= b.concurrency <= 64 && |b.models| <= 1024
      && (forall m | m in b.models :: ModelName(m))
      && (forall i, j | 0 <= i < j < |b.models| :: b.models[i] != b.models[j])
  {
    hide Identifier, ModelName, TrimSlashes;
  }

  /** An acceptable configuration, as the operator wrote it: absent timeouts stand for 120 and 600 seconds,
      and all backends together have at most 64 slots. */
  lemma AcceptableMeans(c: AgentConfig)
    ensures c.Acceptable() <==>
      && Identifier(c.hostId) && Identifier(c.tokenEnv) && CoordinatorUrlOk(c.coordinatorUrl)
      && var start := if c.startTimeoutSeconds == 0 then 120 else c.startTimeoutSeconds;
      && var total := if c.totalTimeoutSeconds == 0 then 600 else c.totalTimeoutSeconds;
      && 1 <= start <= total <= 86400
      && 1 <= |c.backends| <= 64 && Total(Defaulted(c.backends)) <= 64
      && (forall i, j | 0 <= i < j < |c.backends| :: c.backends[i].id != c.backends[j].id)
      && (forall i | 0 <= i < |c.backends| :: BackendOk(WithDefault(c.backends[i])))
  {
    hide Identifier, CoordinatorUrlOk, BackendOk, Total;
    var ds := Defaulted(c.backends);
    assert forall i | 0 <= i < |ds| :: ds[i] == WithDefault(c.backends[i]) && ds[i].id == c.backends[i].id;
  }

  lemma TotalOfNone()
    ensures forall bs: seq<BackendConfig> :: Total(bs[..0]) == 0
  {}

  lemma TotalStep(bs: seq<BackendConfig>, i: nat)
    requires i < |bs|
    ensures Total(bs[..i + 1]) == Total(bs[..i]) + bs[i].concurrency
  {
    assert bs[..i + 1][..i] == bs[..i];
  }

  /** The checks on one backend that do not depend on the others. */
  method BackendFits(b: BackendConfig) returns (ok: bool)
    ensures ok <==> BackendOk(b)
  {
    hide Identifier, AllowlistOk;
    if !Identifier(b.id) || (b.kind != "ollama" && b.kind != "cliproxyapi") {
      return false;
    }
    if (b.keyEnv != "" && !Identifier(b.keyEnv)) || !BackendUrlOk(b.parsed) {
      return false;
    }
    if b.concurrency < 1 || b.concurrency > 64 || |b.models| > 1024 {
      return false;
    }
    ok := AllowlistValid(b.models);
  }
}

/** Model discovery (discover in internal/backend/backend.go): filtering and de-duplication. */
module Discovery {
  import opened Types
  import opened Protocol
  import opened Config

  /** One entry of the runtime's own catalog. Only Ollama entries have digests and remote marks. */
  datatype Listed = Listed(name: string, digest: string, remoteModel: string, remoteHost: string)

  /** The entry may be offered: allowed by name, and for Ollama a local model with a digest. */
  predicate Offered(c: BackendConfig, includeAll: bool, l: Listed) {
    && (includeAll || l.name in c.models)
    && (c.kind == "ollama" ==> l.digest != "" && l.remoteModel == "" && l.remoteHost == "")
  }

  /** A model comes from the first offered entry of its name. */
  ghost predicate ComesFrom(c: BackendConfig, includeAll: bool, listing: seq<Listed>, m: Model) {
    exists i ::
      && 0 <= i < |listing| && Offered(c, includeAll, listing[i]) && listing[i].name == m.name
      && (forall k | 0 <= k < i :: !(Offered(c, includeAll, listing[k]) && listing[k].name == m.name))
      && m == Model(c.id + "/" + m.name, m.name, if c.kind == "ollama" then listing[i].digest else "")
  }

  ghost predicate Distinct(ms: seq<Model>) {
    forall i, j | 0 <= i < j < |ms| :: ms[i].name != ms[j].name
  }

  ghost predicate Names(ms: seq<Model>, name: string) {
    exists i :: 0 <= i < |ms| && ms[i].name == name
  }

  /** The models are exactly the offered names, once each, from their first entries. */
  ghost predicate Discovered(c: BackendConfig, includeAll: bool, listing: seq<Listed>, ms: seq<Model>) {
    && Distinct(ms)
    && (forall i | 0 <= i < |ms| :: ComesFrom(c, includeAll, listing, ms[i]))
    && (forall i | 0 <= i < |listing| && Offered(c, includeAll, listing[i]) :: Names(ms, listing[i].name))
  }

  function Unavailable(c: BackendConfig): Backend {
    Backend(c.id, c.kind, if c.kind == "ollama" then "local" else "provider", false, c.concurrency, c.concurrency, [])
  }

  /** listing is None when the request or its decoding failed. */
  method Discover(c: BackendConfig, includeAll: bool, listing: Option<seq<Listed>>) returns (b: Backend)
    ensures b == Unavailable(c).(models := b.models, ready := b.ready)
    ensures b.id == c.id && b.kind == c.kind && b.capacity == b.available == c.concurrency
    ensures b.source == if c.kind == "ollama" then "local" else "provider"
    ensures listing.None? ==> b.models == [] && !b.ready
    ensures listing.None? ==> b == Unavailable(c)
    ensures listing.Some? ==> Discovered(c, includeAll, listing.value, b.models) && b.ready == (b.models != [])
    ensures !includeAll ==> FromDiscovery(c, b)
    ensures listing.Some? ==> forall name: string ::
      Names(b.models, name) <==>
        exists i ::
          && 0 <= i < |listing.value| && listing.value[i].name == name && (includeAll || name in c.models)
          && (c.kind == "ollama" ==>
                && listing.value[i].digest != ""
                && listing.value[i].remoteModel == "" && listing.value[i].remoteHost == "")
  {
    hide ComesFrom, Offered;
    b := Unavailable(c);
    if listing.None? {
      return;
    }
    var models: seq<Model> := [];
    var seen: set<string> := {};
    var i := 0;
    while i < |listing.value|
      invariant 0 <= i <= |listing.value|
      invariant seen == set k | 0 <= k < |models| :: models[k].name
      invariant Discovered(c, includeAll, listing.value[..i], models)
    {
      var l := listing.value[i];
      var before := listing.value[..i];
      assert listing.value[..i + 1] == before + [l];
      if Offered(c, includeAll, l) && l.name !in seen {
        var m := Model(c.id + "/" + l.name, l.name, if c.kind == "ollama" then l.digest else "");
        NewModel(c, includeAll, before, l, models, m);
        assert forall k | 0 <= k < |models| :: (models + [m])[k] == models[k];
        assert (models + [m])[|models|] == m;
        models := models + [m];
        seen := seen + {l.name};
      } else {
        OldModel(c, includeAll, before, l, models);
      }
      i := i + 1;
    }
    assert listing.value[..i] == listing.value;
    OfferedNames(c, includeAll, listing.value, models);
    b := b.(models := models, ready := |models| > 0);
  }

  lemma OfferedNames(c: BackendConfig, includeAll: bool, listing: seq<Listed>, ms: seq<Model>)
    requires Discovered(c, includeAll, listing, ms)
    ensures forall name: string ::
      Names(ms, name) <==>
        exists i ::
          && 0 <= i < |listing| && listing[i].name == name && (includeAll || name in c.models)
          && (c.kind == "ollama" ==>
                listing[i].digest != "" && listing[i].remoteModel == "" && listing[i].remoteHost == "")
  {
    forall name: string | Names(ms, name)
      ensures exists i :: 0 <= i < |listing| && Offered(c, includeAll, listing[i]) && listing[i].name == name
    {
      var k :| 0 <= k < |ms| && ms[k].name == name;
      assert ComesFrom(c, includeAll, listing, ms[k]);
    }
  }

  lemma NewModel(c: BackendConfig, includeAll: bool, before: seq<Listed>, l: Listed, ms: seq<Model>, m: Model)
    requires Discovered(c, includeAll, before, ms) && Offered(c, includeAll, l) && !Names(ms, l.name)
    requires m == Model(c.id + "/" + l.name, l.name, if c.kind == "ollama" then l.digest else "")
    ensures Discovered(c, includeAll, before + [l], ms + [m])
  {
    hide Offered;
    var all := before + [l];
    assert all[|before|] == l;
    assert forall k | 0 <= k < |before| :: all[k] == before[k];
    assert ComesFrom(c, includeAll, all, m);
    forall i | 0 <= i < |ms| ensures ComesFrom(c, includeAll, all, ms[i]) {
      Later(c, includeAll, before, l, ms[i]);
    }
    assert (ms + [m])[|ms|] == m;
    assert forall n | Names(ms, n) :: Names(ms + [m], n) by {
      forall n | Names(ms, n) ensures Names(ms + [m], n) {
        var i :| 0 <= i < |ms| && ms[i].name == n;
        assert (ms + [m])[i].name == n;
      }
    }
    assert Names(ms + [m], l.name);
  }

  lemma OldModel(c: BackendConfig, includeAll: bool, before: seq<Listed>, l: Listed, ms: seq<Model>)
    requires Discovered(c, includeAll, before, ms) && (Offered(c, includeAll, l) ==> Names(ms, l.name))
    ensures Discovered(c, includeAll, before + [l], ms)
  {
    hide Offered;
    forall i | 0 <= i < |ms| ensures ComesFrom(c, includeAll, before + [l], ms[i]) {
      Later(c, includeAll, before, l, ms[i]);
    }
  }

  lemma Later(c: BackendConfig, includeAll: bool, before: seq<Listed>, l: Listed, m: Model)
    requires ComesFrom(c, includeAll, before, m)
    ensures ComesFrom(c, includeAll, before + [l], m)
  {
    hide Offered;
    var all := before + [l];
    assert forall k | 0 <= k < |before| :: all[k] == before[k];
    var i :|
      && 0 <= i < |before| && Offered(c, includeAll, before[i]) && before[i].name == m.name
      && (forall k | 0 <= k < i :: !(Offered(c, includeAll, before[k]) && before[k].name == m.name))
      && m == Model(c.id + "/" + m.name, m.name, if c.kind == "ollama" then before[i].digest else "");
    assert all[i] == before[i];
  }

  // ---- what an agent offers passes validation ----

  /** A catalog entry as discovery of accepted configuration makes it, whatever the runtime lists. */
  ghost predicate FromDiscovery(c: BackendConfig, b: Backend) {
    && b == Unavailable(c).(models := b.models, ready := b.ready)
    && (b.models == [] || exists listing :: Discovered(c, false, listing, b.models))
  }

  lemma {:induction false} NoMoreThanAllowed(ms: seq<Model>, names: seq<string>)
    requires Distinct(ms) && forall i | 0 <= i < |ms| :: ms[i].name in names
    ensures |ms| <= |names|
  {
    if ms != [] {
      var last := ms[|ms| - 1].name;
      var k :| 0 <= k < |names| && names[k] == last;
      var front := ms[..|ms| - 1];
      var others := names[..k] + names[k + 1..];
      forall i | 0 <= i < |front| ensures front[i].name in others {
        var n :| 0 <= n < |names| && names[n] == front[i].name;
        assert n != k;
        assert n < k ==> others[n] == names[n];
        assert n > k ==> others[n - 1] == names[n];
      }
      NoMoreThanAllowed(front, others);
    }
  }

  /** Public identifiers differ when names do. */
  lemma PrefixedNamesDiffer(prefix: string, a: string, b: string)
    ensures prefix + a == prefix + b <==> a == b
  {
    assert (prefix + a)[|prefix|..] == a;
    assert (prefix + b)[|prefix|..] == b;
  }

  lemma DiscoveredModelsConform(c: BackendConfig, b: Backend)
    requires BackendOk(c) && FromDiscovery(c, b)
    ensures ModelsConform(b) && |b.models| <= 1024
    ensures forall i | 0 <= i < |b.models| :: |b.models[i].id| <= 512
  {
    hide Identifier;
    if b.models != [] {
      var listing :| Discovered(c, false, listing, b.models);
      forall i | 0 <= i < |b.models|
        ensures
          && b.models[i].name in c.models && ModelName(b.models[i].name)
          && b.models[i].id == b.id + "/" + b.models[i].name
          && (b.source == "local" ==> b.models[i].digest != "")
          && |b.models[i].id| <= 512
      {
        assert ComesFrom(c, false, listing, b.models[i]);
        IdentifierIsShort(c.id);
      }
      NoMoreThanAllowed(b.models, c.models);
      forall i, j | 0 <= i < j < |b.models| ensures b.models[i].id != b.models[j].id {
        PrefixedNamesDiffer(b.id + "/", b.models[i].name, b.models[j].name);
      }
    }
  }

  lemma IdentifierIsShort(s: string)
    requires Identifier(s)
    ensures 1 <= |s| <= 64
  {}

  lemma HonestBackendConforms(c: BackendConfig, b: Backend, active: int)
    requires BackendOk(c) && FromDiscovery(c, b) && 0 <= active <= b.capacity
    ensures BackendConforms(b.(available := b.capacity - active))
    ensures |b.id| <= 64
  {
    hide ModelsConform, Identifier, AllowlistOk;
    DiscoveredModelsConform(c, b);
    AvailableIsFree(b, b.capacity - active);
    IdentifierIsShort(c.id);
  }

  lemma AvailableIsFree(b: Backend, available: int)
    requires ModelsConform(b)
    ensures ModelsConform(b.(available := available))
  {}
}
