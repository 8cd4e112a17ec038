/** Validation of a configuration (device_config.h, secure_endpoint.h) as it runs, and what it accepts. */
module DeviceConfigChecks {
  import opened Common
  import opened Numerals
  import opened DeviceConfigs

  datatype ConfigError =
    | UnsupportedSchema
    | MissingWifiSsid
    | MissingWifiPassword
    | MissingRealtimeVoiceCredential
    | UnsupportedRealtimeVoiceAdapter
    | InvalidRealtimeVoiceConfig
    | InvalidQhSync
    | InvalidVolume

  // ---------- endpoints ----------

  /** The part of an authority behind its host. */
  predicate PortText(t: Text) {
    t == [] || (t[0] == 58 && |t| > 1 && AllDigits(t[1..]) && 0 < Decimal(t[1..]) <= 65535)
  }

  /** No octet of `s` is one of `stops`. */
  predicate Without(s: Text, stops: set<byte>) {
    forall i :: 0 <= i < |s| ==> s[i] !in stops
  }

  /** A host and perhaps a port; a host without a port holds no colon. */
  predicate Names(authority: Text, host: Text, port: Text) {
    && authority == host + port && host != [] && host[0] != 91 && Without(host, {64})
    && PortText(port) && (port == [] ==> Without(host, {58}))
  }

  /** "https://", a host, perhaps a port between 1 and 65535, and perhaps a path or query. */
  predicate Spelled(e: Text, host: Text, port: Text, path: Text) {
    && e == Ascii("https://") + (host + port) + path && Without(e, {9, 10, 13, 32, 35})
    && Without(host, {47, 63}) && Names(host + port, host, port)
    && (path == [] || path[0] == 47 || path[0] == 63)
  }

  lemma {:induction false} FirstIs(s: Text, from: nat, stops: set<byte>, at: nat)
    requires from <= at <= |s| && (at < |s| ==> s[at] in stops) && forall i :: from <= i < at ==> s[i] !in stops
    ensures FirstOf(s, from, stops) == at
    decreases |s| - from
  {
    if from < at {
      FirstIs(s, from + 1, stops, at);
    }
  }

  lemma {:induction false} FirstMeans(s: Text, from: nat, stops: set<byte>)
    requires from <= |s|
    ensures var at := FirstOf(s, from, stops);
      (at < |s| ==> s[at] in stops) && forall i :: from <= i < at ==> s[i] !in stops
    decreases |s| - from
  {
    if from < |s| && s[from] !in stops {
      FirstMeans(s, from + 1, stops);
    }
  }

  lemma {:induction false} LastMeans(s: Text, b: byte)
    ensures match LastOf(s, b)
            case None => Without(s, {b})
            case Some(at) => s[at] == b && forall i :: at < i < |s| ==> s[i] != b
    decreases |s|
  {
    if s != [] && s[|s| - 1] != b {
      LastMeans(s[..|s| - 1], b);
    }
  }

  lemma {:induction false} LastIs(host: Text, port: Text)
    requires PortText(port) && (port == [] ==> Without(host, {58}))
    ensures LastOf(host + port, 58) == if port == [] then None else Some(|host|)
  {
    var s := host + port;
    LastMeans(s, 58);
    if port == [] {
      assert s == host;
    } else {
      assert s[|host|] == 58;
      forall i | |host| < i < |s| ensures s[i] != 58 {
        assert s[i] == port[1..][i - |host| - 1];
      }
    }
  }

  lemma {:induction false} AuthorityNames(authority: Text) returns (host: Text, port: Text)
    requires ValidAuthority(authority)
    ensures Names(authority, host, port)
  {
    LastMeans(authority, COLON);
    match LastOf(authority, COLON)
    case None => host, port := authority, [];
    case Some(colon) =>
      host, port := authority[..colon], authority[colon..];
      assert port[1..] == authority[colon + 1..];
  }

  lemma {:induction false} NamesAreValid(host: Text, port: Text)
    requires Names(host + port, host, port)
    ensures ValidAuthority(host + port)
  {
    var s := host + port;
    LastIs(host, port);
    forall i | 0 <= i < |s| ensures s[i] != 64 {
      if i > |host| {
        assert s[i] == port[1..][i - |host| - 1];
      }
    }
    assert port != [] ==> s[|host| + 1..] == port[1..];
  }

  lemma {:induction false} Split(e: Text) returns (host: Text, port: Text, path: Text)
    requires IsHttpsEndpoint(e)
    ensures Spelled(e, host, port, path)
  {
    hide ValidAuthority, Names, Ascii;
    var end := FirstOf(e, 8, {SLASH, QUESTION});
    FirstMeans(e, 8, {SLASH, QUESTION});
    var authority := e[8..end];
    path := e[end..];
    host, port := AuthorityNames(authority);
    NamesJoin(authority, host, port);
    assert e == e[..8] + authority + path;
    forall i | 0 <= i < |host| ensures host[i] !in {47, 63} {
      assert host[i] == authority[i] == e[8 + i];
    }
  }

  lemma {:induction false} NamesJoin(authority: Text, host: Text, port: Text)
    requires Names(authority, host, port)
    ensures authority == host + port
  {
  }

  lemma {:induction false} SpelledIsEndpoint(e: Text, host: Text, port: Text, path: Text)
    requires Spelled(e, host, port, path)
    ensures IsHttpsEndpoint(e)
  {
    hide ValidAuthority, Names;
    var scheme, s := Ascii("https://"), host + port;
    var end := 8 + |s|;
    assert e[..8] == scheme && e[8..end] == s;
    NoStop(host, port);
    forall i | 8 <= i < end ensures e[i] !in {SLASH, QUESTION} {
      assert e[i] == s[i - 8];
    }
    FirstIs(e, 8, {SLASH, QUESTION}, end);
    NamesAreValid(host, port);
  }

  lemma {:induction false} NoStop(host: Text, port: Text)
    requires Without(host, {47, 63}) && Names(host + port, host, port)
    ensures Without(host + port, {47, 63}) && host != []
  {
    var s := host + port;
    forall i | 0 <= i < |s| ensures s[i] !in {47, 63} {
      if i > |host| {
        assert s[i] == port[1..][i - |host| - 1];
      }
    }
  }

  /** What is accepted as an endpoint, written out. */
  lemma {:induction false} EndpointExactly(e: Text)
    ensures IsHttpsEndpoint(e) <==> exists host, port, path :: Spelled(e, host, port, path)
  {
    hide IsHttpsEndpoint, Spelled;
    if IsHttpsEndpoint(e) {
      var host, port, path := Split(e);
    }
    if exists host, port, path :: Spelled(e, host, port, path) {
      var host, port, path :| Spelled(e, host, port, path);
      SpelledIsEndpoint(e, host, port, path);
    }
  }

  // ---------- the code ----------

  /** The loop over the port's digits, which stops once the number is over 65535. */
  method ParsePort(t: Text) returns (port: Option<nat>)
    ensures port == if t != [] && AllDigits(t) && 0 < Decimal(t) <= 65535 then Some(Decimal(t)) else None
  {
    if t == [] {
      return None;
    }
    var parsed: nat, i: nat := 0, 0;
    while i < |t|
      invariant 0 <= i <= |t| && AllDigits(t[..i]) && parsed == Decimal(t[..i]) <= 65535
    {
      if !IsDigit(t[i]) {
        return None;
      }
      assert t[..i + 1][..i] == t[..i];
      parsed := parsed * 10 + (t[i] - 48);
      i := i + 1;
      if parsed > 65535 {
        if AllDigits(t) {
          DecimalOfPrefix(t, i);
        }
        return None;
      }
    }
    assert t[..|t|] == t;
    return if parsed == 0 then None else Some(parsed);
  }

  /** parseSecureEndpoint for the https scheme, as isHttpsEndpoint asks it. */
  method CheckHttpsEndpoint(e: Text) returns (ok: bool)
    ensures ok == IsHttpsEndpoint(e)
  {
    if |e| <= 8 || e[..8] != Ascii("https://") {
      return false;
    }
    if exists i :: 0 <= i < |e| && e[i] in {13, 10, 9, 32, 35} {
      return false;
    }
    ok := CheckAuthority(e[8..FirstOf(e, 8, {SLASH, QUESTION})]);
  }

  method CheckAuthority(authority: Text) returns (ok: bool)
    ensures ok == ValidAuthority(authority)
  {
    if authority == [] || 64 in authority || authority[0] == 91 {
      return false;
    }
    var colon := LastOf(authority, COLON);
    if colon == None {
      return true;
    }
    if colon.value == 0 {
      return false;
    }
    var port := ParsePort(authority[colon.value + 1..]);
    return port.Some?;
  }

  method Complain(errors: seq<ConfigError>, failing: bool, e: ConfigError) returns (r: seq<ConfigError>)
    ensures (forall x :: x in r <==> x in errors || (failing && x == e)) && (r == [] <==> errors == [] && !failing)
  {
    r := errors;
    if failing {
      r := r + [e];
    }
  }

  method ValidateConnection(c: DeviceConfig) returns (errors: seq<ConfigError>)
    ensures InvalidQhSync !in errors && InvalidVolume !in errors
    ensures UnsupportedSchema in errors <==> c.schemaVersion != 3
    ensures MissingWifiSsid in errors <==> c.network.ssid == []
    ensures MissingWifiPassword in errors <==> c.network.password == []
    ensures MissingRealtimeVoiceCredential in errors <==> c.voice.apiKey == []
    ensures UnsupportedRealtimeVoiceAdapter in errors <==> c.voice.adapter != Ascii("doubao-seeduplex-v1")
    ensures InvalidRealtimeVoiceConfig in errors <==> c.voice.voice == []
    ensures errors == [] <==>
      && c.schemaVersion == 3 && c.network.ssid != [] && c.network.password != [] && c.voice.apiKey != []
      && c.voice.adapter == Ascii("doubao-seeduplex-v1") && c.voice.voice != []
  {
    hide Ascii;
    errors := Complain([], c.schemaVersion != SCHEMA_VERSION, UnsupportedSchema);
    errors := Complain(errors, c.network.ssid == [], MissingWifiSsid);
    errors := Complain(errors, c.network.password == [], MissingWifiPassword);
    errors := Complain(errors, c.voice.apiKey == [], MissingRealtimeVoiceCredential);
    errors := Complain(errors, c.voice.adapter != Ascii("doubao-seeduplex-v1"), UnsupportedRealtimeVoiceAdapter);
    errors := Complain(errors, c.voice.voice == [], InvalidRealtimeVoiceConfig);
  }

  /** Every complaint about a configuration, each for its own reason, and none exactly for a valid one. */
  method ValidateDeviceConfig(c: DeviceConfig) returns (errors: seq<ConfigError>)
    ensures errors == [] <==> Valid(c)
    ensures UnsupportedSchema in errors <==> c.schemaVersion != 3
    ensures MissingWifiSsid in errors <==> c.network.ssid == []
    ensures MissingWifiPassword in errors <==> c.network.password == []
    ensures MissingRealtimeVoiceCredential in errors <==> c.voice.apiKey == []
    ensures UnsupportedRealtimeVoiceAdapter in errors <==> c.voice.adapter != Ascii("doubao-seeduplex-v1")
    ensures InvalidRealtimeVoiceConfig in errors <==> c.voice.voice == []
    ensures InvalidQhSync in errors <==>
      c.sync.enabled && (!IsHttpsEndpoint(c.sync.endpoint) || c.sync.deviceId == [] || c.sync.credential == [])
    ensures InvalidVolume in errors <==> c.volume > 100
  {
    hide IsHttpsEndpoint, Ascii;
    errors := ValidateConnection(c);
    var secure := CheckHttpsEndpoint(c.sync.endpoint);
    var failing := c.sync.enabled && (!secure || c.sync.deviceId == [] || c.sync.credential == []);
    errors := Complain(errors, failing, InvalidQhSync);
    errors := Complain(errors, c.volume > 100, InvalidVolume);
  }
}
