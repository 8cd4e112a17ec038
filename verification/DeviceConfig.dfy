/** The device configuration of device_config.h and secure_endpoint.h, and when it is valid. */
module DeviceConfigs {
  import opened Common
  import opened Numerals

  type Text = seq<byte>

  datatype Network = Network(ssid: Text, password: Text)
  datatype RealtimeVoice = RealtimeVoice(adapter: Text, apiKey: Text, voice: Text)
  datatype Assistant = Assistant(language: Text, systemPrompt: Text, showReplyText: bool)
  datatype QhSync = QhSync(enabled: bool, endpoint: Text, deviceId: Text, credential: Text)

  datatype DeviceConfig = DeviceConfig(
    schemaVersion: nat, network: Network, voice: RealtimeVoice, assistant: Assistant, sync: QhSync, volume: byte)

  const SCHEMA_VERSION: nat := 3

  function FirstOf(s: Text, from: nat, stops: set<byte>): (r: nat)
    requires from <= |s|
    ensures from <= r <= |s|
    decreases |s| - from
  {
    if from == |s| || s[from] in stops then from else FirstOf(s, from + 1, stops)
  }

  function LastOf(s: Text, b: byte): (r: Option<nat>)
    ensures r.Some? ==> r.value < |s|
  {
    if s == [] then None
    else if s[|s| - 1] == b then Some(|s| - 1)
    else LastOf(s[..|s| - 1], b)
  }

  const COLON: byte := 58
  const SLASH: byte := 47
  const QUESTION: byte := 63

  predicate ValidAuthority(a: Text) {
    && a != [] && 64 !in a && a[0] != 91
    && match LastOf(a, COLON)
       case None => true
       case Some(colon) =>
         var port := a[colon + 1..];
         colon > 0 && port != [] && AllDigits(port) && 0 < Decimal(port) <= 65535
  }

  /** parseSecureEndpoint with the https scheme has a value. */
  predicate IsHttpsEndpoint(e: Text) {
    && |e| > 8 && e[..8] == Ascii("https://")
    && (forall i :: 0 <= i < |e| ==> e[i] !in {13, 10, 9, 32, 35})
    && ValidAuthority(e[8..FirstOf(e, 8, {SLASH, QUESTION})])
  }

  /** validateDeviceConfig reports no error. */
  predicate Valid(c: DeviceConfig) {
    && c.schemaVersion == SCHEMA_VERSION
    && c.network.ssid != [] && c.network.password != []
    && c.voice.apiKey != [] && c.voice.adapter == Ascii("doubao-seeduplex-v1") && c.voice.voice != []
    && (c.sync.enabled ==>
          IsHttpsEndpoint(c.sync.endpoint) && c.sync.deviceId != [] && c.sync.credential != [])
    && c.volume <= 100
  }
}
