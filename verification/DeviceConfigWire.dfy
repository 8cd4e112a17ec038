/**
 The tag-length-value form of a configuration (device_config_wire.h): the encoder and decoder as they run,
 and what they compute.
 */
module DeviceConfigWire {
  import opened Common
  import opened DeviceConfigs
  import opened Numerals

  const MAXIMUM_BYTES: nat := 8192
  const WIRE_VERSION: byte := 3
  const FIELD_COUNT: byte := 13
  const MAGIC: Text := [81, 72, 86, 67]
  const ONE: Text := [49]
  const ZERO: Text := [48]

  datatype WireError =
    | TooLarge
    | BadMagic
    | UnsupportedVersion
    | Truncated
    | UnknownField
    | DuplicateField
    | MissingField
    | InvalidNumber
    | InvalidConfig

  datatype Result<T> = Ok(value: T) | Error(error: WireError)

  // ---------- numbers ----------

  /** A numeral in range: what parseConfigUnsigned accepts. */
  function ParseUnsigned(s: Text, maximum: nat): Option<nat> {
    if s != [] && AllDigits(s) && Decimal(s) <= maximum then Some(Decimal(s)) else None
  }

  /**
   What the loop has after the digits `s`, in uint32_t arithmetic: for a maximum below 9 the difference of line 73
   wraps for a larger digit, and the number may too.
   */
  function Scanned(s: Text, maximum: nat): Option<nat> {
    if s == [] then Some(0)
    else
      match Scanned(s[..|s| - 1], maximum)
      case None => None
      case Some(parsed) =>
        var c := s[|s| - 1];
        if !IsDigit(c) || parsed > U32(maximum - (c - 48)) / 10 then None else Some(U32(parsed * 10 + (c - 48)))
  }

  lemma {:induction false} ScanStops(s: Text, n: nat, maximum: nat)
    requires n <= |s| && Scanned(s[..n], maximum) == None
    ensures Scanned(s, maximum) == None
    decreases |s|
  {
    if n == |s| {
      assert s[..n] == s;
    } else {
      assert s[..|s| - 1][..n] == s[..n];
      ScanStops(s[..|s| - 1], n, maximum);
    }
  }

  /** From 9 up nothing wraps. */
  lemma {:induction false} ScanReads(s: Text, maximum: nat)
    requires 9 <= maximum < 0x1_0000_0000
    ensures Scanned(s, maximum) == if AllDigits(s) && Decimal(s) <= maximum then Some(Decimal(s)) else None
  {
    if s != [] {
      var head := s[..|s| - 1];
      ScanReads(head, maximum);
      assert AllDigits(s) <==> AllDigits(head) && IsDigit(s[|s| - 1]);
      if AllDigits(s) {
        DigitAdded(Decimal(head), s[|s| - 1] - 48, maximum);
      }
    }
  }

  lemma {:induction false} DigitAdded(parsed: nat, digit: nat, maximum: nat)
    requires digit <= 9 <= maximum < 0x1_0000_0000
    ensures U32(maximum - digit) == maximum - digit
    ensures parsed > (maximum - digit) / 10 <==> parsed * 10 + digit > maximum
    ensures parsed * 10 + digit <= maximum ==> U32(parsed * 10 + digit) == parsed * 10 + digit
  {
  }

  lemma {:induction false} ScanIsParse(s: Text, maximum: nat)
    requires 9 <= maximum < 0x1_0000_0000
    ensures ParseUnsigned(s, maximum) == if s == [] then None else Scanned(s, maximum)
  {
    ScanReads(s, maximum);
  }

  /** The loop accepts exactly the numerals in range, for every text, exactly when the maximum is at least 9. */
  lemma {:induction false} InRangeExactly(maximum: nat)
    requires maximum < 0x1_0000_0000
    ensures (forall s: Text :: s != [] ==> Scanned(s, maximum) == ParseUnsigned(s, maximum)) <==> maximum >= 9
  {
    if maximum >= 9 {
      forall s: Text | s != [] ensures Scanned(s, maximum) == ParseUnsigned(s, maximum) {
        ScanReads(s, maximum);
      }
    } else {
      var nine: Text := [57];
      assert nine[..0] == [];
      assert Decimal(nine) == 9;
      assert Scanned(nine, maximum) == Some(9);
      assert ParseUnsigned(nine, maximum) == None;
    }
  }

  method ParseConfigUnsigned(s: Text, maximum: nat) returns (r: Option<nat>)
    requires maximum < 0x1_0000_0000
    ensures r == if s == [] then None else Scanned(s, maximum)
    ensures maximum >= 9 ==> r == ParseUnsigned(s, maximum)
  {
    hide U32, ParseUnsigned;
    if maximum >= 9 {
      ScanIsParse(s, maximum);
    }
    if s == [] {
      return None;
    }
    var parsed, i := 0, 0;
    while i < |s|
      invariant i <= |s| && Scanned(s[..i], maximum) == Some(parsed)
    {
      assert s[..i + 1][..i] == s[..i];
      if !IsDigit(s[i]) {
        ScanStops(s, i + 1, maximum);
        return None;
      }
      var digit := s[i] - 48;
      if parsed > U32(maximum - digit) / 10 {
        ScanStops(s, i + 1, maximum);
        return None;
      }
      parsed := U32(parsed * 10 + digit);
      i := i + 1;
    }
    assert s[..|s|] == s;
    return Some(parsed);
  }

  // ---------- fields ----------

  datatype Field = Field(id: byte, value: Text)

  predicate KnownId(id: byte) {
    1 <= id <= FIELD_COUNT
  }

  function FlagText(flag: bool): Text {
    if flag then ONE else ZERO
  }

  /** The text of a field, as the encoder writes it. */
  function Get(c: DeviceConfig, id: byte): Text
    requires KnownId(id)
  {
    match id
    case 1 => c.network.ssid
    case 2 => c.network.password
    case 3 => c.voice.adapter
    case 4 => c.voice.apiKey
    case 5 => c.voice.voice
    case 6 => c.assistant.language
    case 7 => c.assistant.systemPrompt
    case 8 => FlagText(c.assistant.showReplyText)
    case 9 => FlagText(c.sync.enabled)
    case 10 => c.sync.endpoint
    case 11 => c.sync.deviceId
    case 12 => c.sync.credential
    case _ => Decimals(c.volume)
  }

  /** Store a field's text; none when a flag or number is malformed. */
  function Set(c: DeviceConfig, id: byte, v: Text): Option<DeviceConfig>
    requires KnownId(id)
  {
    match id
    case 1 => Some(c.(network := c.network.(ssid := v)))
    case 2 => Some(c.(network := c.network.(password := v)))
    case 3 => Some(c.(voice := c.voice.(adapter := v)))
    case 4 => Some(c.(voice := c.voice.(apiKey := v)))
    case 5 => Some(c.(voice := c.voice.(voice := v)))
    case 6 => Some(c.(assistant := c.assistant.(language := v)))
    case 7 => Some(c.(assistant := c.assistant.(systemPrompt := v)))
    case 8 =>
      if v == ONE || v == ZERO then Some(c.(assistant := c.assistant.(showReplyText := v == ONE))) else None
    case 9 =>
      if v == ONE || v == ZERO then Some(c.(sync := c.sync.(enabled := v == ONE))) else None
    case 10 => Some(c.(sync := c.sync.(endpoint := v)))
    case 11 => Some(c.(sync := c.sync.(deviceId := v)))
    case 12 => Some(c.(sync := c.sync.(credential := v)))
    case _ =>
      match ParseUnsigned(v, 255)
      case Some(n) => Some(c.(volume := n))
      case None => None
  }

  function FieldBytes(f: Field): (r: Text)
    ensures |r| == 3 + |f.value|
  {
    [f.id, |f.value| / 256 % 256, |f.value| % 256] + f.value
  }

  function FieldsBytes(fs: seq<Field>): Text {
    if fs == [] then [] else FieldBytes(fs[0]) + FieldsBytes(fs[1..])
  }

  function Payload(fs: seq<Field>): Text
    requires |fs| < 256
  {
    MAGIC + [WIRE_VERSION, |fs|] + FieldsBytes(fs)
  }

  /** The fields of a configuration from `id` on, in the encoder's order. */
  function FieldsFrom(c: DeviceConfig, id: byte): (r: seq<Field>)
    requires 1 <= id <= FIELD_COUNT + 1
    ensures |r| == FIELD_COUNT + 1 - id
    ensures forall i :: 0 <= i < |r| ==> r[i].id == id + i && r[i].value == Get(c, id + i)
    decreases FIELD_COUNT + 1 - id
  {
    if id == FIELD_COUNT + 1 then [] else [Field(id, Get(c, id))] + FieldsFrom(c, id + 1)
  }

  function Encode(c: DeviceConfig): Text {
    Payload(FieldsFrom(c, 1))
  }

  // ---------- decoding ----------

  const BLANK: DeviceConfig :=
    DeviceConfig(SCHEMA_VERSION, Network([], []), RealtimeVoice([], [], []), Assistant([], [], false),
                 QhSync(false, [], [], []), 0)

  datatype Progress = Progress(config: DeviceConfig, seen: set<byte>, cursor: nat)

  /** Read the field at the cursor. */
  function ReadField(input: Text, p: Progress): (r: Result<Progress>)
    requires p.cursor <= |input|
    ensures r.Ok? ==> p.cursor < r.value.cursor <= |input|
  {
    if |input| - p.cursor < 3 then Error(Truncated)
    else
      var id := input[p.cursor];
      var length := 256 * (input[p.cursor + 1] as nat) + input[p.cursor + 2];
      var start := p.cursor + 3;
      if !KnownId(id) then Error(UnknownField)
      else if id in p.seen then Error(DuplicateField)
      else if length > |input| - start then Error(Truncated)
      else
        match Set(p.config, id, input[start..start + length])
        case None => Error(InvalidNumber)
        case Some(c) => Ok(Progress(c, p.seen + {id}, start + length))
  }

  function ReadFields(input: Text, p: Progress, n: nat): (r: Result<Progress>)
    requires p.cursor <= |input|
    ensures r.Ok? ==> p.cursor <= r.value.cursor <= |input|
    decreases n
  {
    if n == 0 then Ok(p)
    else
      match ReadField(input, p)
      case Error(e) => Error(e)
      case Ok(q) => ReadFields(input, q, n - 1)
  }

  predicate AllSeen(seen: set<byte>) {
    forall id: byte :: KnownId(id) ==> id in seen
  }

  function Decode(input: Text): Result<DeviceConfig> {
    if |input| > MAXIMUM_BYTES then Error(TooLarge)
    else if |input| < 6 then Error(Truncated)
    else if input[..4] != MAGIC then Error(BadMagic)
    else if input[4] != WIRE_VERSION then Error(UnsupportedVersion)
    else
      match ReadFields(input, Progress(BLANK, {}, 6), input[5])
      case Error(e) => Error(e)
      case Ok(p) =>
        if p.cursor != |input| then Error(Truncated)
        else if !AllSeen(p.seen) then Error(MissingField)
        else if !Valid(p.config) then Error(InvalidConfig)
        else Ok(p.config)
  }

  // ---------- the code ----------

  method AppendConfigField(output: Text, id: byte, value: Text) returns (r: Text)
    ensures r == output + FieldBytes(Field(id, value))
  {
    r := output + [id];
    r := r + [|value| / 256 % 256];
    r := r + [|value| % 256];
    r := r + value;
  }

  method EncodeDeviceConfigWire(c: DeviceConfig) returns (output: Text)
    ensures output == Encode(c)
  {
    hide FieldBytes, Leads, Decimals;
    output := MAGIC + [WIRE_VERSION, FIELD_COUNT];
    FirstField(c);
    FieldNext(output, c, 1);
    output := AppendConfigField(output, 1, c.network.ssid);
    FieldNext(output, c, 2);
    output := AppendConfigField(output, 2, c.network.password);
    FieldNext(output, c, 3);
    output := AppendConfigField(output, 3, c.voice.adapter);
    FieldNext(output, c, 4);
    output := AppendConfigField(output, 4, c.voice.apiKey);
    FieldNext(output, c, 5);
    output := AppendConfigField(output, 5, c.voice.voice);
    FieldNext(output, c, 6);
    output := AppendConfigField(output, 6, c.assistant.language);
    FieldNext(output, c, 7);
    output := AppendConfigField(output, 7, c.assistant.systemPrompt);
    FieldNext(output, c, 8);
    output := AppendConfigField(output, 8, FlagText(c.assistant.showReplyText));
    FieldNext(output, c, 9);
    output := AppendConfigField(output, 9, FlagText(c.sync.enabled));
    FieldNext(output, c, 10);
    output := AppendConfigField(output, 10, c.sync.endpoint);
    FieldNext(output, c, 11);
    output := AppendConfigField(output, 11, c.sync.deviceId);
    FieldNext(output, c, 12);
    output := AppendConfigField(output, 12, c.sync.credential);
    FieldNext(output, c, 13);
    output := AppendConfigField(output, 13, Decimals(c.volume));
    NoFieldsLeft(output, c);
  }

  /** What has been written leads to the whole encoding with the fields from `id` on. */
  ghost predicate Leads(output: Text, c: DeviceConfig, id: byte)
    requires 1 <= id <= FIELD_COUNT + 1
  {
    output + FieldsBytes(FieldsFrom(c, id)) == Encode(c)
  }

  lemma {:induction false} FirstField(c: DeviceConfig)
    ensures Leads(MAGIC + [WIRE_VERSION, FIELD_COUNT], c, 1)
  {
  }

  lemma {:induction false} FieldNext(output: Text, c: DeviceConfig, id: byte)
    requires KnownId(id) && Leads(output, c, id)
    ensures Leads(output + FieldBytes(Field(id, Get(c, id))), c, id + 1)
  {
    assert FieldsFrom(c, id)[1..] == FieldsFrom(c, id + 1);
    assert output + FieldBytes(Field(id, Get(c, id))) + FieldsBytes(FieldsFrom(c, id + 1))
        == output + FieldsBytes(FieldsFrom(c, id));
  }

  lemma {:induction false} NoFieldsLeft(output: Text, c: DeviceConfig)
    requires Leads(output, c, FIELD_COUNT + 1)
    ensures output == Encode(c)
  {
    assert output + [] == output;
  }

  method ParseConfigBoolean(value: Text) returns (r: Option<bool>)
    ensures r == if value == ONE then Some(true) else if value == ZERO then Some(false) else None
  {
    if value == ONE {
      return Some(true);
    }
    if value == ZERO {
      return Some(false);
    }
    return None;
  }

  /** The assignment of one field, as the switch of the decoder makes it. */
  method AssignField(config: DeviceConfig, id: byte, value: Text) returns (r: Option<DeviceConfig>)
    requires KnownId(id)
    ensures r == Set(config, id, value)
  {
    match id {
      case 8 =>
        var flag := ParseConfigBoolean(value);
        if flag == None {
          return None;
        }
        return Some(config.(assistant := config.assistant.(showReplyText := flag.value)));
      case 9 =>
        var flag := ParseConfigBoolean(value);
        if flag == None {
          return None;
        }
        return Some(config.(sync := config.sync.(enabled := flag.value)));
      case 13 =>
        var parsed := ParseConfigUnsigned(value, 255);
        if parsed == None {
          return None;
        }
        return Some(config.(volume := parsed.value));
      case 1 => return Some(config.(network := config.network.(ssid := value)));
      case 2 => return Some(config.(network := config.network.(password := value)));
      case 3 => return Some(config.(voice := config.voice.(adapter := value)));
      case 4 => return Some(config.(voice := config.voice.(apiKey := value)));
      case 5 => return Some(config.(voice := config.voice.(voice := value)));
      case 6 => return Some(config.(assistant := config.assistant.(language := value)));
      case 7 => return Some(config.(assistant := config.assistant.(systemPrompt := value)));
      case 10 => return Some(config.(sync := config.sync.(endpoint := value)));
      case 11 => return Some(config.(sync := config.sync.(deviceId := value)));
      case 12 => return Some(config.(sync := config.sync.(credential := value)));
    }
  }

  function SeenIn(seen: array<bool>): set<byte>
    requires seen.Length == FIELD_COUNT as int + 1
    reads seen
  {
    set id: byte | 0 <= id <= FIELD_COUNT && seen[id]
  }

  /** The body of the decoder's loop; `seen` marks the fields read so far. */
  method DecodeField(input: Text, config: DeviceConfig, seen: array<bool>, cursor: nat) returns (r: Result<Progress>)
    requires cursor <= |input| && seen.Length == FIELD_COUNT as int + 1
    modifies seen
    ensures r == ReadField(input, Progress(config, old(SeenIn(seen)), cursor))
    ensures r.Ok? ==> r.value.seen == SeenIn(seen)
  {
    hide Set;
    if |input| - cursor < 3 {
      return Error(Truncated);
    }
    var id := input[cursor];
    var length := 256 * (input[cursor + 1] as nat) + input[cursor + 2];
    var start := cursor + 3;
    if !KnownId(id) {
      return Error(UnknownField);
    }
    var before := SeenIn(seen);
    assert seen[id] == (id in before);
    if seen[id] {
      return Error(DuplicateField);
    }
    if length > |input| - start {
      return Error(Truncated);
    }
    seen[id] := true;
    assert SeenIn(seen) == before + {id};
    var updated := AssignField(config, id, input[start..start + length]);
    if updated == None {
      return Error(InvalidNumber);
    }
    assert SeenIn(seen) == before + {id};
    r := Ok(Progress(updated.value, SeenIn(seen), start + length));
    assert Set(config, id, input[start..start + length]) == updated;
  }

  method DecodeDeviceConfigWire(input: Text) returns (r: Result<DeviceConfig>)
    ensures r == Decode(input)
  {
    hide Valid, ReadField;
    if |input| > MAXIMUM_BYTES {
      return Error(TooLarge);
    }
    if |input| < 6 {
      return Error(Truncated);
    }
    if input[..4] != MAGIC {
      return Error(BadMagic);
    }
    if input[4] != WIRE_VERSION {
      return Error(UnsupportedVersion);
    }
    var config, cursor, index := BLANK, 6, 0;
    var seen := new bool[FIELD_COUNT as int + 1](_ => false);
    assert SeenIn(seen) == {};
    while index < input[5]
      invariant 0 <= index <= input[5] && 6 <= cursor <= |input|
      invariant ReadFields(input, Progress(BLANK, {}, 6), input[5])
             == ReadFields(input, Progress(config, SeenIn(seen), cursor), input[5] - index)
    {
      var next := DecodeField(input, config, seen, cursor);
      if next.Error? {
        return Error(next.error);
      }
      config, cursor := next.value.config, next.value.cursor;
      index := index + 1;
    }
    if cursor != |input| {
      return Error(Truncated);
    }
    var id: nat := 1;
    while id <= FIELD_COUNT as int
      invariant 1 <= id <= FIELD_COUNT as int + 1
      invariant forall k: byte :: 1 <= k < id ==> k in SeenIn(seen)
    {
      if !seen[id] {
        assert id !in SeenIn(seen);
        return Error(MissingField);
      }
      id := id + 1;
    }
    if !Valid(config) {
      return Error(InvalidConfig);
    }
    return Ok(config);
  }
}
