/** The configuration's wire form octet by octet, and which payload is refused for what. */
module DeviceConfigLayout {
  import opened Common
  import opened DeviceConfigs
  import opened DeviceConfigWire
  import opened DeviceConfigTheorems
  import opened Numerals

  // ---------- what is written ----------

  /** One field: its number, two octets of length, most significant first, and its text. */
  function Wire(id: byte, text: Text): Text {
    [id, |text| / 256 % 256, |text| % 256] + text
  }

  function Flag(b: bool): Text {
    Ascii(if b then "1" else "0")
  }

  /** A number of up to three digits without leading zeros. */
  function Short(n: byte): Text {
    if n < 10 then [48 + n] else if n < 100 then [48 + n / 10, 48 + n % 10]
    else [48 + n / 100, 48 + n / 10 % 10, 48 + n % 10]
  }

  function ConnectionFields(c: DeviceConfig): Text {
    Wire(1, c.network.ssid) + Wire(2, c.network.password)
    + Wire(3, c.voice.adapter) + Wire(4, c.voice.apiKey) + Wire(5, c.voice.voice)
  }

  function AssistantFields(c: DeviceConfig): Text {
    Wire(6, c.assistant.language) + Wire(7, c.assistant.systemPrompt) + Wire(8, Flag(c.assistant.showReplyText))
  }

  function SyncFields(c: DeviceConfig): Text {
    Wire(9, Flag(c.sync.enabled)) + Wire(10, c.sync.endpoint) + Wire(11, c.sync.deviceId)
    + Wire(12, c.sync.credential) + Wire(13, Short(c.volume))
  }

  lemma {:induction false} ShortDecimals(n: byte)
    ensures Decimals(n) == Short(n)
  {
  }

  /** What is left to write, one field on. */
  lemma {:induction false} FieldFirst(c: DeviceConfig, id: byte)
    requires KnownId(id)
    ensures FieldsBytes(FieldsFrom(c, id)) == Wire(id, Get(c, id)) + FieldsBytes(FieldsFrom(c, id + 1))
  {
    assert FieldsFrom(c, id)[1..] == FieldsFrom(c, id + 1);
  }

  lemma {:induction false} FiveFirst(v: Text, w: Text, x: Text, y: Text, z: Text, rest: Text)
    ensures v + (w + (x + (y + (z + rest)))) == v + w + x + y + z + rest
    ensures x + (y + (z + rest)) == x + y + z + rest
  {
  }

  lemma {:induction false} ConnectionFirst(c: DeviceConfig)
    ensures FieldsBytes(FieldsFrom(c, 1)) == ConnectionFields(c) + FieldsBytes(FieldsFrom(c, 6))
  {
    hide FieldsBytes, Wire;
    FieldFirst(c, 1);
    FieldFirst(c, 2);
    FieldFirst(c, 3);
    FieldFirst(c, 4);
    FieldFirst(c, 5);
    FiveFirst(Wire(1, c.network.ssid), Wire(2, c.network.password), Wire(3, c.voice.adapter), Wire(4, c.voice.apiKey),
              Wire(5, c.voice.voice), FieldsBytes(FieldsFrom(c, 6)));
  }

  lemma {:induction false} AssistantFirst(c: DeviceConfig)
    ensures FieldsBytes(FieldsFrom(c, 6)) == AssistantFields(c) + FieldsBytes(FieldsFrom(c, 9))
  {
    hide FieldsBytes, Wire;
    FieldFirst(c, 6);
    FieldFirst(c, 7);
    FieldFirst(c, 8);
    FlagsWritten(c);
    FiveFirst([], [], Wire(6, c.assistant.language), Wire(7, c.assistant.systemPrompt),
              Wire(8, Flag(c.assistant.showReplyText)), FieldsBytes(FieldsFrom(c, 9)));
  }

  lemma {:induction false} FlagsWritten(c: DeviceConfig)
    ensures Get(c, 8) == Flag(c.assistant.showReplyText) && Get(c, 9) == Flag(c.sync.enabled)
    ensures Get(c, 13) == Short(c.volume)
  {
    ShortDecimals(c.volume);
  }

  lemma {:induction false} SyncFirst(c: DeviceConfig)
    ensures FieldsBytes(FieldsFrom(c, 9)) == SyncFields(c)
  {
    hide FieldsBytes, Wire;
    FieldFirst(c, 9);
    FieldFirst(c, 10);
    FieldFirst(c, 11);
    FieldFirst(c, 12);
    FieldFirst(c, 13);
    FlagsWritten(c);
    NoneLeft(c);
    FiveFirst(Wire(9, Flag(c.sync.enabled)), Wire(10, c.sync.endpoint), Wire(11, c.sync.deviceId),
              Wire(12, c.sync.credential), Wire(13, Short(c.volume)), []);
  }

  lemma {:induction false} NoneLeft(c: DeviceConfig)
    ensures FieldsBytes(FieldsFrom(c, 14)) == []
  {
  }

  /** The encoding is "QHVC", version 3, the count 13 and the thirteen fields with their numbers. */
  lemma {:induction false} EncodedLayout(c: DeviceConfig)
    ensures Encode(c) == Ascii("QHVC") + [3, 13] + ConnectionFields(c) + AssistantFields(c) + SyncFields(c)
  {
    hide FieldsBytes, ConnectionFields, AssistantFields, SyncFields;
    ConnectionFirst(c);
    AssistantFirst(c);
    SyncFirst(c);
    assert Ascii("QHVC") == [81, 72, 86, 67];
    var head := [81, 72, 86, 67, 3, 13];
    assert Encode(c) == head + FieldsBytes(FieldsFrom(c, 1));
    assert ConnectionFields(c) + (AssistantFields(c) + SyncFields(c))
        == ConnectionFields(c) + AssistantFields(c) + SyncFields(c);
  }

  // ---------- what is refused ----------

  /** Before any field is read. */
  lemma {:induction false} HeaderFaults(input: Text)
    ensures |input| > 8192 ==> Decode(input) == Error(TooLarge)
    ensures |input| < 6 ==> Decode(input) == Error(Truncated)
    ensures 6 <= |input| <= 8192 ==>
      && (input[..4] != Ascii("QHVC") ==> Decode(input) == Error(BadMagic))
      && (input[..4] == Ascii("QHVC") && input[4] != 3 ==> Decode(input) == Error(UnsupportedVersion))
  {
    assert Ascii("QHVC") == [81, 72, 86, 67];
  }

  /** Why the field at the front of `t` is refused after fields with the numbers `seen`. */
  function Fault(t: Text, seen: set<byte>): Option<WireError> {
    if |t| < 3 then Some(Truncated)
    else if t[0] == 0 || t[0] > 13 then Some(UnknownField)
    else if t[0] in seen then Some(DuplicateField)
    else
      var n := (t[1] as nat) * 256 + t[2];
      if n > |t| - 3 then Some(Truncated)
      else
        var text := t[3..3 + n];
        if t[0] == 8 || t[0] == 9 then (if text == Ascii("1") || text == Ascii("0") then None else Some(InvalidNumber))
        else if t[0] == 13 then
          (if text != [] && AllDigits(text) && Decimal(text) <= 255 then None else Some(InvalidNumber))
        else None
  }

  lemma {:induction false} ReadFault(input: Text, p: Progress)
    requires p.cursor <= |input|
    ensures ReadField(input, p) == match Fault(input[p.cursor..], p.seen)
                                   case Some(e) => Error(e)
                                   case None => ReadField(input, p)
    ensures ReadField(input, p).Ok? <==> Fault(input[p.cursor..], p.seen).None?
  {
    var t := input[p.cursor..];
    assert Ascii("1") == ONE && Ascii("0") == ZERO;
    if |t| >= 3 && KnownId(t[0]) {
      assert t[0] == input[p.cursor] && t[1] == input[p.cursor + 1] && t[2] == input[p.cursor + 2];
      var n := (t[1] as nat) * 256 + t[2];
      if n <= |t| - 3 {
        assert t[3..3 + n] == input[p.cursor + 3..p.cursor + 3 + n];
      }
    }
  }

  lemma {:induction false} ReadOn(input: Text, p: Progress, m: nat, n: nat)
    requires p.cursor <= |input| && ReadFields(input, p, m).Ok?
    ensures ReadFields(input, p, m + n) == ReadFields(input, ReadFields(input, p, m).value, n)
    decreases m
  {
    hide ReadField;
    if m > 0 {
      ReadOn(input, ReadField(input, p).value, m - 1, n);
    }
  }

  /**
   The first fault decides: behind any good fields, the field that stands next refuses the payload for what is wrong
   with it, whatever follows.
   */
  lemma {:induction false} FirstFaultDecides(fs: seq<Field>, rest: Text, count: byte)
    requires Distinct(fs) && Assign(BLANK, fs).Some? && |fs| < count && Fault(rest, Ids(fs)).Some?
    ensures var input := Ascii("QHVC") + [3, count] + FieldsBytes(fs) + rest;
      |input| <= 8192 ==> Decode(input) == Error(Fault(rest, Ids(fs)).value)
  {
    hide Set, Valid, ReadFields, ReadField, FieldsBytes, AllSeen, Distinct, Ids, Assign, Fault;
    var input := Ascii("QHVC") + [3, count] + FieldsBytes(fs) + rest;
    var p := Progress(BLANK, {}, 6);
    assert Ascii("QHVC") == [81, 72, 86, 67];
    assert input[6..] == FieldsBytes(fs) + rest;
    FieldsRead(input, p, fs, rest);
    var q := ReadFields(input, p, |fs|).value;
    assert {} + Ids(fs) == Ids(fs);
    assert input[q.cursor..] == rest;
    ReadFault(input, q);
    ReadOn(input, p, |fs|, count - |fs|);
    ReadFails(input, q, count - |fs|);
    assert input[..4] == [81, 72, 86, 67] && input[4] == 3 && input[5] == count;
  }

  lemma {:induction false} ReadFails(input: Text, p: Progress, n: nat)
    requires p.cursor <= |input| && n > 0 && ReadField(input, p).Error?
    ensures ReadFields(input, p, n) == Error(ReadField(input, p).error)
  {
  }

  /** Good fields up to the count: more input, a missing field or an invalid configuration refuse them, in order. */
  lemma {:induction false} FaultsAtTheEnd(fs: seq<Field>, rest: Text)
    requires Distinct(fs) && Assign(BLANK, fs).Some? && |fs| < 256
    ensures var input, c := Ascii("QHVC") + [3, |fs|] + FieldsBytes(fs) + rest, Assign(BLANK, fs).value;
      |input| <= 8192 ==>
        Decode(input) == if rest != [] then Error(Truncated)
                         else if |fs| < 13 then Error(MissingField)
                         else if !Valid(c) then Error(InvalidConfig)
                         else Ok(c)
  {
    hide Set, Valid, ReadFields, FieldsBytes, AllSeen, Distinct, Ids, Assign;
    var input := Ascii("QHVC") + [3, |fs|] + FieldsBytes(fs) + rest;
    assert Ascii("QHVC") == [81, 72, 86, 67];
    assert input[6..] == FieldsBytes(fs) + rest;
    FieldsRead(input, Progress(BLANK, {}, 6), fs, rest);
    AllIds(fs);
    AtMostThirteen(fs);
    assert {} + Ids(fs) == Ids(fs);
    assert input[..4] == [81, 72, 86, 67] && input[4] == 3 && input[5] == |fs|;
  }

  lemma {:induction false} AtMostThirteen(fs: seq<Field>)
    requires Distinct(fs)
    ensures |fs| <= 13
  {
    IdsCount(fs);
    IdsToCount(13);
    Subset(Ids(fs), IdsTo(13));
  }
}
