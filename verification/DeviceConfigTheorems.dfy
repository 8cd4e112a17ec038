/** What the configuration's wire form guarantees. */
module DeviceConfigTheorems {
  import opened Common
  import opened DeviceConfigs
  import opened DeviceConfigWire
  import opened Numerals

  // ---------- fields as values ----------

  /** The canonical text of a field value: a number is printed afresh. */
  function Canonical(id: byte, v: Text): Text {
    if id == 13 && AllDigits(v) then Decimals(Decimal(v)) else v
  }

  function Assign(c: DeviceConfig, fs: seq<Field>): Option<DeviceConfig>
    requires forall i :: 0 <= i < |fs| ==> KnownId(fs[i].id)
    decreases fs
  {
    if fs == [] then Some(c)
    else
      match Set(c, fs[0].id, fs[0].value)
      case None => None
      case Some(d) => Assign(d, fs[1..])
  }

  ghost predicate Distinct(fs: seq<Field>) {
    && (forall i :: 0 <= i < |fs| ==> KnownId(fs[i].id) && |fs[i].value| < 0x1_0000)
    && (forall i, j :: 0 <= i < j < |fs| ==> fs[i].id != fs[j].id)
  }

  function Ids(fs: seq<Field>): (r: set<byte>)
    ensures forall id :: id in r <==> exists i :: 0 <= i < |fs| && fs[i].id == id
  {
    if fs == [] then {} else {fs[0].id} + Ids(fs[1..])
  }

  /** Storing a field changes that field, to its canonical text, and no other. */
  lemma {:induction false} SetThenGet(c: DeviceConfig, id: byte, v: Text, other: byte)
    requires KnownId(id) && KnownId(other) && Set(c, id, v).Some?
    ensures var d := Set(c, id, v).value;
      && d.schemaVersion == c.schemaVersion
      && Get(d, other) == if other == id then Canonical(id, v) else Get(c, other)
  {
  }

  /** Storing a field's own text changes nothing about the other fields and puts that text there. */
  lemma {:induction false} SetOwnText(c: DeviceConfig, d: DeviceConfig, id: byte)
    requires KnownId(id)
    ensures Set(d, id, Get(c, id)).Some? && Get(Set(d, id, Get(c, id)).value, id) == Get(c, id)
  {
    if id == 13 {
      DecimalOfDecimals(c.volume);
    }
  }

  /** A configuration is its schema and its thirteen texts. */
  lemma {:induction false} SameTexts(c: DeviceConfig, d: DeviceConfig)
    requires c.schemaVersion == d.schemaVersion
    requires forall id: byte :: KnownId(id) ==> Get(c, id) == Get(d, id)
    ensures c == d
  {
    DecimalOfDecimals(c.volume);
    DecimalOfDecimals(d.volume);
    assert KnownId(1) && KnownId(2) && KnownId(3) && KnownId(4) && KnownId(5) && KnownId(6) && KnownId(7);
    assert KnownId(8) && KnownId(9) && KnownId(10) && KnownId(11) && KnownId(12) && KnownId(13);
    assert Get(c, 1) == Get(d, 1) && Get(c, 2) == Get(d, 2) && Get(c, 3) == Get(d, 3) && Get(c, 4) == Get(d, 4);
    assert Get(c, 5) == Get(d, 5) && Get(c, 6) == Get(d, 6) && Get(c, 7) == Get(d, 7);
    assert FlagText(c.assistant.showReplyText) == Get(c, 8) == Get(d, 8) == FlagText(d.assistant.showReplyText);
    assert FlagText(c.sync.enabled) == Get(c, 9) == Get(d, 9) == FlagText(d.sync.enabled);
    assert Get(c, 10) == Get(d, 10) && Get(c, 11) == Get(d, 11) && Get(c, 12) == Get(d, 12);
    assert Decimals(c.volume) == Get(c, 13) == Get(d, 13) == Decimals(d.volume);
  }

  /** After an assignment of distinct fields each text is the canonical one of its field, or the old one. */
  lemma {:induction false} AssignThenGet(c: DeviceConfig, fs: seq<Field>, id: byte)
    requires Distinct(fs) && Assign(c, fs).Some? && KnownId(id)
    ensures Assign(c, fs).value.schemaVersion == c.schemaVersion
    ensures forall i :: 0 <= i < |fs| && fs[i].id == id ==>
      Get(Assign(c, fs).value, id) == Canonical(id, fs[i].value)
    ensures id !in Ids(fs) ==> Get(Assign(c, fs).value, id) == Get(c, id)
    decreases |fs|
  {
    hide Set, Get, Canonical;
    if fs != [] {
      var d := Set(c, fs[0].id, fs[0].value).value;
      SetThenGet(c, fs[0].id, fs[0].value, id);
      AssignThenGet(d, fs[1..], id);
      forall i | 0 <= i < |fs| && fs[i].id == id
        ensures Get(Assign(c, fs).value, id) == Canonical(id, fs[i].value)
      {
        if i > 0 {
          assert fs[1..][i - 1] == fs[i];
        } else {
          assert id !in Ids(fs[1..]);
        }
      }
    }
  }

  // ---------- fields on the wire ----------

  /** The fields at the cursor are read one after the other. */
  lemma {:induction false} FieldsRead(input: Text, p: Progress, fs: seq<Field>, rest: Text)
    requires p.cursor <= |input| && input[p.cursor..] == FieldsBytes(fs) + rest
    requires Distinct(fs) && Ids(fs) !! p.seen && Assign(p.config, fs).Some?
    ensures ReadFields(input, p, |fs|)
         == Ok(Progress(Assign(p.config, fs).value, p.seen + Ids(fs), |input| - |rest|))
    decreases |fs|
  {
    hide Set, FieldBytes, ReadField;
    if fs == [] {
      assert p.seen + {} == p.seen;
      assert FieldsBytes(fs) + rest == rest;
    } else {
      var f := fs[0];
      var q := FieldRead(input, p, f, FieldsBytes(fs[1..]) + rest);
      FieldsRead(input, q, fs[1..], rest);
      assert p.seen + Ids(fs) == q.seen + Ids(fs[1..]);
    }
  }

  lemma {:induction false} FieldStands(f: Field, rest: Text)
    requires |f.value| < 0x1_0000
    ensures var t := FieldBytes(f) + rest; var n := |f.value|;
      && |t| >= 3 + n && t[0] == f.id && t[1] == n / 256 && t[2] == n % 256
      && t[3..3 + n] == f.value && t[3 + n..] == rest
  {
  }

  lemma {:induction false} TailSlices(s: Text, at: nat, n: nat)
    requires at + 3 + n <= |s|
    ensures var t := s[at..];
      && s[at] == t[0] && s[at + 1] == t[1] && s[at + 2] == t[2]
      && s[at + 3..at + 3 + n] == t[3..3 + n] && s[at + 3 + n..] == t[3 + n..]
  {
  }

  lemma {:induction false} FieldRead(input: Text, p: Progress, f: Field, rest: Text) returns (q: Progress)
    requires p.cursor <= |input| && input[p.cursor..] == FieldBytes(f) + rest
    requires KnownId(f.id) && f.id !in p.seen && |f.value| < 0x1_0000 && Set(p.config, f.id, f.value).Some?
    ensures ReadField(input, p) == Ok(q) && input[q.cursor..] == rest
    ensures q == Progress(Set(p.config, f.id, f.value).value, p.seen + {f.id}, p.cursor + 3 + |f.value|)
  {
    hide Set, FieldBytes;
    FieldStands(f, rest);
    TailSlices(input, p.cursor, |f.value|);
    var start := p.cursor + 3;
    q := Progress(Set(p.config, f.id, f.value).value, p.seen + {f.id}, start + |f.value|);
  }

  /** Fields that were read successfully are fields on the wire, distinct and new. */
  lemma {:induction false} FieldsSplit(input: Text, p: Progress, n: nat) returns (fs: seq<Field>)
    requires p.cursor <= |input| && ReadFields(input, p, n).Ok?
    ensures var q := ReadFields(input, p, n).value;
      && |fs| == n && Distinct(fs) && Ids(fs) !! p.seen
      && input[p.cursor..q.cursor] == FieldsBytes(fs)
      && Assign(p.config, fs) == Some(q.config) && q.seen == p.seen + Ids(fs)
    decreases n
  {
    hide Set, FieldBytes, ReadField;
    if n == 0 {
      fs := [];
    } else {
      var f, mid := FieldSplit(input, p);
      var rest := FieldsSplit(input, mid, n - 1);
      fs := [f] + rest;
      assert fs[1..] == rest;
      var q := ReadFields(input, p, n).value;
      assert input[p.cursor..q.cursor] == input[p.cursor..mid.cursor] + input[mid.cursor..q.cursor];
    }
  }

  lemma {:induction false} FieldSplit(input: Text, p: Progress) returns (f: Field, q: Progress)
    requires p.cursor <= |input| && ReadField(input, p).Ok?
    ensures ReadField(input, p) == Ok(q) && KnownId(f.id) && f.id !in p.seen && |f.value| < 0x1_0000
    ensures input[p.cursor..q.cursor] == FieldBytes(f) && q.seen == p.seen + {f.id}
    ensures Set(p.config, f.id, f.value) == Some(q.config)
  {
    hide Set;
    q := ReadField(input, p).value;
    var length := 256 * (input[p.cursor + 1] as nat) + input[p.cursor + 2];
    f := Field(input[p.cursor], input[p.cursor + 3..q.cursor]);
    assert length / 256 % 256 == input[p.cursor + 1] && length % 256 == input[p.cursor + 2];
    assert input[p.cursor..q.cursor] == input[p.cursor..p.cursor + 3] + f.value;
    assert input[p.cursor..p.cursor + 3] == [f.id, |f.value| / 256 % 256, |f.value| % 256];
  }

  // ---------- thirteen fields ----------

  lemma {:induction false} IdsCount(fs: seq<Field>)
    requires Distinct(fs)
    ensures |Ids(fs)| == |fs|
  {
    if fs != [] {
      assert forall i :: 0 <= i < |fs[1..]| ==> fs[1..][i] == fs[i + 1];
      IdsCount(fs[1..]);
      assert fs[0].id !in Ids(fs[1..]);
    }
  }

  predicate UpTo(id: byte, n: nat) {
    1 <= id <= n
  }

  /** The ids up to a bound. */
  function IdsTo(n: nat): set<byte> {
    set id: byte | UpTo(id, n)
  }

  lemma {:induction false} IdsToCount(n: nat)
    requires n < 256
    ensures |IdsTo(n)| == n
  {
    if n == 0 {
      assert IdsTo(0) == {};
    } else {
      IdsToCount(n - 1);
      assert IdsTo(n) == IdsTo(n - 1) + {n};
    }
  }

  /** Pigeonhole: as many distinct ids as the bound are all of them, and fewer are not. */
  lemma {:induction false} Pigeonhole(ids: set<byte>, n: nat)
    requires ids <= IdsTo(n) && n < 256
    ensures ids == IdsTo(n) <==> |ids| == n
  {
    IdsToCount(n);
    if ids != IdsTo(n) {
      var missing: byte :| missing in IdsTo(n) && missing !in ids;
      Subset(ids, IdsTo(n) - {missing});
    }
  }

  lemma {:induction false} AllIds(fs: seq<Field>)
    requires Distinct(fs)
    ensures AllSeen(Ids(fs)) <==> |fs| == FIELD_COUNT
  {
    IdsCount(fs);
    Pigeonhole(Ids(fs), FIELD_COUNT);
    assert AllSeen(Ids(fs)) <==> Ids(fs) == IdsTo(FIELD_COUNT);
  }

  lemma {:induction false} Subset(a: set<byte>, b: set<byte>)
    requires a <= b
    ensures |a| <= |b|
  {
    assert b == a + (b - a);
  }

  /** An accepted payload is thirteen distinct fields, whose assignment is a valid configuration. */
  ghost predicate Thirteen(fs: seq<Field>, c: DeviceConfig) {
    Distinct(fs) && |fs| == FIELD_COUNT && Assign(BLANK, fs) == Some(c) && Valid(c)
  }

  lemma {:induction false} AcceptedIsThirteen(input: Text) returns (fs: seq<Field>)
    requires Decode(input).Ok?
    ensures Thirteen(fs, Decode(input).value) && input == Payload(fs)
  {
    hide Set, Valid, ReadFields, FieldsBytes, AllSeen, Distinct, Ids, Assign;
    fs := FieldsSplit(input, Progress(BLANK, {}, 6), input[5]);
    AllIds(fs);
    assert Ids(fs) == {} + Ids(fs);
    assert input == input[..4] + [input[4], input[5]] + input[6..];
    assert input[6..|input|] == input[6..];
  }

  lemma {:induction false} ThirteenIsAccepted(fs: seq<Field>, c: DeviceConfig)
    requires Thirteen(fs, c) && |Payload(fs)| <= 8192
    ensures Decode(Payload(fs)) == Ok(c)
  {
    hide Set, Valid, ReadFields, FieldsBytes, AllSeen, Distinct, Ids, Assign;
    var input := Payload(fs);
    assert input[6..] == FieldsBytes(fs) + [];
    FieldsRead(input, Progress(BLANK, {}, 6), fs, []);
    AllIds(fs);
    assert {} + Ids(fs) == Ids(fs);
    assert input[..4] == MAGIC;
  }

  // ---------- the theorems ----------

  /** decode(encode(c)) = c for a valid configuration exactly when its encoding fits in 8192 bytes. */
  lemma {:induction false} RoundTrip(c: DeviceConfig)
    requires Valid(c)
    ensures Decode(Encode(c)) == Ok(c) <==> |Encode(c)| <= 8192
    ensures |Encode(c)| > 8192 ==> Decode(Encode(c)) == Error(TooLarge)
  {
    hide Valid;
    if |Encode(c)| <= MAXIMUM_BYTES {
      var fs := FieldsFrom(c, 1);
      FieldsFit(fs);
      AssignOwnTexts(c, BLANK, 1);
      var d := Assign(BLANK, fs).value;
      forall id: byte | KnownId(id) ensures Get(d, id) == Get(c, id) {
        AssignThenGet(BLANK, fs, id);
        assert fs[id as int - 1].id == id;
        OwnTextCanonical(c, id);
      }
      AssignThenGet(BLANK, fs, 1);
      ValidSchema(c);
      SameTexts(c, d);
      ThirteenIsAccepted(fs, c);
    }
  }

  /** There are valid configurations over the limit: a prompt of 8192 bytes is enough. */
  lemma {:induction false} OversizedConfig() returns (c: DeviceConfig)
    ensures Valid(c) && |Encode(c)| > 8192 && Decode(Encode(c)) == Error(TooLarge)
  {
    var prompt: Text := seq(MAXIMUM_BYTES, _ => 97);
    c := BLANK.(network := Network(ONE, ONE),
                voice := RealtimeVoice(Ascii("doubao-seeduplex-v1"), ONE, ONE),
                assistant := Assistant([], prompt, false));
    var fs := FieldsFrom(c, 1);
    FieldsFit(fs);
    assert fs[6].value == Get(c, 7) == prompt;
    RoundTrip(c);
  }

  lemma {:induction false} ValidSchema(c: DeviceConfig)
    requires Valid(c)
    ensures c.schemaVersion == SCHEMA_VERSION
  {
  }

  lemma {:induction false} OwnTextCanonical(c: DeviceConfig, id: byte)
    requires KnownId(id)
    ensures Canonical(id, Get(c, id)) == Get(c, id)
  {
    DecimalOfDecimals(c.volume);
  }

  lemma {:induction false} FieldsFit(fs: seq<Field>)
    ensures forall i :: 0 <= i < |fs| ==> |fs[i].value| <= |FieldsBytes(fs)|
  {
    if fs != [] {
      FieldsFit(fs[1..]);
      forall i | 0 <= i < |fs| ensures |fs[i].value| <= |FieldsBytes(fs)| {
        if i > 0 {
          assert fs[i] == fs[1..][i - 1];
        }
      }
    }
  }

  lemma {:induction false} AssignOwnTexts(c: DeviceConfig, d: DeviceConfig, id: byte)
    requires 1 <= id <= FIELD_COUNT + 1
    ensures Assign(d, FieldsFrom(c, id)).Some?
    decreases FIELD_COUNT + 1 - id
  {
    hide Set, Get;
    if id <= FIELD_COUNT {
      SetOwnText(c, d, id);
      assert FieldsFrom(c, id)[1..] == FieldsFrom(c, id + 1);
      AssignOwnTexts(c, Set(d, id, Get(c, id)).value, id + 1);
    }
  }

  /** No accepted payload continues another. */
  lemma {:induction false} PrefixFree(a: Text, more: Text)
    requires Decode(a).Ok? && Decode(a + more).Ok?
    ensures more == []
  {
    hide Valid, ReadFields;
    var t := a + more;
    assert t[5] == a[5];
    FieldsStable(a, more, Progress(BLANK, {}, 6), a[5]);
  }

  /** Fields that were read are read the same whatever follows. */
  lemma {:induction false} FieldsStable(input: Text, more: Text, p: Progress, n: nat)
    requires p.cursor <= |input| && ReadFields(input, p, n).Ok?
    ensures ReadFields(input + more, p, n) == ReadFields(input, p, n)
    decreases n
  {
    hide Set, ReadField;
    if n > 0 {
      FieldStable(input, more, p);
      FieldsStable(input, more, ReadField(input, p).value, n - 1);
    }
  }

  lemma {:induction false} FieldStable(input: Text, more: Text, p: Progress)
    requires p.cursor <= |input| && ReadField(input, p).Ok?
    ensures ReadField(input + more, p) == ReadField(input, p)
  {
    hide Set;
    var t, start := input + more, p.cursor + 3;
    var length := 256 * (input[p.cursor + 1] as nat) + input[p.cursor + 2];
    assert t[p.cursor] == input[p.cursor] && t[p.cursor + 1] == input[p.cursor + 1];
    assert t[p.cursor + 2] == input[p.cursor + 2];
    assert t[start..start + length] == input[start..start + length];
  }

  // ---------- order and size ----------

  lemma {:induction false} FirstFieldRead(f: Field, rest: Text, g: Field, others: Text)
    requires |f.value| < 0x1_0000 && |g.value| < 0x1_0000 && FieldBytes(f) + rest == FieldBytes(g) + others
    ensures f == g && rest == others
  {
    var s := FieldBytes(f) + rest;
    assert s[0] == f.id == g.id;
    assert s[1] == |f.value| / 256 % 256 == |g.value| / 256 % 256 && s[2] == |f.value| % 256 == |g.value| % 256;
    assert |f.value| == |g.value|;
    assert s[3..3 + |f.value|] == f.value == g.value;
    assert s[3 + |f.value|..] == rest == others;
  }

  /** A payload has one reading as fields. */
  lemma {:induction false} PayloadInjective(fs: seq<Field>, gs: seq<Field>)
    requires Fitting(fs) && Fitting(gs) && FieldsBytes(fs) == FieldsBytes(gs)
    ensures fs == gs
    decreases |fs|
  {
    hide FieldBytes;
    if fs == [] {
      assert gs != [] ==> |FieldsBytes(gs)| > 0;
    } else {
      FirstFieldRead(fs[0], FieldsBytes(fs[1..]), gs[0], FieldsBytes(gs[1..]));
      PayloadInjective(fs[1..], gs[1..]);
    }
  }

  predicate Fitting(fs: seq<Field>) {
    forall i :: 0 <= i < |fs| ==> |fs[i].value| < 0x1_0000
  }

  function Without(fs: seq<Field>, k: nat): (r: seq<Field>)
    requires k < |fs|
  {
    fs[..k] + fs[k + 1..]
  }

  lemma {:induction false} SizeWithout(fs: seq<Field>, k: nat)
    requires k < |fs|
    ensures |FieldsBytes(fs)| == 3 + |fs[k].value| + |FieldsBytes(Without(fs, k))|
    decreases k
  {
    if k == 0 {
      assert Without(fs, 0) == fs[1..];
    } else {
      SizeWithout(fs[1..], k - 1);
      assert Without(fs, k)[1..] == Without(fs[1..], k - 1);
    }
  }

  lemma {:induction false} MultisetWithout(fs: seq<Field>, k: nat)
    requires k < |fs|
    ensures multiset(Without(fs, k)) == multiset(fs) - multiset{fs[k]}
  {
    assert fs == fs[..k] + [fs[k]] + fs[k + 1..];
  }

  lemma {:induction false} PermutationSize(fs: seq<Field>, gs: seq<Field>)
    requires multiset(fs) == multiset(gs)
    ensures |fs| == |gs| && |FieldsBytes(fs)| == |FieldsBytes(gs)|
    decreases |gs|
  {
    assert |multiset(fs)| == |fs| && |multiset(gs)| == |gs|;
    if gs != [] {
      assert gs[0] in multiset(gs);
      assert gs[0] in fs;
      var k :| 0 <= k < |fs| && fs[k] == gs[0];
      SizeWithout(fs, k);
      MultisetWithout(fs, k);
      MultisetWithout(gs, 0);
      assert Without(gs, 0) == gs[1..];
      SizeWithout(gs, 0);
      PermutationSize(Without(fs, k), gs[1..]);
    }
  }

  lemma {:induction false} CountedIsDistinct(fs: seq<Field>)
    requires forall i :: 0 <= i < |fs| ==> KnownId(fs[i].id) && |fs[i].value| < 0x1_0000
    ensures |Ids(fs)| <= |fs|
    ensures |Ids(fs)| == |fs| ==> Distinct(fs)
  {
    if fs != [] {
      CountedIsDistinct(fs[1..]);
      if fs[0].id in Ids(fs[1..]) {
        assert Ids(fs) == Ids(fs[1..]);
      } else if |Ids(fs)| == |fs| {
        forall i, j | 0 <= i < j < |fs| ensures fs[i].id != fs[j].id {
          assert fs[j] == fs[1..][j - 1];
          if i > 0 {
            assert fs[i] == fs[1..][i - 1];
          }
        }
      }
    }
  }

  /** Whether a field's text can be stored does not depend on the configuration. */
  predicate Storable(f: Field)
    requires KnownId(f.id)
  {
    Set(BLANK, f.id, f.value).Some?
  }

  lemma {:induction false} AssignStorable(c: DeviceConfig, fs: seq<Field>)
    requires forall i :: 0 <= i < |fs| ==> KnownId(fs[i].id)
    ensures Assign(c, fs).Some? <==> forall i :: 0 <= i < |fs| ==> Storable(fs[i])
    decreases |fs|
  {
    if fs != [] {
      SetStorable(c, fs[0]);
      if Storable(fs[0]) {
        AssignStorable(Set(c, fs[0].id, fs[0].value).value, fs[1..]);
        assert forall i :: 1 <= i < |fs| ==> fs[1..][i - 1] == fs[i];
      }
    }
  }

  lemma {:induction false} SetStorable(c: DeviceConfig, f: Field)
    requires KnownId(f.id)
    ensures Set(c, f.id, f.value).Some? <==> Storable(f)
  {
  }

  lemma {:induction false} PermutationAssigns(fs: seq<Field>, gs: seq<Field>, c: DeviceConfig)
    requires Thirteen(fs, c) && multiset(fs) == multiset(gs)
    ensures Thirteen(gs, c)
  {
    hide Set, Valid, Get, Canonical, FieldsBytes;
    PermutationSize(fs, gs);
    SameMembers(fs, gs);
    assert Ids(gs) == Ids(fs);
    IdsCount(fs);
    CountedIsDistinct(gs);
    AssignStorable(BLANK, fs);
    AssignStorable(BLANK, gs);
    var d := Assign(BLANK, gs).value;
    AllIds(fs);
    forall id: byte | KnownId(id) ensures Get(c, id) == Get(d, id) {
      assert id in Ids(fs);
      var i :| 0 <= i < |fs| && fs[i].id == id;
      var j :| 0 <= j < |gs| && gs[j] == fs[i];
      AssignThenGet(BLANK, fs, id);
      AssignThenGet(BLANK, gs, id);
    }
    AssignThenGet(BLANK, fs, 1);
    AssignThenGet(BLANK, gs, 1);
    SameTexts(c, d);
  }

  lemma {:induction false} SameMembers(fs: seq<Field>, gs: seq<Field>)
    requires multiset(fs) == multiset(gs)
    ensures forall i :: 0 <= i < |gs| ==> gs[i] in fs
    ensures forall i :: 0 <= i < |fs| ==> fs[i] in gs
  {
    assert forall f :: f in multiset(fs) <==> f in multiset(gs);
    assert forall i :: 0 <= i < |gs| ==> gs[i] in multiset(gs);
    assert forall i :: 0 <= i < |fs| ==> fs[i] in multiset(fs);
  }

  /** Reordering the fields of an accepted payload leaves it accepted, with the same configuration. */
  lemma {:induction false} OrderIndependent(fs: seq<Field>, gs: seq<Field>)
    requires |fs| < 256 && Fitting(fs) && multiset(fs) == multiset(gs)
    requires Decode(Payload(fs)).Ok?
    ensures |gs| < 256 && Decode(Payload(gs)) == Decode(Payload(fs))
  {
    hide Thirteen;
    var c := ReadAsFields(fs);
    PermutationSize(fs, gs);
    PermutationAssigns(fs, gs, c);
    ThirteenIsAccepted(gs, c);
  }

  lemma {:induction false} ReadAsFields(fs: seq<Field>) returns (c: DeviceConfig)
    requires |fs| < 256 && Fitting(fs) && Decode(Payload(fs)).Ok?
    ensures c == Decode(Payload(fs)).value && Thirteen(fs, c) && |Payload(fs)| <= MAXIMUM_BYTES
  {
    hide Valid, Set, Assign, ReadFields;
    c := Decode(Payload(fs)).value;
    var hs := AcceptedIsThirteen(Payload(fs));
    assert Payload(fs)[6..] == FieldsBytes(fs) && Payload(hs)[6..] == FieldsBytes(hs);
    PayloadInjective(fs, hs);
  }

  // ---------- re-encoding ----------

  function SizeOfTexts(c: DeviceConfig, n: nat): nat
    requires n <= FIELD_COUNT as int
  {
    if n == 0 then 0 else SizeOfTexts(c, n - 1) + 3 + |Get(c, n)|
  }

  /** Fields with at least the canonical texts of the first n ids take at least their bytes. */
  lemma {:induction false} SizeAtLeast(fs: seq<Field>, c: DeviceConfig, n: nat)
    requires n <= FIELD_COUNT as int && Distinct(fs) && Ids(fs) == IdsTo(n)
    requires forall i :: 0 <= i < |fs| ==> |Get(c, fs[i].id)| <= |fs[i].value|
    ensures SizeOfTexts(c, n) <= |FieldsBytes(fs)|
    decreases n
  {
    hide Get, FieldsBytes, Distinct, Without;
    if n > 0 {
      assert UpTo(n, n);
      assert n in IdsTo(n) && n in Ids(fs);
      var k :| 0 <= k < |fs| && fs[k].id == n;
      SizeWithout(fs, k);
      RestFields(fs, c, k);
      RestIds(fs, k, n);
      SizeAtLeast(Without(fs, k), c, n - 1);
    }
  }

  lemma {:induction false} RestFields(fs: seq<Field>, c: DeviceConfig, k: nat)
    requires Distinct(fs) && k < |fs| && forall i :: 0 <= i < |fs| ==> |Get(c, fs[i].id)| <= |fs[i].value|
    ensures var rest := Without(fs, k);
      Distinct(rest) && forall i :: 0 <= i < |rest| ==> |Get(c, rest[i].id)| <= |rest[i].value|
  {
    hide Get;
    var rest := Without(fs, k);
    assert forall i :: 0 <= i < |rest| ==> rest[i] == fs[if i < k then i else i + 1];
  }

  lemma {:induction false} RestIds(fs: seq<Field>, k: nat, n: nat)
    requires 1 <= n <= FIELD_COUNT as int && Distinct(fs) && Ids(fs) == IdsTo(n) && k < |fs| && fs[k].id == n
    ensures Ids(Without(fs, k)) == IdsTo(n - 1)
  {
    var rest := Without(fs, k);
    forall id: byte ensures id in Ids(rest) <==> id in IdsTo(n - 1) {
      assert UpTo(id, n - 1) <==> UpTo(id, n) && id != n;
      if id in Ids(fs) && id != n {
        var i :| 0 <= i < |fs| && fs[i].id == id;
        assert rest[if i < k then i else i - 1] == fs[i];
      }
    }
  }

  lemma {:induction false} SizeOfEncoding(c: DeviceConfig, id: byte)
    requires 1 <= id <= FIELD_COUNT + 1
    ensures |FieldsBytes(FieldsFrom(c, id))| == SizeOfTexts(c, FIELD_COUNT as int) - SizeOfTexts(c, id as int - 1)
    decreases FIELD_COUNT + 1 - id
  {
    hide Get;
    if id <= FIELD_COUNT {
      SizeOfEncoding(c, id + 1);
      assert FieldsFrom(c, id)[1..] == FieldsFrom(c, id + 1);
    }
  }

  /**
   Encoding an accepted configuration again takes no more bytes than the payload it came from, so a
   configuration that was provisioned is read back from the store.
   */
  lemma {:induction false} ReencodeNoLonger(input: Text)
    requires Decode(input).Ok?
    ensures var c := Decode(input).value; |Encode(c)| <= |input| <= MAXIMUM_BYTES && Decode(Encode(c)) == Ok(c)
  {
    hide Valid, Set, Get, FieldsBytes, Assign;
    var c := Decode(input).value;
    var fs := AcceptedIsThirteen(input);
    forall i | 0 <= i < |fs| ensures |Get(c, fs[i].id)| <= |fs[i].value| {
      AssignThenGet(BLANK, fs, fs[i].id);
      CanonicalShortest(fs, c, i);
    }
    IdsCount(fs);
    Pigeonhole(Ids(fs), FIELD_COUNT as int);
    SizeAtLeast(fs, c, FIELD_COUNT as int);
    SizeOfEncoding(c, 1);
    assert SizeOfTexts(c, 0) == 0;
    RoundTrip(c);
  }

  lemma {:induction false} CanonicalShortest(fs: seq<Field>, c: DeviceConfig, i: nat)
    requires Thirteen(fs, c) && i < |fs|
    ensures |Canonical(fs[i].id, fs[i].value)| <= |fs[i].value|
  {
    hide Valid, Get;
    var f := fs[i];
    AssignStorable(BLANK, fs);
    assert Storable(f);
    if f.id == 13 {
      DecimalsShortest(f.value);
    }
  }
}
