/** ProcessingConfig: what is accepted, how it is put in normal form, and what its fingerprint tells. */
module Processing {
  import opened Wrappers
  import opened Lexicographic
  import opened JsonFingerprint
  import opened Characters

  datatype Settings = Settings(
    graphModelId: Option<string>,
    graphModelSchema: Option<string>,
    chunkerId: Option<string>,
    chunkSize: Option<int>,
    customPrompt: Option<string>,
    temporalCognify: bool,
    runtimeConfig: Option<string>
  )

  datatype Config = Config(settings: Settings, extras: seq<Keyed<string>>)

  datatype ConfigError = ChunkSizeNotPositive | ExtraNotAPair | BadExtraKey | BadExtraValue | RepeatedExtraKey

  predicate Blank(s: string) {
    forall i :: 0 <= i < |s| ==> IsSpace(s[i])
  }

  predicate HasNul(s: string) {
    0 as char in s
  }

  function Pairs(raw: seq<seq<string>>): (r: seq<Keyed<string>>)
    requires forall i :: 0 <= i < |raw| ==> |raw[i]| == 2
    ensures |r| == |raw| && forall i :: 0 <= i < |raw| ==> r[i] == Keyed(raw[i][0], raw[i][1])
  {
    seq(|raw|, i requires 0 <= i < |raw| => Keyed(raw[i][0], raw[i][1]))
  }

  function RepeatsKey(extras: seq<Keyed<string>>): (r: bool)
    ensures r <==> !Distinct(extras)
  {
    exists i, j :: 0 <= i < j < |extras| && extras[i].key == extras[j].key
  }

  /** Checks in the order the constructor makes them. */
  function Configure(settings: Settings, raw: seq<seq<string>>): Result<Config, ConfigError> {
    if settings.chunkSize.Some? && settings.chunkSize.value <= 0 then Failure(ChunkSizeNotPositive)
    else if exists i :: 0 <= i < |raw| && |raw[i]| != 2 then Failure(ExtraNotAPair)
    else
      var extras := Pairs(raw);
      if exists i :: 0 <= i < |extras| && (Blank(extras[i].key) || HasNul(extras[i].key)) then Failure(BadExtraKey)
      else if exists i :: 0 <= i < |extras| && HasNul(extras[i].value) then Failure(BadExtraValue)
      else if RepeatsKey(extras) then Failure(RepeatedExtraKey)
      else Success(Config(settings, SortByKey(extras)))
  }

  ghost predicate PositiveSize(s: Settings) {
    s.chunkSize.Some? ==> s.chunkSize.value > 0
  }

  ghost predicate AllPairs(raw: seq<seq<string>>) {
    forall x :: x in raw ==> |x| == 2
  }

  /** Keys that are neither blank nor hold NUL. */
  ghost predicate GoodKeys(raw: seq<seq<string>>)
    requires AllPairs(raw)
  {
    forall x :: x in raw ==> (exists c :: c in x[0] && !IsSpace(c)) && '\0' !in x[0]
  }

  ghost predicate GoodValues(raw: seq<seq<string>>)
    requires AllPairs(raw)
  {
    forall x :: x in raw ==> '\0' !in x[1]
  }

  ghost predicate DistinctKeys(raw: seq<seq<string>>)
    requires AllPairs(raw)
  {
    forall i, j :: 0 <= i < j < |raw| ==> raw[i][0] != raw[j][0]
  }

  /** The first of the checks that fails, if any does. */
  ghost function Reason(settings: Settings, raw: seq<seq<string>>): Option<ConfigError> {
    if !PositiveSize(settings) then Some(ChunkSizeNotPositive)
    else if !AllPairs(raw) then Some(ExtraNotAPair)
    else if !GoodKeys(raw) then Some(BadExtraKey)
    else if !GoodValues(raw) then Some(BadExtraValue)
    else if !DistinctKeys(raw) then Some(RepeatedExtraKey)
    else Option.None
  }

  /**
   What is accepted, told on the raw input: then the settings are kept as they are, and the extras are
   the given pairs in strict order of their keys.
   */
  lemma ConfiguredExactly(settings: Settings, raw: seq<seq<string>>)
    ensures var r := Configure(settings, raw);
            && (r.Failure? <==> Reason(settings, raw).Some?)
            && (r.Failure? ==> Reason(settings, raw) == Some(r.error))
            && (r.Success? ==>
                  && r.value.settings == settings && Sorted(Keys(r.value.extras))
                  && forall k, v :: Keyed(k, v) in r.value.extras <==> [k, v] in raw)
  {
    if AllPairs(raw) {
      ChecksReadPairs(raw);
      if DistinctKeys(raw) {
        SortedPairs(raw);
      }
    }
  }

  lemma SortedPairs(raw: seq<seq<string>>)
    requires AllPairs(raw) && DistinctKeys(raw)
    ensures var extras := SortByKey(Pairs(raw));
            Sorted(Keys(extras)) && forall k, v :: Keyed(k, v) in extras <==> [k, v] in raw
  {
    SortByKeySorts(Pairs(raw));
    PairOf(raw);
  }

  lemma ChecksReadPairs(raw: seq<seq<string>>)
    requires AllPairs(raw)
    ensures GoodKeys(raw) <==> forall i :: 0 <= i < |raw| ==> !Blank(Pairs(raw)[i].key) && !HasNul(Pairs(raw)[i].key)
    ensures GoodValues(raw) <==> forall i :: 0 <= i < |raw| ==> !HasNul(Pairs(raw)[i].value)
    ensures DistinctKeys(raw) <==> Distinct(Pairs(raw))
  {
    var extras := Pairs(raw);
    forall i | 0 <= i < |raw|
      ensures raw[i] in raw
      ensures Blank(extras[i].key) <==> !(exists c :: c in raw[i][0] && !IsSpace(c))
    {
    }
  }

  function OptionalText(t: Option<string>): Value {
    if t.None? then Value.None else Str(t.value)
  }

  function ExtraValue(e: Keyed<string>): Value {
    Tuple([Str(e.key), Str(e.value)])
  }

  function ExtraValues(extras: seq<Keyed<string>>): (r: seq<Value>)
    ensures |r| == |extras| && forall i :: 0 <= i < |r| ==> r[i] == ExtraValue(extras[i])
  {
    seq(|extras|, i requires 0 <= i < |extras| => ExtraValue(extras[i]))
  }

  function FieldNames(): seq<string> {
    ["graph_model_id", "graph_model_schema_fingerprint", "chunker_id", "chunk_size",
     "custom_prompt_fingerprint", "temporal_cognify", "runtime_config_fingerprint", "extras"]
  }

  function FieldValues(c: Config): seq<Value> {
    var s := c.settings;
    [OptionalText(s.graphModelId), OptionalText(s.graphModelSchema), OptionalText(s.chunkerId),
     if s.chunkSize.None? then Value.None else Int(s.chunkSize.value),
     OptionalText(s.customPrompt), Bool(s.temporalCognify), OptionalText(s.runtimeConfig),
     Tuple(ExtraValues(c.extras))]
  }

  function Entries(names: seq<string>, values: seq<Value>): (r: seq<Entry>)
    requires |names| == |values|
    ensures |r| == |names| && forall i :: 0 <= i < |r| ==> r[i] == Entry(Text(names[i]), values[i])
  {
    seq(|names|, i requires 0 <= i < |names| => Entry(Text(names[i]), values[i]))
  }

  function AsDict(c: Config): Value {
    Dict(Entries(FieldNames(), FieldValues(c)))
  }

  /** Which value stands under which name. */
  lemma FieldsAreNamed(c: Config)
    ensures var e, s := AsDict(c).entries, c.settings;
            && |e| == 8
            && Entry(Text("graph_model_id"), OptionalText(s.graphModelId)) in e
            && Entry(Text("graph_model_schema_fingerprint"), OptionalText(s.graphModelSchema)) in e
            && Entry(Text("chunker_id"), OptionalText(s.chunkerId)) in e
            && Entry(Text("chunk_size"), if s.chunkSize.None? then Value.None else Int(s.chunkSize.value)) in e
            && Entry(Text("custom_prompt_fingerprint"), OptionalText(s.customPrompt)) in e
            && Entry(Text("temporal_cognify"), Bool(s.temporalCognify)) in e
            && Entry(Text("runtime_config_fingerprint"), OptionalText(s.runtimeConfig)) in e
            && Entry(Text("extras"), Tuple(ExtraValues(c.extras))) in e
            && (forall i :: 0 <= i < |c.extras| ==>
                  ExtraValues(c.extras)[i] == Tuple([Str(c.extras[i].key), Str(c.extras[i].value)]))
  {
    var e := AsDict(c).entries;
    assert e[0] in e && e[1] in e && e[2] in e && e[3] in e && e[4] in e && e[5] in e && e[6] in e && e[7] in e;
    assert e[7] == Entry(Text("extras"), Tuple(ExtraValues(c.extras)));
  }

  /** Under the same distinct names, records are the same when their fields are. */
  lemma {:induction false} SameFieldByField(names: seq<string>, xs: seq<Value>, ys: seq<Value>)
    requires |xs| == |names| && |ys| == |names|
    requires forall i, j :: 0 <= i < j < |names| ==> names[i] != names[j]
    ensures SameFields(Entries(names, xs), Entries(names, ys)) <==> SameItems(xs, ys)
  {
    forall i | 0 <= i < |names| {
      SameFieldAt(names, xs, ys, i);
    }
  }

  lemma SameFieldAt(names: seq<string>, xs: seq<Value>, ys: seq<Value>, i: nat)
    requires |xs| == |names| && |ys| == |names| && i < |names|
    requires forall i, j :: 0 <= i < j < |names| ==> names[i] != names[j]
    ensures Meets(Entries(names, xs)[i], Entries(names, ys)) <==> Same(xs[i], ys[i])
    ensures IsMet(Entries(names, xs), Entries(names, ys)[i]) <==> Same(xs[i], ys[i])
  {
    var es, fs := Entries(names, xs), Entries(names, ys);
    assert SameEntry(es[i], fs[i]) <==> Same(xs[i], ys[i]);
    forall j | 0 <= j < |names| && j != i ensures es[j].key != fs[i].key && es[i].key != fs[j].key {
      assert names[if i < j then i else j] != names[if i < j then j else i];
    }
  }

  lemma ExtrasAreRead(a: seq<Keyed<string>>, b: seq<Keyed<string>>)
    ensures SameItems(ExtraValues(a), ExtraValues(b)) <==> a == b
  {
    if |a| == |b| {
      forall i | 0 <= i < |a| ensures Same(ExtraValue(a[i]), ExtraValue(b[i])) <==> a[i] == b[i] {
        var x, y := ExtraValue(a[i]), ExtraValue(b[i]);
        assert Same(x, y) <==> Same(x.items[0], y.items[0]) && Same(x.items[1], y.items[1]);
      }
    }
  }

  lemma ValuesAreRead(a: Config, b: Config)
    ensures SameItems(FieldValues(a), FieldValues(b)) <==> a == b
  {
    ExtrasAreRead(a.extras, b.extras);
    var x, y := FieldValues(a), FieldValues(b);
    EightItems(x, y);
    assert Same(x[7], y[7]) <==> a.extras == b.extras;
    OptionalTextIsRead(a.settings.graphModelId, b.settings.graphModelId);
    OptionalTextIsRead(a.settings.graphModelSchema, b.settings.graphModelSchema);
    OptionalTextIsRead(a.settings.chunkerId, b.settings.chunkerId);
    OptionalTextIsRead(a.settings.customPrompt, b.settings.customPrompt);
    OptionalTextIsRead(a.settings.runtimeConfig, b.settings.runtimeConfig);
  }

  lemma OptionalTextIsRead(t: Option<string>, u: Option<string>)
    ensures Same(OptionalText(t), OptionalText(u)) <==> t == u
  {
  }

  lemma EightItems(x: seq<Value>, y: seq<Value>)
    requires |x| == 8 && |y| == 8
    ensures SameItems(x, y) <==>
            && Same(x[0], y[0]) && Same(x[1], y[1]) && Same(x[2], y[2]) && Same(x[3], y[3])
            && Same(x[4], y[4]) && Same(x[5], y[5]) && Same(x[6], y[6]) && Same(x[7], y[7])
  {
    if Same(x[0], y[0]) && Same(x[1], y[1]) && Same(x[2], y[2]) && Same(x[3], y[3]) &&
       Same(x[4], y[4]) && Same(x[5], y[5]) && Same(x[6], y[6]) && Same(x[7], y[7]) {
      forall i | 0 <= i < 8 ensures Same(x[i], y[i]) {
      }
    }
  }

  lemma NamesDiffer()
    ensures forall i, j :: 0 <= i < j < 8 ==> FieldNames()[i] != FieldNames()[j]
  {
    var n := FieldNames();
    assert |n[0]| == 14 && |n[1]| == 30 && |n[2]| == 10 && |n[3]| == 10 && n[2][5] == 'e' && n[3][5] == '_';
    assert |n[4]| == 25 && |n[5]| == 16 && |n[6]| == 26 && |n[7]| == 6;
  }

  lemma ConfigEncodes(c: Config)
    ensures Genuine(AsDict(c)) && CanonicalText(AsDict(c)).Success?
  {
    NamesDiffer();
    var extras := Tuple(ExtraValues(c.extras));
    forall e: Keyed<string> ensures Genuine(ExtraValue(e)) && Encodable(ExtraValue(e)) {
      assert forall i :: 0 <= i < 2 ==> Genuine(ExtraValue(e).items[i]) && Encodable(ExtraValue(e).items[i]);
    }
    assert Genuine(extras) && Encodable(extras);
    assert forall i :: 0 <= i < 8 ==> Genuine(FieldValues(c)[i]) && Encodable(FieldValues(c)[i]);
  }

  lemma ConfigTextTells(a: Config, b: Config)
    ensures CanonicalText(AsDict(a)) == CanonicalText(AsDict(b)) <==> a == b
  {
    ConfigEncodes(a);
    ConfigEncodes(b);
    NamesDiffer();
    TextTellsSame(AsDict(a), AsDict(b));
    SameFieldByField(FieldNames(), FieldValues(a), FieldValues(b));
    ValuesAreRead(a, b);
  }

  /**
   Two accepted configurations have one fingerprint exactly when their settings are equal and they
   name the same extras, in whatever order.
   */
  lemma FingerprintTellsConfig(s: Settings, rawS: seq<seq<string>>, t: Settings, rawT: seq<seq<string>>)
    requires Configure(s, rawS).Success? && Configure(t, rawT).Success?
    ensures CanonicalText(AsDict(Configure(s, rawS).value)) == CanonicalText(AsDict(Configure(t, rawT).value))
            <==> s == t && forall x :: x in rawS <==> x in rawT
  {
    ConfigTextTells(Configure(s, rawS).value, Configure(t, rawT).value);
    var a, b := Pairs(rawS), Pairs(rawT);
    SortingForgetsOrderOnly(a, b);
    PairsHoldTheSame(rawS, rawT);
  }

  lemma PairsHoldTheSame(rawS: seq<seq<string>>, rawT: seq<seq<string>>)
    requires forall i :: 0 <= i < |rawS| ==> |rawS[i]| == 2
    requires forall i :: 0 <= i < |rawT| ==> |rawT[i]| == 2
    ensures (forall x :: x in Pairs(rawS) <==> x in Pairs(rawT)) <==> forall x :: x in rawS <==> x in rawT
  {
    PairOf(rawS);
    PairOf(rawT);
    if forall x :: x in Pairs(rawS) <==> x in Pairs(rawT) {
      forall x ensures x in rawS <==> x in rawT {
        if |x| == 2 {
          assert Keyed(x[0], x[1]) in Pairs(rawS) <==> Keyed(x[0], x[1]) in Pairs(rawT);
        }
      }
    }
    if forall x :: x in rawS <==> x in rawT {
      forall p ensures p in Pairs(rawS) <==> p in Pairs(rawT) {
        assert [p.key, p.value] in rawS <==> [p.key, p.value] in rawT;
      }
    }
  }

  lemma PairOf(raw: seq<seq<string>>)
    requires forall i :: 0 <= i < |raw| ==> |raw[i]| == 2
    ensures forall x :: |x| == 2 ==> (x in raw <==> Keyed(x[0], x[1]) in Pairs(raw))
    ensures forall p :: p in Pairs(raw) <==> [p.key, p.value] in raw
  {
    forall x | |x| == 2 ensures x in raw <==> Keyed(x[0], x[1]) in Pairs(raw) {
      if Keyed(x[0], x[1]) in Pairs(raw) {
        var i :| 0 <= i < |raw| && Pairs(raw)[i] == Keyed(x[0], x[1]);
        assert raw[i] == x;
      }
      if x in raw {
        var i :| 0 <= i < |raw| && raw[i] == x;
        assert Pairs(raw)[i] == Keyed(x[0], x[1]);
      }
    }
    forall p ensures p in Pairs(raw) <==> [p.key, p.value] in raw {
      assert p == Keyed([p.key, p.value][0], [p.key, p.value][1]);
    }
  }
}
