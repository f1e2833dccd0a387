/** Configuration documents, and the merge that layers them. */
module Config {
  import opened Distinct
  import opened Wrappers

  /** A document as parsed. The order of an object's keys is not part of it. */
  datatype Json =
    | Undefined
    | Null
    | Boolean(b: bool)
    | Number(n: real)
    | Str(s: string)
    | Array(items: seq<Json>)
    | Object(fields: Fields)

  type Fields = map<string, Json>

  type Path = seq<string>

  // ---- the deep merge ----

  /** Values of the source overwrite those of the target; two objects are merged; arrays are replaced. */
  function DeepMerge(target: Fields, source: Fields): (r: Fields)
    ensures r.Keys == target.Keys + source.Keys
    decreases Object(source), 1
  {
    map k | k in target.Keys + source.Keys :: MergedAt(target, source, k)
  }

  function MergedAt(target: Fields, source: Fields, k: string): Json
    requires k in target.Keys + source.Keys
    decreases Object(source), 0
  {
    if k !in source then target[k]
    else if source[k].Object? && k in target && target[k].Object? then
      Object(DeepMerge(target[k].fields, source[k].fields))
    else source[k]
  }

  lemma MergedKey(target: Fields, source: Fields, k: string)
    requires k in target.Keys + source.Keys
    ensures DeepMerge(target, source)[k] == MergedAt(target, source, k)
  {
  }

  // ---- leaves ----

  /** The value at a path, if it is there and is not itself an object. */
  function LeafAt(m: Fields, p: Path): Option<Json>
    decreases p
  {
    if p == [] || p[0] !in m then None
    else if |p| == 1 then if m[p[0]].Object? then None else Some(m[p[0]])
    else if m[p[0]].Object? then LeafAt(m[p[0]].fields, p[1..])
    else None
  }

  /** Nothing on the way to the path, nor at it, is set: the walk along it falls off an object. */
  predicate Untouched(m: Fields, p: Path)
    decreases p
  {
    p != [] && (p[0] !in m || (|p| > 1 && m[p[0]].Object? && Untouched(m[p[0]].fields, p[1..])))
  }

  lemma {:induction false} LeafTouches(m: Fields, p: Path)
    requires LeafAt(m, p).Some?
    ensures !Untouched(m, p)
    decreases p
  {
    if |p| > 1 {
      LeafTouches(m[p[0]].fields, p[1..]);
    }
  }

  /** The leaf of a merge: the source's, or the target's where the source leaves the path alone. */
  lemma {:induction false} MergeLeaf(target: Fields, source: Fields, p: Path)
    ensures LeafAt(DeepMerge(target, source), p) ==
            if LeafAt(source, p).Some? then LeafAt(source, p)
            else if Untouched(source, p) then LeafAt(target, p)
            else None
    decreases p
  {
    if p != [] && p[0] in target.Keys + source.Keys {
      var k := p[0];
      MergedKey(target, source, k);
      if |p| > 1 && k in source && source[k].Object? && k in target && target[k].Object? {
        MergeLeaf(target[k].fields, source[k].fields, p[1..]);
      } else if |p| > 1 && k in source && source[k].Object? {
        NoLeafElsewhere(source[k].fields, p[1..]);
      }
    }
  }

  lemma NoLeafElsewhere(m: Fields, p: Path)
    ensures LeafAt(m, p).Some? ==> !Untouched(m, p)
  {
    if LeafAt(m, p).Some? {
      LeafTouches(m, p);
    }
  }

  // ---- layers ----

  /** Layers from the weakest to the strongest. */
  function Layered(layers: seq<Fields>): Fields {
    if layers == [] then map[] else DeepMerge(Layered(layers[..|layers| - 1]), layers[|layers| - 1])
  }

  /** Layer `i` has the leaf `v` at `p`, and no later layer sets anything on the path. */
  ghost predicate Decides(layers: seq<Fields>, i: nat, p: Path, v: Json) {
    && i < |layers| && LeafAt(layers[i], p) == Some(v)
    && forall j :: i < j < |layers| ==> Untouched(layers[j], p)
  }

  /** A leaf of the result is the leaf of the last layer that sets the path, and every leaf of a layer
      survives unless a later layer overwrites its path. */
  lemma {:induction false} LastWriterWins(layers: seq<Fields>, p: Path, v: Json)
    ensures LeafAt(Layered(layers), p) == Some(v) <==> exists i: nat :: Decides(layers, i, p, v)
  {
    if layers != [] {
      var n := |layers| - 1;
      var before, last := layers[..n], layers[n];
      MergeLeaf(Layered(before), last, p);
      LastWriterWins(before, p, v);
      NoLeafElsewhere(last, p);
      if LeafAt(Layered(layers), p) == Some(v) {
        if LeafAt(last, p).Some? {
          assert Decides(layers, n, p, v);
        } else {
          var i: nat :| Decides(before, i, p, v);
          assert Decides(layers, i, p, v);
        }
      }
      if i: nat :| Decides(layers, i, p, v) {
        if i < n {
          assert Decides(before, i, p, v);
        }
      }
    }
  }

  // ---- idempotence ----

  lemma MergeSelf(m: Fields)
    ensures DeepMerge(m, m) == m
    decreases Object(m)
  {
    forall k | k in m
      ensures MergedAt(m, m, k) == m[k]
    {
      if m[k].Object? {
        MergeSelf(m[k].fields);
      }
    }
  }

  /** Merging the same source again changes nothing. */
  lemma MergeAgain(target: Fields, source: Fields)
    ensures DeepMerge(DeepMerge(target, source), source) == DeepMerge(target, source)
    decreases Object(source)
  {
    var once := DeepMerge(target, source);
    forall k | k in target.Keys + source.Keys
      ensures MergedAt(once, source, k) == once[k]
    {
      MergedKey(target, source, k);
      if k in source && source[k].Object? {
        if k in target && target[k].Object? {
          MergeAgain(target[k].fields, source[k].fields);
        } else {
          MergeSelf(source[k].fields);
        }
      }
    }
  }

  // ---- filling in what is missing ----

  /** Defaults fill in what a value leaves undefined; anything that is no object is replaced by them. */
  function MergeMissing(value: Json, defaults: Fields): (r: Fields)
    decreases Object(defaults), 1
  {
    if !value.Object? then defaults
    else map k | k in value.fields.Keys + defaults.Keys :: FilledAt(value.fields, defaults, k)
  }

  function FilledAt(value: Fields, defaults: Fields, k: string): Json
    requires k in value.Keys + defaults.Keys
    decreases Object(defaults), 0
  {
    if k !in defaults then value[k]
    else if k !in value || value[k].Undefined? then defaults[k]
    else if value[k].Object? && defaults[k].Object? then Object(MergeMissing(value[k], defaults[k].fields))
    else value[k]
  }

  /** Somewhere below both, the value says undefined where there is a default. */
  ghost predicate Clash(value: Fields, defaults: Fields)
    decreases Object(defaults)
  {
    exists k :: k in value && k in defaults && ClashAt(value, defaults, k)
  }

  ghost predicate ClashAt(value: Fields, defaults: Fields, k: string)
    requires k in value && k in defaults
    decreases Object(defaults), 0
  {
    || (value[k].Undefined? && !defaults[k].Undefined?)
    || (value[k].Object? && defaults[k].Object? && Clash(value[k].fields, defaults[k].fields))
  }

  lemma FilledKey(value: Fields, defaults: Fields, k: string)
    requires k in value.Keys + defaults.Keys
    ensures MergeMissing(Object(value), defaults)[k] == FilledAt(value, defaults, k)
  {
  }

  /** Filling in defaults is merging the value over them, exactly unless the value says undefined where
      there is a default. */
  lemma MissingIsMergeIff(value: Fields, defaults: Fields)
    ensures MergeMissing(Object(value), defaults) == DeepMerge(defaults, value) <==> !Clash(value, defaults)
    decreases Object(defaults)
  {
    var filled, merged := MergeMissing(Object(value), defaults), DeepMerge(defaults, value);
    assert filled.Keys == merged.Keys;
    forall k | k in value.Keys + defaults.Keys
      ensures filled[k] == merged[k] <==> !(k in value && k in defaults && ClashAt(value, defaults, k))
    {
      FilledKey(value, defaults, k);
      MergedKey(defaults, value, k);
      if k in value && k in defaults && value[k].Object? && defaults[k].Object? {
        MissingIsMergeIff(value[k].fields, defaults[k].fields);
        assert value[k] == Object(value[k].fields);
      }
    }
    if filled == merged {
      assert forall k :: k in value.Keys + defaults.Keys ==> filled[k] == merged[k];
    } else {
      assert exists k :: k in filled.Keys && filled[k] != merged[k];
    }
  }

  /** A defined leaf of the value is kept. */
  lemma {:induction false} MissingKeepsLeaf(value: Fields, defaults: Fields, p: Path)
    requires LeafAt(value, p).Some? && !LeafAt(value, p).value.Undefined?
    ensures LeafAt(MergeMissing(Object(value), defaults), p) == LeafAt(value, p)
    decreases p
  {
    FilledKey(value, defaults, p[0]);
    if |p| > 1 && p[0] in defaults && defaults[p[0]].Object? {
      MissingKeepsLeaf(value[p[0]].fields, defaults[p[0]].fields, p[1..]);
      assert value[p[0]] == Object(value[p[0]].fields);
    }
  }

  // ---- migration ----

  const CURRENT_VERSION := 3

  datatype Error = InvalidDocument | NewerVersion | NotAnObject | Rejected

  predicate Absent(m: Fields, k: string) {
    k !in m || m[k].Undefined?
  }

  function At(m: Fields, k: string): Json {
    if k in m then m[k] else Undefined
  }

  predicate IsVersion(j: Json) {
    j.Number? && j.n >= 1.0 && j.n == j.n.Floor as real
  }

  /** The shape the migration insists on. */
  predicate Migratable(doc: Fields) {
    && (Absent(doc, "configVersion") || IsVersion(doc["configVersion"]))
    && (Absent(doc, "models") || doc["models"].Object?)
  }

  function FromVersion(doc: Fields): int
    requires Migratable(doc)
  {
    if Absent(doc, "configVersion") then 1 else doc["configVersion"].n.Floor
  }

  predicate Outdated(doc: Fields) {
    Migratable(doc) && FromVersion(doc) < CURRENT_VERSION
  }

  function InferredKind(model: Fields): string {
    if At(model, "provider") == Str("anthropic") then "claude"
    else if At(model, "provider") == Str("cursor") then "cursor"
    else "codex"
  }

  /** A model whose adapter is a record without a string kind. */
  predicate Kindless(model: Json) {
    model.Object? && At(model.fields, "cliAdapter").Object? && !At(At(model.fields, "cliAdapter").fields, "kind").Str?
  }

  function MigrateModel(model: Json): Json {
    if Kindless(model) then
      var adapter := model.fields["cliAdapter"].fields["kind" := Str(InferredKind(model.fields))];
      Object(model.fields["cliAdapter" := Object(adapter)])
    else model
  }

  function MigrateModels(models: Fields): Fields {
    map alias | alias in models :: MigrateModel(models[alias])
  }

  function MigrateV1ToV2(doc: Fields): Fields {
    doc["configVersion" := Number(2.0)]
  }

  function MigrateV2ToV3(doc: Fields, compatibility: Fields): Fields
    requires Migratable(doc)
  {
    var versioned := doc["configVersion" := Number(3.0)];
    var modelled :=
      if Absent(doc, "models") then versioned
      else versioned["models" := Object(MigrateModels(doc["models"].fields))];
    modelled["debate" := Object(MergeMissing(At(doc, "debate"), map["enabled" := Boolean(true)]))]
            ["reviewGated" := Object(MergeMissing(At(doc, "reviewGated"), compatibility))]
  }

  /** `compatibility` is the review-gated default. */
  function MigrateConfig(doc: Fields, compatibility: Fields): Result<Fields, Error> {
    if !Migratable(doc) then Err(InvalidDocument)
    else if FromVersion(doc) > CURRENT_VERSION then Err(NewerVersion)
    else if FromVersion(doc) == CURRENT_VERSION then Ok(doc)
    else if FromVersion(doc) < 2 then Ok(MigrateV2ToV3(MigrateV1ToV2(doc), compatibility))
    else Ok(MigrateV2ToV3(doc, compatibility))
  }

  /** A migrated document is current, and migrating it again gives it back. */
  lemma MigrateTwice(doc: Fields, compatibility: Fields)
    requires MigrateConfig(doc, compatibility).Ok?
    ensures var r := MigrateConfig(doc, compatibility).value;
            Migratable(r) && FromVersion(r) == CURRENT_VERSION && MigrateConfig(r, compatibility) == Ok(r)
  {
  }

  /** After migration every model with an adapter record has a string kind, inferred from its provider
      when it had none. */
  lemma KindsAreInferred(models: Fields, alias: string)
    requires alias in models && models[alias].Object? && At(models[alias].fields, "cliAdapter").Object?
    ensures var m, r := models[alias], MigrateModels(models)[alias];
            && r.Object? && !Kindless(r) && MigrateModel(r) == r
            && (!Kindless(m) ==> r == m)
            && (Kindless(m) ==> LeafAt(r.fields, ["cliAdapter", "kind"]) == Some(Str(InferredKind(m.fields))))
  {
  }

  /** Which kind that is: `claude` for anthropic, `cursor` for cursor, `codex` for every other provider and for none. */
  lemma InferredKinds(models: Fields, alias: string)
    requires alias in models && models[alias].Object? && At(models[alias].fields, "cliAdapter").Object?
    requires !At(At(models[alias].fields, "cliAdapter").fields, "kind").Str?
    ensures var provider, r := At(models[alias].fields, "provider"), MigrateModels(models)[alias];
            && r.Object? && "cliAdapter" in r.fields && r.fields["cliAdapter"].Object?
            && var kind := At(r.fields["cliAdapter"].fields, "kind");
            && (provider == Str("anthropic") ==> kind == Str("claude"))
            && (provider == Str("cursor") ==> kind == Str("cursor"))
            && (provider != Str("anthropic") && provider != Str("cursor") ==> kind == Str("codex"))
  {
    KindsAreInferred(models, alias);
  }

  /** The four outcomes of a migration, by what stands under `configVersion` and `models`. */
  lemma MigrationOutcomes(doc: Fields, compatibility: Fields)
    ensures var version, r := At(doc, "configVersion"), MigrateConfig(doc, compatibility);
            var numbered := version.Number? && version.n >= 1.0 && version.n.Floor as real == version.n;
            if (!version.Undefined? && !numbered) || !(At(doc, "models").Undefined? || At(doc, "models").Object?)
            then r == Err(InvalidDocument)
            else if numbered && version.n > 3.0 then r == Err(NewerVersion)
            else if numbered && version.n == 3.0 then r == Ok(doc)
            else r.Ok? && At(r.value, "configVersion") == Number(3.0) && At(r.value, "debate").Object?
                 && At(r.value, "reviewGated").Object?
    ensures Outdated(doc) <==> MigrateConfig(doc, compatibility).Ok? && At(doc, "configVersion") != Number(3.0)
  {
    hide MergeMissing, MigrateModels;
    if Migratable(doc) && FromVersion(doc) < CURRENT_VERSION {
      UpgradedKeys(doc, compatibility, "configVersion");
    }
  }

  /** At or below a model's adapter kind, `q` leading from the models. */
  predicate IsKindPath(q: Path) {
    |q| >= 3 && q[1] == "cliAdapter" && q[2] == "kind"
  }

  /** What migration does not keep: the version, a `debate` or `reviewGated` that is no record, and a kind
      that is no string. */
  predicate Replaced(p: Path, v: Json) {
    || p == ["configVersion"] || p == ["debate"] || p == ["reviewGated"]
    || (p != [] && p[0] == "models" && IsKindPath(p[1..]) && (|p| == 4 ==> !v.Str?))
  }

  lemma LeafBeside(m: Fields, k: string, j: Json, q: Path)
    requires q != [] && q[0] != k
    ensures LeafAt(m[k := j], q) == LeafAt(m, q)
  {
  }

  lemma LeafUnder(m: Fields, q: Path)
    requires q != [] && q[0] in m && m[q[0]].Object?
    ensures LeafAt(m, q) == if |q| > 1 then LeafAt(m[q[0]].fields, q[1..]) else None
  {
  }

  lemma AdapterLeaf(model: Json, q: Path, v: Json)
    requires model.Object? && LeafAt(model.fields, q) == Some(v) && Kindless(model)
    ensures LeafAt(MigrateModel(model).fields, q) == Some(v) <==>
            !(|q| >= 2 && q[0] == "cliAdapter" && q[1] == "kind" && (|q| == 2 ==> !v.Str?))
  {
    var adapter := model.fields["cliAdapter"].fields;
    var kind := Str(InferredKind(model.fields));
    var after := model.fields["cliAdapter" := Object(adapter["kind" := kind])];
    assert MigrateModel(model).fields == after && q != [];
    if q[0] != "cliAdapter" {
      LeafBeside(model.fields, "cliAdapter", Object(adapter["kind" := kind]), q);
    } else {
      LeafUnder(model.fields, q);
      LeafUnder(after, q);
      KindLeaf(adapter, kind, q[1..], v);
    }
  }

  lemma KindLeaf(adapter: Fields, kind: Json, q: Path, v: Json)
    requires LeafAt(adapter, q) == Some(v) && !At(adapter, "kind").Str? && kind.Str?
    ensures LeafAt(adapter["kind" := kind], q) == Some(v) <==> !(q[0] == "kind" && (|q| == 1 ==> !v.Str?))
  {
    if q[0] != "kind" {
      LeafBeside(adapter, "kind", kind, q);
    }
  }

  lemma ModelLeaf(models: Fields, q: Path, v: Json)
    requires LeafAt(models, q) == Some(v)
    ensures LeafAt(MigrateModels(models), q) == Some(v) <==> !(IsKindPath(q) && (|q| == 3 ==> !v.Str?))
  {
    var model := models[q[0]];
    if |q| > 1 {
      if Kindless(model) {
        AdapterLeaf(model, q[1..], v);
      } else {
        StringKind(model, q[1..], v);
      }
    }
  }

  lemma StringKind(model: Json, q: Path, v: Json)
    requires model.Object? && LeafAt(model.fields, q) == Some(v) && !Kindless(model)
    ensures |q| >= 2 && q[0] == "cliAdapter" && q[1] == "kind" ==> |q| == 2 && v.Str?
  {
    if |q| >= 2 && q[0] == "cliAdapter" && q[1] == "kind" {
      assert LeafAt(model.fields["cliAdapter"].fields, q[1..]) == Some(v);
    }
  }

  function Upgraded(doc: Fields, compatibility: Fields): Fields
    requires Migratable(doc)
  {
    if FromVersion(doc) < 2 then MigrateV2ToV3(MigrateV1ToV2(doc), compatibility) else MigrateV2ToV3(doc, compatibility)
  }

  lemma UpgradedKeys(doc: Fields, compatibility: Fields, k: string)
    requires Migratable(doc) && FromVersion(doc) < CURRENT_VERSION
    ensures var r := Upgraded(doc, compatibility);
            && MigrateConfig(doc, compatibility) == Ok(r)
            && At(r, "configVersion") == Number(3.0)
            && At(r, "debate") == Object(MergeMissing(At(doc, "debate"), map["enabled" := Boolean(true)]))
            && At(r, "reviewGated") == Object(MergeMissing(At(doc, "reviewGated"), compatibility))
            && (!Absent(doc, "models") ==> At(r, "models") == Object(MigrateModels(doc["models"].fields)))
            && (k in doc && k !in ["configVersion", "debate", "reviewGated", "models"] ==> k in r && r[k] == doc[k])
  {
    hide MergeMissing, MigrateModels;
  }

  /** Every explicit leaf of an older document is kept, exactly except what is replaced. */
  lemma MigrationKeepsLeafIff(doc: Fields, compatibility: Fields, p: Path, v: Json)
    requires Migratable(doc) && FromVersion(doc) < CURRENT_VERSION
    requires LeafAt(doc, p) == Some(v) && !v.Undefined?
    ensures MigrateConfig(doc, compatibility).Ok?
    ensures LeafAt(MigrateConfig(doc, compatibility).value, p) == Some(v) <==> !Replaced(p, v)
  {
    var k := p[0];
    UpgradedKeys(doc, compatibility, k);
    hide MigrateConfig, Upgraded, MergeMissing, MigrateModels;
    if k == "models" {
      ModelLeaf(doc[k].fields, p[1..], v);
    } else if k == "debate" && |p| > 1 {
      MissingKeepsLeaf(doc[k].fields, map["enabled" := Boolean(true)], p[1..]);
      assert doc[k] == Object(doc[k].fields);
    } else if k == "reviewGated" && |p| > 1 {
      MissingKeepsLeaf(doc[k].fields, compatibility, p[1..]);
      assert doc[k] == Object(doc[k].fields);
    }
  }

  // ---- the loops ----

  /** The keys of the source not in `left` have been visited. */
  ghost predicate Visited(from: Fields, keys: set<string>, left: set<string>, result: Fields, final: Fields) {
    && left <= keys
    && result.Keys == from.Keys + (keys - left)
    && final.Keys == from.Keys + keys
    && forall k :: k in result ==> result[k] == if k in left then from[k] else final[k]
  }

  lemma VisitOne(from: Fields, keys: set<string>, left: set<string>, result: Fields, final: Fields, key: string)
    requires Visited(from, keys, left, result, final) && key in left
    ensures key in final && (key in result <==> key in from) && (key in from ==> result[key] == from[key])
    ensures Visited(from, keys, left - {key}, result[key := final[key]], final)
  {
  }

  lemma VisitedAll(from: Fields, keys: set<string>, result: Fields, final: Fields)
    requires Visited(from, keys, {}, result, final)
    ensures result == final
  {
    assert keys - {} == keys;
  }

  lemma VisitNone(from: Fields, keys: set<string>, final: Fields)
    requires final.Keys == from.Keys + keys
    requires forall k :: k in from && k !in keys ==> final[k] == from[k]
    ensures Visited(from, keys, keys, from, final)
  {
  }

  lemma BeginMerge(target: Fields, source: Fields)
    ensures Visited(target, source.Keys, source.Keys, target, DeepMerge(target, source))
  {
    var final := DeepMerge(target, source);
    forall k | k in target && k !in source
      ensures final[k] == target[k]
    {
      MergedKey(target, source, k);
    }
    VisitNone(target, source.Keys, final);
  }

  lemma BeginFill(value: Fields, defaults: Fields)
    ensures Visited(value, defaults.Keys, defaults.Keys, value, MergeMissing(Object(value), defaults))
  {
    var final := MergeMissing(Object(value), defaults);
    forall k | k in value && k !in defaults
      ensures final[k] == value[k]
    {
      FilledKey(value, defaults, k);
    }
    VisitNone(value, defaults.Keys, final);
  }

  /** The value the merge gives one key of the source. */
  method MergeKey(target: Fields, source: Fields, result: Fields, key: string) returns (value: Json)
    requires key in source && (key in result <==> key in target) && (key in target ==> result[key] == target[key])
    ensures value == MergedAt(target, source, key)
    decreases Object(source), 0
  {
    if source[key].Object? && key in result && result[key].Object? {
      var nested := MergeInto(result[key].fields, source[key].fields);
      value := Object(nested);
    } else {
      value := source[key];
    }
  }

  /** The merge as it runs: the target is copied, then every key of the source is visited. */
  method MergeInto(target: Fields, source: Fields) returns (result: Fields)
    ensures result == DeepMerge(target, source)
    decreases Object(source), 1
  {
    result := target;
    var left := source.Keys;
    ghost var final := DeepMerge(target, source);
    BeginMerge(target, source);
    hide *;
    while left != {}
      invariant left <= source.Keys && Visited(target, source.Keys, left, result, final)
      decreases |left|
    {
      ghost var some := Member(left);
      var key: string :| key in left;
      VisitOne(target, source.Keys, left, result, final, key);
      MergedKey(target, source, key);
      var value := MergeKey(target, source, result, key);
      result := result[key := value];
      left := left - {key};
    }
    VisitedAll(target, source.Keys, result, final);
  }

  /** The filling-in as it runs: every default is visited. */
  method FillMissing(value: Json, defaults: Fields) returns (result: Fields)
    ensures result == MergeMissing(value, defaults)
    decreases Object(defaults), 1
  {
    if !value.Object? {
      return defaults;
    }
    result := FillFields(value.fields, defaults);
    assert value == Object(value.fields);
  }

  /** The value one default leads to. */
  method FillKey(value: Fields, defaults: Fields, result: Fields, key: string) returns (filled: Json)
    requires key in defaults && (key in result <==> key in value) && (key in value ==> result[key] == value[key])
    ensures filled == FilledAt(value, defaults, key)
    decreases Object(defaults), 0, 0
  {
    if key !in result || result[key].Undefined? {
      filled := defaults[key];
    } else if result[key].Object? && defaults[key].Object? {
      var nested := FillMissing(result[key], defaults[key].fields);
      filled := Object(nested);
    } else {
      filled := result[key];
    }
  }

  method FillFields(value: Fields, defaults: Fields) returns (result: Fields)
    ensures result == MergeMissing(Object(value), defaults)
    decreases Object(defaults), 0, 1
  {
    result := value;
    var left := defaults.Keys;
    ghost var final := MergeMissing(Object(value), defaults);
    BeginFill(value, defaults);
    hide *;
    while left != {}
      invariant left <= defaults.Keys && Visited(value, defaults.Keys, left, result, final)
      decreases |left|
    {
      ghost var some := Member(left);
      var key: string :| key in left;
      VisitOne(value, defaults.Keys, left, result, final, key);
      FilledKey(value, defaults, key);
      var filled := FillKey(value, defaults, result, key);
      result := result[key := filled];
      left := left - {key};
    }
    VisitedAll(value, defaults.Keys, result, final);
  }

  /** From version 2 to version 3. */
  method Upgrade(doc: Fields, compatibility: Fields) returns (migrated: Fields)
    requires Migratable(doc)
    ensures migrated == MigrateV2ToV3(doc, compatibility)
  {
    hide MergeMissing;
    migrated := doc["configVersion" := Number(3.0)];
    if "models" in doc && !doc["models"].Undefined? {
      migrated := migrated["models" := Object(MigrateModels(doc["models"].fields))];
    }
    var debate := FillMissing(At(doc, "debate"), map["enabled" := Boolean(true)]);
    var reviewGated := FillMissing(At(doc, "reviewGated"), compatibility);
    migrated := migrated["debate" := Object(debate)]["reviewGated" := Object(reviewGated)];
  }

  /** The migration as it runs, one version at a time. */
  method Migrate(doc: Fields, compatibility: Fields) returns (r: Result<Fields, Error>)
    ensures r == MigrateConfig(doc, compatibility)
  {
    hide MigrateV2ToV3;
    if !Migratable(doc) {
      return Err(InvalidDocument);
    }
    var fromVersion := FromVersion(doc);
    if fromVersion > CURRENT_VERSION {
      return Err(NewerVersion);
    }
    if fromVersion == CURRENT_VERSION {
      return Ok(doc);
    }
    var migrated := doc;
    if fromVersion < 2 {
      migrated := MigrateV1ToV2(migrated);
    }
    if fromVersion < 3 {
      migrated := Upgrade(migrated, compatibility);
    }
    return Ok(migrated);
  }

  // ---- loading ----

  /** The layers of one load, the weakest first: defaults, preset, the migrated file, overrides. */
  function Layers(defaults: Fields, preset: Option<Fields>, file: Option<Fields>, overrides: Option<Fields>): seq<Fields> {
    [defaults]
    + (if preset.Some? then [preset.value] else [])
    + (if file.Some? then [file.value] else [])
    + (if overrides.Some? then [overrides.value] else [])
  }

  lemma LayerOne(layers: seq<Fields>, layer: Fields)
    ensures Layered(layers + [layer]) == DeepMerge(Layered(layers), layer)
  {
    assert (layers + [layer])[..|layers|] == layers;
  }

  lemma LayerFirst(layer: Fields)
    ensures Layered([layer]) == layer
  {
    assert [layer][..0] == [];
    forall k | k in layer
      ensures MergedAt(map[], layer, k) == layer[k]
    {
    }
  }

  function Over(layer: Option<Fields>, below: Option<Json>, p: Path): Option<Json> {
    if layer.Some? && !Untouched(layer.value, p) then LeafAt(layer.value, p) else below
  }

  lemma LayerOver(layers: seq<Fields>, layer: Option<Fields>, p: Path)
    ensures LeafAt(Layered(layers + if layer.Some? then [layer.value] else []), p) == Over(layer, LeafAt(Layered(layers), p), p)
  {
    hide Layered, DeepMerge;
    if layer.Some? {
      LayerOne(layers, layer.value);
      MergeLeaf(Layered(layers), layer.value, p);
      NoLeafElsewhere(layer.value, p);
    } else {
      assert layers + [] == layers;
    }
  }

  /** Overrides win over the file, the file over the preset, the preset over the defaults. */
  lemma OverridesWin(defaults: Fields, preset: Option<Fields>, file: Option<Fields>, overrides: Option<Fields>, p: Path)
    ensures LeafAt(Layered(Layers(defaults, preset, file, overrides)), p) ==
            if overrides.Some? && !Untouched(overrides.value, p) then LeafAt(overrides.value, p)
            else if file.Some? && !Untouched(file.value, p) then LeafAt(file.value, p)
            else if preset.Some? && !Untouched(preset.value, p) then LeafAt(preset.value, p)
            else LeafAt(defaults, p)
  {
    hide Layered, LeafAt, Untouched;
    var first := [defaults];
    var second := first + if preset.Some? then [preset.value] else [];
    var third := second + if file.Some? then [file.value] else [];
    LayerFirst(defaults);
    LayerOver(first, preset, p);
    LayerOver(second, file, p);
    LayerOver(third, overrides, p);
  }

  /** The migrated project file. Nothing on disk, or being told to skip it, is no layer. */
  function MigratedFile(file: Option<Json>, compatibility: Fields): Result<Option<Fields>, Error> {
    if file.None? then Ok(None)
    else if !file.value.Object? then Err(NotAnObject)
    else
      var r := MigrateConfig(file.value.fields, compatibility);
      if r.Ok? then Ok(Some(r.value)) else Err(r.error)
  }

  /** A load merges its layers in order and validates the result; an older file is due to be rewritten. */
  method LoadConfig(defaults: Fields, preset: Option<Fields>, file: Option<Json>, overrides: Option<Fields>,
                    compatibility: Fields, valid: Fields -> bool)
    returns (r: Result<Fields, Error>, rewrite: bool)
    ensures MigratedFile(file, compatibility).Err? ==> r == Err(MigratedFile(file, compatibility).error)
    ensures MigratedFile(file, compatibility).Ok? ==>
              var merged := Layered(Layers(defaults, preset, MigratedFile(file, compatibility).value, overrides));
              r == if valid(merged) then Ok(merged) else Err(Rejected)
    ensures file.Some? && !file.value.Object? ==> r == Err(NotAnObject)
    ensures file.Some? && file.value.Object? && MigrateConfig(file.value.fields, compatibility).Err? ==>
              r == Err(MigrateConfig(file.value.fields, compatibility).error)
    ensures rewrite <==> r.Ok? && file.Some? && file.value.Object? && Outdated(file.value.fields)
  {
    var merged := defaults;
    ghost var layers := [defaults];
    LayerFirst(defaults);
    hide DeepMerge, Layered;
    rewrite := false;
    if preset.Some? {
      LayerOne(layers, preset.value);
      merged := MergeInto(merged, preset.value);
      layers := layers + [preset.value];
    }
    if file.Some? {
      if !file.value.Object? {
        return Err(NotAnObject), false;
      }
      var migrated := Migrate(file.value.fields, compatibility);
      if migrated.Err? {
        return Err(migrated.error), false;
      }
      rewrite := Outdated(file.value.fields);
      LayerOne(layers, migrated.value);
      merged := MergeInto(merged, migrated.value);
      layers := layers + [migrated.value];
    }
    if overrides.Some? {
      LayerOne(layers, overrides.value);
      merged := MergeInto(merged, overrides.value);
      layers := layers + [overrides.value];
    }
    assert layers == Layers(defaults, preset, MigratedFile(file, compatibility).value, overrides);
    if !valid(merged) {
      return Err(Rejected), false;
    }
    r := Ok(merged);
  }
}
