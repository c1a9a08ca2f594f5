/**
 * The repository's own configuration: one input group `MDI` read from `svg`,
 * only files whose base name contains `outline` kept, all of them written to
 * `dist/icons.svg` and to the enum `MDISprites` in `dist/Icons.ts`, and ids
 * with their `mdi-` prefix removed. The remaining options come from the
 * built-in defaults through `mergeDeep`.
 */
module ProjectConfig {
  import opened Wrappers
  import opened Text
  import opened Ordered
  import opened Generate
  import Util

  const SPRITE_FILE: string := "dist/icons.svg"
  const ENUM_FILE: string := "dist/Icons.ts"
  const ENUM_NAME: string := "MDISprites"
  const MDI_TARGET: EnumTarget := EnumTarget(ENUM_FILE, ENUM_NAME)

  /** `input: { MDI: "svg" }`. */
  const INPUT: OrderedMap<string, string> := OrderedMap(["MDI"], map["MDI" := "svg"])

  /** `getSpriteOutputs`: the sprite file for outline icons, nothing for the rest. */
  function SpriteOutputs(c: Candidate): seq<string>
  {
    if Contains(c.path, "outline") then [SPRITE_FILE] else []
  }

  /** `getEnumOutputs`: the `MDISprites` enum for outline icons, nothing for the rest. */
  function EnumOutputs(c: Candidate): seq<EnumTarget>
  {
    if Contains(c.path, "outline") then [MDI_TARGET] else []
  }

  /**
   * `getSvgId`: the first id of the file with its first `mdi-` removed, or
   * `undefined` when the file has no id (the optional chain stops there).
   */
  function SvgId(l: Loaded): (r: JsText)
    ensures r.Undefined? <==> FirstIdMatch(l.data).Undefined?
    ensures r.Str? ==> forall k :: 0 <= k < |r.s| ==> IsIdChar(r.s[k])
  {
    match FirstIdMatch(l.data)
    case Undefined => Undefined
    case Str(id) =>
      RemovedKeepsIdChars(id);
      Str(ReplaceFirst(id, "mdi-", ""))
  }

  /** Removing `mdi-` from a run of id characters leaves a run of id characters. */
  lemma RemovedKeepsIdChars(id: string)
    requires forall k :: 0 <= k < |id| ==> IsIdChar(id[k])
    ensures var r := ReplaceFirst(id, "mdi-", ""); forall k :: 0 <= k < |r| ==> IsIdChar(r[k])
  {
    match IndexOf(id, "mdi-")
    case None =>
    case Some(i) =>
      CutKeepsIdChars(id, i, 4, ReplaceFirst(id, "mdi-", ""));
  }

  /** Cutting `n` characters at `i` out of a run of id characters leaves a run of id characters. */
  lemma CutKeepsIdChars(id: string, i: nat, n: nat, r: string)
    requires i + n <= |id| && r == id[..i] + id[i + n..]
    requires forall k :: 0 <= k < |id| ==> IsIdChar(id[k])
    ensures forall k :: 0 <= k < |r| ==> IsIdChar(r[k])
  {
    forall k | 0 <= k < |r|
      ensures IsIdChar(r[k])
    {
      if k < i {
        assert r[k] == id[k];
      } else {
        assert r[k] == id[k + n];
      }
    }
  }

  /** Only the first `mdi-` of the id is removed, wherever it stands. */
  lemma SvgIdRemovesFirst(l: Loaded, before: string, after: string)
    requires FirstIdMatch(l.data) == Str(before + "mdi-" + after)
    requires forall j: nat :: j < |before| ==> !OccursAt(before + "mdi-" + after, "mdi-", j)
    ensures SvgId(l) == Str(before + after)
  {
    RemoveFirstAt(before, "mdi-", after);
  }

  /** Removing the first occurrence of `pat`, found right after `before`. */
  lemma RemoveFirstAt(before: string, pat: string, after: string)
    requires forall j: nat :: j < |before| ==> !OccursAt(before + pat + after, pat, j)
    ensures ReplaceFirst(before + pat + after, pat, "") == before + after
  {
    var s := before + pat + after;
    var i := |before|;
    assert s[i..i + |pat|] == pat;
    assert OccursAt(s, pat, i);
    var r := IndexOf(s, pat);
    assert r.Some? && r.value == i;
    assert s[..i] == before;
    assert s[i + |pat|..] == after;
  }

  /** An id that starts with `mdi-` loses exactly that prefix: `mdi-account` becomes `account`. */
  lemma SvgIdStripsPrefix(l: Loaded, name: string)
    requires FirstIdMatch(l.data) == Str("mdi-" + name)
    ensures SvgId(l) == Str(name)
  {
    assert "" + "mdi-" + name == "mdi-" + name;
    SvgIdRemovesFirst(l, "", name);
  }

  /** An id without `mdi-` is kept as it is. */
  lemma SvgIdKept(l: Loaded)
    requires FirstIdMatch(l.data).Str? && !Contains(FirstIdMatch(l.data).s, "mdi-")
    ensures SvgId(l) == FirstIdMatch(l.data)
  {
  }

  /**
   * The options the generator runs with: the defaults, with the input table,
   * the three target and id plug-ins and the three scalars taken from the
   * configuration. Which fields are overridden is not chosen here: it is what
   * OptionsMerged below proves of `mergeDeep(defaults, config)` on the
   * record level: the keys of CONFIG_KEYS take the configured value
   * (`input`, which has no default, is appended), and every other key keeps
   * its default.
   */
  function Resolved(extractData: Icon -> Call<string>, extractViewBox: Icon -> Call<string>,
                    extractDimensions: Icon -> Call<string>): (cfg: Config)
    ensures cfg.input.Valid() && cfg.input.keys == ["MDI"] && cfg.input.vals == map["MDI" := "svg"]
    ensures cfg.includeViewBox && !cfg.includeDimensions && cfg.indentSize == 3
    ensures var d := DefaultConfig(extractData, extractViewBox, extractDimensions);
            && cfg.getSpriteName == d.getSpriteName && cfg.getEnumName == d.getEnumName
            && cfg.getSvgTag == d.getSvgTag && cfg.extractData == d.extractData
            && cfg.extractViewBox == d.extractViewBox && cfg.extractDimensions == d.extractDimensions
  {
    DefaultConfig(extractData, extractViewBox, extractDimensions).(
      input := INPUT, getSpriteOutputs := SpriteOutputs, getEnumOutputs := EnumOutputs, getSvgId := SvgId,
      includeViewBox := true, includeDimensions := false, indentSize := 3)
  }

  // ---------------------------------------------------------------------------
  // The options object as `mergeDeep` sees it
  // ---------------------------------------------------------------------------

  /** The keys of the defaults object, in the order they are written. */
  const DEFAULT_KEYS: seq<string> :=
    ["getSpriteOutputs", "getEnumOutputs", "getSvgId", "getSpriteName", "getEnumName", "includeViewBox",
     "includeDimensions", "indentSize", "extractData", "extractViewBox", "extractDimensions", "getSvgTag"]

  /** The keys of the configuration object, in the order they are written. */
  const CONFIG_KEYS: seq<string> :=
    ["input", "getSpriteOutputs", "getEnumOutputs", "getSvgId", "includeViewBox", "includeDimensions", "indentSize"]

  /** A default option: the three scalars, and each plug-in as a function value named after its key. */
  function DefaultOption(key: string): Util.JsValue
  {
    if key == "includeViewBox" then Util.Bool(true)
    else if key == "includeDimensions" then Util.Bool(false)
    else if key == "indentSize" then Util.Num(3)
    else Util.Func("default " + key)
  }

  /** The input table as a record: `{ MDI: "svg" }`. */
  const INPUT_RECORD: Util.JsValue := Util.Obj(OrderedMap(["MDI"], map["MDI" := Util.Str("svg")]))

  /** A configured option: the input table, the three scalars and the configured plug-ins. */
  function ConfigOption(key: string): Util.JsValue
  {
    if key == "input" then INPUT_RECORD
    else if key == "includeViewBox" then Util.Bool(true)
    else if key == "includeDimensions" then Util.Bool(false)
    else if key == "indentSize" then Util.Num(3)
    else Util.Func("config " + key)
  }

  function DefaultOptions(): Util.JsValue
  {
    Util.Obj(OrderedMap(DEFAULT_KEYS, map k | k in DEFAULT_KEYS :: DefaultOption(k)))
  }

  function ConfigOptions(): Util.JsValue
  {
    Util.Obj(OrderedMap(CONFIG_KEYS, map k | k in CONFIG_KEYS :: ConfigOption(k)))
  }

  /** `mergeDeep(defaults, config)`. */
  function Options(): Util.JsValue
  {
    Util.MergeDeep(DefaultOptions(), [ConfigOptions()])
  }

  /**
   * Merging the configuration into the defaults keeps the default keys in
   * place and appends `input`; every configured key takes the configured
   * value (the input table copied into a fresh record), and every other key
   * keeps its default.
   */
  lemma OptionsMerged()
    ensures Options().Obj? && Options().fields.Valid()
    ensures Options().fields.keys == DEFAULT_KEYS + ["input"]
    ensures forall k :: k in CONFIG_KEYS ==> Util.Prop(Options().fields, k) == ConfigOption(k)
    ensures forall k :: k in DEFAULT_KEYS && k !in CONFIG_KEYS ==> Util.Prop(Options().fields, k) == DefaultOption(k)
  {
    var d, c := DefaultOptions(), ConfigOptions();
    OptionsOneMerge();
    OptionsValid();
    UnknownConfigKeys();
    Util.MergeIntoKeys(d, c);
    AllConfiguredMerged();
    DefaultsKept();
  }

  /** With a single configuration, `mergeDeep` is one merge into the defaults. */
  lemma OptionsOneMerge()
    ensures Options() == Util.MergeInto(DefaultOptions(), ConfigOptions())
  {
    OneSource(DefaultOptions(), ConfigOptions());
  }

  lemma OneSource(target: Util.JsValue, source: Util.JsValue)
    ensures Util.MergeDeep(target, [source]) == Util.MergeInto(target, source)
  {
    assert [source][1..] == [];
  }

  lemma AllConfiguredMerged()
    ensures forall k :: k in CONFIG_KEYS ==>
              Util.Prop(Util.MergeInto(DefaultOptions(), ConfigOptions()).fields, k) == ConfigOption(k)
  {
    forall k | k in CONFIG_KEYS
      ensures Util.Prop(Util.MergeInto(DefaultOptions(), ConfigOptions()).fields, k) == ConfigOption(k)
    {
      if k == "input" {
        InputMerged();
      } else {
        ConfiguredMerged(k);
      }
    }
  }

  lemma DefaultsKept()
    ensures forall k :: k in DEFAULT_KEYS && k !in CONFIG_KEYS ==>
              Util.Prop(Util.MergeInto(DefaultOptions(), ConfigOptions()).fields, k) == DefaultOption(k)
  {
    forall k | k in DEFAULT_KEYS && k !in CONFIG_KEYS
      ensures Util.Prop(Util.MergeInto(DefaultOptions(), ConfigOptions()).fields, k) == DefaultOption(k)
    {
      OptionsValid();
      Util.MergeIntoAt(DefaultOptions(), ConfigOptions(), k);
    }
  }

  /** A configured key other than `input` holds a plain value, which replaces the default. */
  lemma ConfiguredMerged(k: string)
    requires k in CONFIG_KEYS && k != "input"
    ensures Util.Prop(Util.MergeInto(DefaultOptions(), ConfigOptions()).fields, k) == ConfigOption(k)
  {
    OptionsValid();
    var c := ConfigOptions();
    assert c.fields.vals[k] == ConfigOption(k);
    assert !ConfigOption(k).Obj?;
    PlainOverrides(DefaultOptions(), c, k);
  }

  /** A source value that is not a record replaces the target's value. */
  lemma PlainOverrides(target: Util.JsValue, source: Util.JsValue, k: string)
    requires target.Obj? && source.Obj? && source.fields.Valid()
    requires k in source.fields.vals && !source.fields.vals[k].Obj?
    ensures Util.Prop(Util.MergeInto(target, source).fields, k) == source.fields.vals[k]
  {
    Util.MergeIntoAt(target, source, k);
  }

  /** `input` has no default, so the input table is merged into a fresh `{}`. */
  lemma InputMerged()
    ensures Util.Prop(Util.MergeInto(DefaultOptions(), ConfigOptions()).fields, "input") == INPUT_RECORD
  {
    OptionsValid();
    assert "input" !in DefaultOptions().fields.vals;
    assert ConfigOptions().fields.vals["input"] == INPUT_RECORD;
    Util.MergeIntoAt(DefaultOptions(), ConfigOptions(), "input");
    InputCopied();
  }

  /** Both option objects list each of their keys once. */
  lemma OptionsValid()
    ensures DefaultOptions().fields.Valid() && ConfigOptions().fields.Valid()
  {
    DefaultsValid();
    ConfiguredValid();
  }

  lemma DefaultsValid()
    ensures DefaultOptions().fields.Valid()
  {
  }

  lemma ConfiguredValid()
    ensures ConfigOptions().fields.Valid()
  {
  }

  /** Of the configured keys only `input` is new to the defaults. */
  lemma UnknownConfigKeys()
    ensures Util.Unknown(CONFIG_KEYS, DefaultOptions().fields.vals) == ["input"]
  {
    var m := DefaultOptions().fields.vals;
    assert "input" !in m;
    assert CONFIG_KEYS[1..] == ["getSpriteOutputs", "getEnumOutputs", "getSvgId", "includeViewBox",
                                "includeDimensions", "indentSize"];
    assert forall i :: 1 <= i < |CONFIG_KEYS| ==> CONFIG_KEYS[i] in m;
    NoneUnknown(CONFIG_KEYS[1..], m);
  }

  lemma {:induction false} NoneUnknown(ks: seq<string>, m: map<string, Util.JsValue>)
    requires forall i :: 0 <= i < |ks| ==> ks[i] in m
    ensures Util.Unknown(ks, m) == []
  {
    if ks != [] {
      NoneUnknown(ks[1..], m);
    }
  }

  /** The input table merged into a fresh `{}` is the same table. */
  lemma InputCopied()
    ensures Util.MergeInto(Util.EMPTY_OBJECT, INPUT_RECORD) == INPUT_RECORD
  {
    var r := Util.MergeInto(Util.EMPTY_OBJECT, INPUT_RECORD).fields;
    Util.MergeIntoKeys(Util.EMPTY_OBJECT, INPUT_RECORD);
    Util.MergeIntoAt(Util.EMPTY_OBJECT, INPUT_RECORD, "MDI");
    assert r.keys == ["MDI"];
    assert r.vals == map["MDI" := Util.Str("svg")];
  }

  // ---------------------------------------------------------------------------
  // What a run with this configuration does
  // ---------------------------------------------------------------------------

  /**
   * An entry is skipped exactly when its base name does not contain
   * `outline`; an entry that is processed goes to the sprite file and to the
   * one enum.
   */
  lemma OutlineOnly(cfg: Config, fs: FileSystem, inputPath: string, inputId: string, entry: string)
    requires cfg.getSpriteOutputs == SpriteOutputs && cfg.getEnumOutputs == EnumOutputs
    ensures FileOutcome(cfg, fs, inputPath, inputId, entry).Skipped? <==> !Contains(BaseName(entry), "outline")
    ensures var o := FileOutcome(cfg, fs, inputPath, inputId, entry);
            o.Processed? ==> o.spriteTargets == [SPRITE_FILE] && |o.lines| == 1 && o.lines[0].0 == MDI_TARGET
  {
  }

  /**
   * What the project's accumulators can hold: nothing yet, or exactly one
   * sprite buffer for `dist/icons.svg` and one enum file `dist/Icons.ts`
   * holding the one enum `MDISprites`.
   */
  ghost predicate Shaped(ch: Chunks)
  {
    && ch.Valid()
    && ((ch.sprites.keys == [] && ch.enums.keys == [])
        || (&& ch.sprites.keys == [SPRITE_FILE] && ch.enums.keys == [ENUM_FILE] && ENUM_FILE in ch.enums.vals
            && ch.enums.vals[ENUM_FILE].keys == [ENUM_NAME]))
  }

  lemma ApplyShaped(ch: Chunks, o: Outcome)
    requires Shaped(ch)
    requires o.Processed? ==> o.spriteTargets == [SPRITE_FILE] && |o.lines| == 1 && o.lines[0].0 == MDI_TARGET
    requires o.Processed? ==> MemberLines(o.lines)
    ensures Shaped(Apply(ch, o))
  {
    if o.Processed? {
      OneSprite(ch.sprites, SPRITE_FILE, o.fragment);
      OneLine(ch.enums, o.lines);
      var r := Apply(ch, o);
      assert r.sprites == AppendSprite(ch.sprites, SPRITE_FILE, o.fragment);
      assert r.enums == AppendEnum(ch.enums, MDI_TARGET, o.lines[0].1);
    }
  }

  lemma OneSprite(sprites: OrderedMap<string, string>, path: string, fragment: string)
    ensures AppendSprites(sprites, [path], fragment) == AppendSprite(sprites, path, fragment)
  {
    assert [path][..0] == [];
  }

  lemma OneLine(enums: OrderedMap<string, OrderedMap<string, string>>, lines: seq<(EnumTarget, string)>)
    requires |lines| == 1
    ensures AppendEnums(enums, lines) == AppendEnum(enums, lines[0].0, lines[0].1)
  {
    assert lines[..0] == [];
  }

  lemma {:induction false} RunEntriesShaped(cfg: Config, fs: FileSystem, inputPath: string, inputId: string,
                                            entries: seq<string>, ch: Chunks)
    requires cfg.getSpriteOutputs == SpriteOutputs && cfg.getEnumOutputs == EnumOutputs
    requires Shaped(ch)
    ensures var r := RunEntries(cfg, fs, inputPath, inputId, entries, ch); r.Some? ==> Shaped(r.value)
    decreases |entries|
  {
    if entries != [] {
      var o := FileOutcome(cfg, fs, inputPath, inputId, entries[0]);
      if !o.Aborted? {
        OutlineOnly(cfg, fs, inputPath, inputId, entries[0]);
        ApplyShaped(ch, o);
        RunEntriesShaped(cfg, fs, inputPath, inputId, entries[1..], Apply(ch, o));
      }
    }
  }

  lemma {:induction false} RunInputsShaped(cfg: Config, fs: FileSystem, ids: seq<string>, ch: Chunks)
    requires cfg.getSpriteOutputs == SpriteOutputs && cfg.getEnumOutputs == EnumOutputs
    requires forall k :: 0 <= k < |ids| ==> ids[k] in cfg.input.vals
    requires Shaped(ch)
    ensures var r := RunInputs(cfg, fs, ids, ch); r.Some? ==> Shaped(r.value)
    decreases |ids|
  {
    if ids != [] {
      var inputPath := cfg.input.vals[ids[0]];
      if inputPath in fs.dirs {
        RunEntriesShaped(cfg, fs, inputPath, ids[0], fs.dirs[inputPath], ch);
        var r := RunEntries(cfg, fs, inputPath, ids[0], fs.dirs[inputPath], ch);
        if r.Some? {
          RunInputsShaped(cfg, fs, ids[1..], r.value);
        }
      }
    }
  }

  /** Accumulators of that shape are written as nothing, or as the sprite file and then the enum file. */
  lemma ShapedWrites(cfg: Config, ch: Chunks)
    requires Shaped(ch)
    ensures var ws := Writes(cfg, ch);
            ws == [] || (|ws| == 2 && ws[0].path == SPRITE_FILE && ws[1].path == ENUM_FILE)
  {
    if ch.sprites.keys != [] {
      assert SpriteWrites(cfg, ch.sprites, 0) == [];
      assert EnumWrites(ch.enums, 0) == [];
    }
  }

  /**
   * A run with the project's configuration writes nothing, or exactly
   * `dist/icons.svg` and then `dist/Icons.ts`.
   */
  lemma ProjectWrites(extractData: Icon -> Call<string>, extractViewBox: Icon -> Call<string>,
                      extractDimensions: Icon -> Call<string>, fs: FileSystem)
    ensures var cfg := Resolved(extractData, extractViewBox, extractDimensions);
            Generated(cfg, fs).Some? ==>
              var ws := Generated(cfg, fs).value;
              ws == [] || (|ws| == 2 && ws[0].path == SPRITE_FILE && ws[1].path == ENUM_FILE)
  {
    var cfg := Resolved(extractData, extractViewBox, extractDimensions);
    assert Shaped(NO_CHUNKS);
    RunInputsShaped(cfg, fs, cfg.input.keys, NO_CHUNKS);
    var r := RunInputs(cfg, fs, cfg.input.keys, NO_CHUNKS);
    if r.Some? {
      ShapedWrites(cfg, r.value);
    }
  }

  /** The only directory read is `svg`; without it the run aborts before writing anything. */
  lemma ProjectNeedsSvg(extractData: Icon -> Call<string>, extractViewBox: Icon -> Call<string>,
                        extractDimensions: Icon -> Call<string>, fs: FileSystem)
    requires "svg" !in fs.dirs
    ensures Generated(Resolved(extractData, extractViewBox, extractDimensions), fs).None?
  {
    var cfg := Resolved(extractData, extractViewBox, extractDimensions);
    assert cfg.input.keys[0] == "MDI" && cfg.input.vals["MDI"] == "svg";
  }
}
