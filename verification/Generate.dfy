/**
 * The generation pipeline: for every input group and every entry of its
 * directory, decide the sprite and enum targets, read the icon, append one
 * `<symbol>` fragment per sprite target and one enum member line per enum
 * target, and finally assemble the sprite files and the enum files.
 *
 * The file system is a parameter: a directory listing per input path and the
 * text of each file. Writes are returned instead of performed. A throwing
 * plug-in, a missing directory or an unreadable file aborts the whole run
 * before anything is written, since all writes happen at the end.
 */
module Generate {
  import opened Wrappers
  import opened Text
  import opened Ordered
  import Util

  // ---------------------------------------------------------------------------
  // Values passed to and returned by the plug-ins
  // ---------------------------------------------------------------------------

  /** A text that may be `undefined`; a template literal writes `undefined` for it. */
  datatype JsText = Undefined | Str(s: string) {
    function Render(): string {
      match this
      case Undefined => "undefined"
      case Str(s) => s
    }
  }

  /** The outcome of calling a plug-in that may throw. */
  datatype Call<T> = Returned(value: T) | Threw

  /** An enum target: the enum file's path and the enum's name within it. */
  datatype EnumTarget = EnumTarget(path: string, name: string)

  /** What the target-decision plug-ins see: the input group's id and the entry's base name. */
  datatype Candidate = Candidate(input: string, path: string)

  /** What `getSvgId` sees once the file is read. */
  datatype Loaded = Loaded(input: string, path: string, fileName: string, data: string)

  /**
   * What the naming and extraction plug-ins see. `output` is set only while
   * the enum targets are processed; the sprite loop never sets it.
   */
  datatype Icon = Icon(input: string, path: string, fileName: string, data: string, svgId: JsText,
                       output: Option<EnumTarget>)

  /** The resolved configuration: the input table, the plug-ins and the three scalar options. */
  datatype Config = Config(
    input: OrderedMap<string, string>,
    getSpriteOutputs: Candidate -> seq<string>,
    getEnumOutputs: Candidate -> seq<EnumTarget>,
    getSvgId: Loaded -> JsText,
    getSpriteName: Icon -> JsText,
    getEnumName: Icon -> Call<string>,
    includeViewBox: bool,
    includeDimensions: bool,
    indentSize: nat,
    extractData: Icon -> Call<string>,
    extractViewBox: Icon -> Call<string>,
    extractDimensions: Icon -> Call<string>,
    getSvgTag: string -> string)

  // ---------------------------------------------------------------------------
  // The built-in plug-ins
  // ---------------------------------------------------------------------------

  /** Default `getSpriteOutputs`: one sprite file named after the input group. */
  function DefaultSpriteOutputs(c: Candidate): seq<string>
  {
    [c.input]
  }

  /**
   * Default `getEnumOutputs`. It returns the bare input id; destructuring
   * `{ path, name }` from a string gives `undefined` twice, which become the
   * property keys "undefined".
   */
  function DefaultEnumOutputs(c: Candidate): seq<EnumTarget>
  {
    [EnumTarget("undefined", "undefined")]
  }

  /** The characters of the class `[\w|-]`. */
  predicate IsIdChar(c: char)
  {
    'a' <= c <= 'z' || 'A' <= c <= 'Z' || '0' <= c <= '9' || c == '_' || c == '|' || c == '-'
  }

  /**
   * A match of `/(?<=id=")[\w|-]*(?<!")/` can start at `p`: `id="` stands
   * just before `p`, and the run of id characters from `p` is not empty (an
   * empty run would end right after the quote, which the lookbehind forbids).
   */
  predicate IdStartsAt(s: string, p: nat)
  {
    4 <= p < |s| && s[p - 4..p] == "id=\"" && IsIdChar(s[p])
  }

  /** The end of the maximal run of id characters that starts at `p`. */
  function RunEnd(s: string, p: nat): (e: nat)
    requires p <= |s|
    ensures p <= e <= |s|
    ensures forall q :: p <= q < e ==> IsIdChar(s[q])
    ensures e < |s| ==> !IsIdChar(s[e])
    decreases |s| - p
  {
    if p < |s| && IsIdChar(s[p]) then RunEnd(s, p + 1) else p
  }

  /** The first position at or after `p` where a match starts. */
  function FindIdFrom(s: string, p: nat): (r: Option<nat>)
    ensures r.Some? ==> p <= r.value && IdStartsAt(s, r.value)
    ensures r.Some? ==> forall q :: p <= q < r.value ==> !IdStartsAt(s, q)
    ensures r.None? ==> forall q :: p <= q ==> !IdStartsAt(s, q)
    decreases |s| - p
  {
    if p >= |s| then None
    else if IdStartsAt(s, p) then Some(p)
    else FindIdFrom(s, p + 1)
  }

  /**
   * `data.match(/(?<=id=")[\w|-]*(?<!")/gm)?.[0]`: the maximal run of id
   * characters after the first `id="` that is followed by one, or
   * `undefined` when there is none.
   */
  function FirstIdMatch(data: string): (r: JsText)
    ensures r.Undefined? <==> forall p :: !IdStartsAt(data, p)
    ensures r.Str? ==> exists p: nat :: && IdStartsAt(data, p)
                                   && (forall q: nat :: q < p ==> !IdStartsAt(data, q))
                                   && r.s == data[p..RunEnd(data, p)]
    ensures r.Str? ==> |r.s| > 0 && forall i :: 0 <= i < |r.s| ==> IsIdChar(r.s[i])
  {
    match FindIdFrom(data, 0)
    case None => Undefined
    case Some(p) => Str(data[p..RunEnd(data, p)])
  }

  /** Default `getSvgId`: the first id in the file, not normalised. */
  function DefaultSvgId(l: Loaded): JsText
  {
    FirstIdMatch(l.data)
  }

  /** Default `getSpriteName`: the svg id itself. */
  function DefaultSpriteName(icon: Icon): JsText
  {
    icon.svgId
  }

  /** `v[0].toUpperCase() + v.slice(1)` for a non-empty piece. */
  function Capitalize(piece: string): string
    requires piece != ""
  {
    [UpperChar(piece[0])] + piece[1..]
  }

  /** The capitalised pieces, concatenated. */
  function Capitalized(pieces: seq<string>): string
    requires forall k :: 0 <= k < |pieces| ==> pieces[k] != ""
  {
    if pieces == [] then "" else Capitalize(pieces[0]) + Capitalized(pieces[1..])
  }

  /**
   * Default `getEnumName`:
   * `fileName.split("-").map(v => v[0].toUpperCase() + v.slice(1)).join("")`.
   * An empty piece (an empty name, a leading, trailing or doubled `-`) has no
   * `v[0]`, and calling `toUpperCase` on `undefined` throws.
   */
  function DefaultEnumName(icon: Icon): (r: Call<string>)
    ensures r.Threw? <==> "" in Split(icon.fileName, '-')
  {
    PascalName(icon.fileName)
  }

  function PascalName(fileName: string): (r: Call<string>)
    ensures r.Threw? <==> "" in Split(fileName, '-')
  {
    var pieces := Split(fileName, '-');
    if "" in pieces then Threw
    else Returned(Capitalized(pieces))
  }

  /** Default `getSvgTag`: a fixed root tag with the SVG and XLink namespaces. */
  const SVG_TAG: string :=
    "<svg xmlns=\"http://www.w3.org/2000/svg\" xmlns:xlink=\"http://www.w3.org/1999/xlink\" xml:space=\"preserve\">"

  function DefaultSvgTag(path: string): string
  {
    SVG_TAG
  }

  /**
   * The built-in configuration. Its three extractors rest on regular
   * expressions and are given as parameters. The built-in options have no
   * `input` key at all; `Empty()` is only a placeholder for it, so that a
   * run under these options alone writes nothing, whereas the code would
   * throw on `Object.keys(undefined)`. Every real run merges in a
   * configuration that supplies `input`.
   */
  function DefaultConfig(extractData: Icon -> Call<string>, extractViewBox: Icon -> Call<string>,
                         extractDimensions: Icon -> Call<string>): (cfg: Config)
    ensures cfg.input == Empty()
    ensures cfg.includeViewBox && !cfg.includeDimensions && cfg.indentSize == 3
  {
    Config(Empty(), DefaultSpriteOutputs, DefaultEnumOutputs, DefaultSvgId, DefaultSpriteName,
           DefaultEnumName, true, false, 3, extractData, extractViewBox, extractDimensions, DefaultSvgTag)
  }

  // ---------------------------------------------------------------------------
  // Text builders
  // ---------------------------------------------------------------------------

  /** An extracted attribute that is `false`, `undefined` or `""` is left out. */
  predicate Present(attr: Option<string>)
  {
    attr.Some? && attr.value != ""
  }

  /** The attributes written into a symbol: the present ones among viewBox, dim1, dim2, in that order. */
  function PresentAttrs(viewBox: Option<string>, dim1: Option<string>, dim2: Option<string>): (attrs: seq<string>)
    ensures forall k :: 0 <= k < |attrs| ==> attrs[k] != ""
    ensures |attrs| == (if Present(viewBox) then 1 else 0) + (if Present(dim1) then 1 else 0)
                       + (if Present(dim2) then 1 else 0)
    ensures Present(viewBox) ==> attrs[0] == viewBox.value
    ensures Present(dim1) ==> attrs[if Present(viewBox) then 1 else 0] == dim1.value
    ensures Present(dim2) ==> attrs[|attrs| - 1] == dim2.value
  {
    AttrIf(viewBox) + AttrIf(dim1) + AttrIf(dim2)
  }

  /** One attribute, as a list of one when present and of none otherwise. */
  function AttrIf(attr: Option<string>): seq<string>
  {
    if Present(attr) then [attr.value] else []
  }

  /** Each attribute preceded by exactly one space. */
  function Spaced(attrs: seq<string>): string
  {
    if attrs == [] then "" else Spaced(attrs[..|attrs| - 1]) + " " + attrs[|attrs| - 1]
  }

  /** `<symbol id="N" a1 a2>data</symbol>`: no space before `>`. */
  function SymbolFragment(name: string, attrs: seq<string>, data: string): string
  {
    "<symbol id=\"" + name + "\"" + Spaced(attrs) + ">" + data + "</symbol>"
  }

  /** `dimensions ? dimensions.split(" ")[0] : false` */
  function Dim1(dimensions: Option<string>): Option<string>
  {
    if Present(dimensions) then Some(Split(dimensions.value, ' ')[0]) else None
  }

  /** `dimensions ? dimensions.split(" ")[1] : false`; the piece is `undefined` when there is no space. */
  function Dim2(dimensions: Option<string>): Option<string>
  {
    if Present(dimensions) && |Split(dimensions.value, ' ')| > 1 then Some(Split(dimensions.value, ' ')[1])
    else None
  }

  /**
   * The symbol text as the source builds it: `"<symbol "`, then
   * `id="N" ` and each truthy attribute followed by a space, then the final
   * space cut off with `slice(0, -1)` before `>` + data + `</symbol>`.
   */
  method BuildSymbol(spriteName: JsText, data: string, viewBox: Option<string>, dim1: Option<string>,
                     dim2: Option<string>) returns (sprite: string)
    ensures sprite == SymbolFragment(spriteName.Render(), PresentAttrs(viewBox, dim1, dim2), data)
  {
    var name := spriteName.Render();
    ghost var head := "<symbol id=\"" + name + "\"";
    sprite := "<symbol ";
    sprite := sprite + "id=\"" + name + "\" ";
    OpenTag(name);
    AttrStep(sprite, head, [], viewBox);
    if Present(viewBox) {
      sprite := sprite + viewBox.value + " ";
    }
    assert [] + AttrIf(viewBox) == AttrIf(viewBox);
    AttrStep(sprite, head, AttrIf(viewBox), dim1);
    if Present(dim1) {
      sprite := sprite + dim1.value + " ";
    }
    AttrStep(sprite, head, AttrIf(viewBox) + AttrIf(dim1), dim2);
    if Present(dim2) {
      sprite := sprite + dim2.value + " ";
    }
    CloseTag(head + Spaced(PresentAttrs(viewBox, dim1, dim2)));
    sprite := DropLast(sprite, 1) + ">" + data + "</symbol>";
  }

  /** `"<symbol "` followed by `id="N" ` is the opening with no attributes and one trailing space. */
  lemma OpenTag(name: string)
    ensures "<symbol " + "id=\"" + name + "\" " == "<symbol id=\"" + name + "\"" + Spaced([]) + " "
  {
  }

  /** Appending an attribute, when present, and a space to the opening adds it as one spaced attribute. */
  lemma AttrStep(sprite: string, head: string, attrs: seq<string>, attr: Option<string>)
    requires sprite == head + Spaced(attrs) + " "
    ensures (if Present(attr) then sprite + attr.value + " " else sprite) == head + Spaced(attrs + AttrIf(attr)) + " "
  {
    if Present(attr) {
      AddAttr(head, attrs, attr.value);
    } else {
      assert attrs + AttrIf(attr) == attrs;
    }
  }

  /** Appending an attribute and a space to the opening adds one spaced attribute. */
  lemma AddAttr(head: string, attrs: seq<string>, a: string)
    ensures head + Spaced(attrs) + " " + a + " " == head + Spaced(attrs + [a]) + " "
  {
    SpacedSnoc(attrs, a);
  }

  /** `slice(0, -1)` removes the trailing space. */
  lemma CloseTag(opening: string)
    ensures DropLast(opening + " ", 1) == opening
  {
  }

  lemma SpacedSnoc(attrs: seq<string>, a: string)
    ensures Spaced(attrs + [a]) == Spaced(attrs) + " " + a
  {
    assert (attrs + [a])[..|attrs|] == attrs;
  }

  /**
   * The body of the sprite loop up to the finished symbol: the sprite name,
   * the data, the viewBox when `includeViewBox`, the dimensions when
   * `includeDimensions` split at the first space, then the symbol text.
   */
  method SymbolFor(cfg: Config, state: Icon) returns (sprite: Call<string>)
    ensures sprite == FragmentFor(cfg, state)
  {
    var spriteName := cfg.getSpriteName(state);
    var data := cfg.extractData(state);
    if data.Threw? {
      return Threw;
    }
    var viewBox: Option<string> := None;
    if cfg.includeViewBox {
      var v := cfg.extractViewBox(state);
      if v.Threw? {
        return Threw;
      }
      viewBox := Some(v.value);
    }
    var dimensions: Option<string> := None;
    if cfg.includeDimensions {
      var d := cfg.extractDimensions(state);
      if d.Threw? {
        return Threw;
      }
      dimensions := Some(d.value);
    }
    var text := BuildSymbol(spriteName, data.value, viewBox, Dim1(dimensions), Dim2(dimensions));
    return Returned(text);
  }

  /**
   * The symbol one icon contributes, or Threw when an extractor throws.
   * Extractors are called in source order: data, then the viewBox when
   * `includeViewBox`, then the dimensions when `includeDimensions`.
   */
  function FragmentFor(cfg: Config, icon: Icon): Call<string>
  {
    if cfg.extractData(icon).Threw? then Threw
    else if cfg.includeViewBox && cfg.extractViewBox(icon).Threw? then Threw
    else if cfg.includeDimensions && cfg.extractDimensions(icon).Threw? then Threw
    else
      var viewBox := if cfg.includeViewBox then Some(cfg.extractViewBox(icon).value) else None;
      var dimensions := if cfg.includeDimensions then Some(cfg.extractDimensions(icon).value) else None;
      Returned(SymbolFragment(cfg.getSpriteName(icon).Render(),
                              PresentAttrs(viewBox, Dim1(dimensions), Dim2(dimensions)),
                              cfg.extractData(icon).value))
  }

  /** One enum member: `indentSize` spaces, the name, ` = "`, the sprite name and `",` + newline. */
  function EnumLine(indentSize: nat, enumName: string, spriteName: JsText): (line: string)
    ensures EndsWith(line, ",\n")
    ensures |line| >= indentSize + 2
    ensures line[..indentSize] == Repeat(' ', indentSize)
    ensures line[indentSize..|line| - 2] == enumName + " = \"" + spriteName.Render() + "\""
  {
    Repeat(' ', indentSize) + enumName + " = \"" + spriteName.Render() + "\",\n"
  }

  /** The member line for one enum target, or Threw when `getEnumName` throws. */
  function LineFor(cfg: Config, icon: Icon, t: EnumTarget): Call<string>
  {
    var withOutput := icon.(output := Some(t));
    match cfg.getEnumName(withOutput)
    case Threw => Threw
    case Returned(enumName) => Returned(EnumLine(cfg.indentSize, enumName, cfg.getSpriteName(withOutput)))
  }

  /**
   * The body of the enum loop up to the finished line: `output` set to the
   * target, then the sprite name and the enum name.
   */
  method EnumLineFor(cfg: Config, state: Icon, output: EnumTarget) returns (line: Call<string>)
    ensures line == LineFor(cfg, state, output)
  {
    var withOutput := state.(output := Some(output));
    var spriteName := cfg.getSpriteName(withOutput);
    var enumName := cfg.getEnumName(withOutput);
    if enumName.Threw? {
      return Threw;
    }
    return Returned(EnumLine(cfg.indentSize, enumName.value, spriteName));
  }

  /** The targets paired with their member lines, when no line throws. */
  function Lines(cfg: Config, icon: Icon, ts: seq<EnumTarget>): (ls: seq<(EnumTarget, string)>)
    requires forall k :: 0 <= k < |ts| ==> LineFor(cfg, icon, ts[k]).Returned?
    ensures |ls| == |ts|
    ensures forall k :: 0 <= k < |ts| ==> ls[k] == (ts[k], LineFor(cfg, icon, ts[k]).value)
    ensures MemberLines(ls)
  {
    seq(|ts|, k requires 0 <= k < |ts| => (ts[k], LineFor(cfg, icon, ts[k]).value))
  }

  // ---------------------------------------------------------------------------
  // The accumulators
  // ---------------------------------------------------------------------------

  /** Every sprite buffer starts with the text `undefined` (see AppendSprite). */
  ghost predicate SpritesValid(sprites: OrderedMap<string, string>)
  {
    sprites.Valid() && forall p :: p in sprites.vals ==> "undefined" <= sprites.vals[p]
  }

  /** An enum file's groups: at least one, each buffer a sequence of member lines ending in `,` + newline. */
  ghost predicate GroupsValid(groups: OrderedMap<string, string>)
  {
    && groups.Valid()
    && |groups.keys| > 0
    && forall n :: n in groups.vals ==> EndsWith(groups.vals[n], ",\n")
  }

  ghost predicate EnumsValid(enums: OrderedMap<string, OrderedMap<string, string>>)
  {
    enums.Valid() && forall p :: p in enums.vals ==> GroupsValid(enums.vals[p])
  }

  /** `spriteChunks` and `enumChunks` as values. */
  datatype Chunks = Chunks(sprites: OrderedMap<string, string>, enums: OrderedMap<string, OrderedMap<string, string>>) {
    ghost predicate Valid() {
      SpritesValid(sprites) && EnumsValid(enums)
    }
  }

  const NO_CHUNKS: Chunks := Chunks(Empty(), Empty())

  /**
   * `spriteChunks[path] += fragment`. The record starts as `{}`, so the first
   * append to a path reads `undefined` and stores the text `undefined`
   * followed by the fragment.
   */
  function AppendSprite(sprites: OrderedMap<string, string>, path: string, fragment: string)
    : (r: OrderedMap<string, string>)
    ensures SpritesValid(sprites) ==> SpritesValid(r)
  {
    sprites.Put(path, (if path in sprites.vals then sprites.vals[path] else "undefined") + fragment)
  }

  /** The sprite loop of one file: the same fragment appended for each target in turn. */
  function AppendSprites(sprites: OrderedMap<string, string>, targets: seq<string>, fragment: string)
    : (r: OrderedMap<string, string>)
    ensures SpritesValid(sprites) ==> SpritesValid(r)
  {
    if targets == [] then sprites
    else AppendSprite(AppendSprites(sprites, targets[..|targets| - 1], fragment), targets[|targets| - 1], fragment)
  }

  /** One more target: one more append. */
  lemma AppendSpritesSnoc(sprites: OrderedMap<string, string>, targets: seq<string>, path: string, fragment: string)
    ensures AppendSprites(sprites, targets + [path], fragment) == AppendSprite(AppendSprites(sprites, targets, fragment), path, fragment)
  {
    assert (targets + [path])[..|targets|] == targets;
  }

  /**
   * One turn of the enum loop: `enumChunks[path]` becomes `{}` when absent,
   * `enumChunks[path][name]` becomes `""` when absent, and the line is appended.
   */
  function AppendEnum(enums: OrderedMap<string, OrderedMap<string, string>>, t: EnumTarget, line: string)
    : (r: OrderedMap<string, OrderedMap<string, string>>)
    ensures EnumsValid(enums) && EndsWith(line, ",\n") ==> EnumsValid(r)
  {
    AppendEnumValid(enums, t, line);
    var group := if t.path in enums.vals then enums.vals[t.path] else Empty();
    var buffer := if t.name in group.vals then group.vals[t.name] else "";
    enums.Put(t.path, group.Put(t.name, buffer + line))
  }

  /** The step of AppendEnum that keeps the records valid. */
  lemma AppendEnumValid(enums: OrderedMap<string, OrderedMap<string, string>>, t: EnumTarget, line: string)
    ensures EnumsValid(enums) && EndsWith(line, ",\n") ==>
              var group := if t.path in enums.vals then enums.vals[t.path] else Empty();
              var buffer := if t.name in group.vals then group.vals[t.name] else "";
              EnumsValid(enums.Put(t.path, group.Put(t.name, buffer + line)))
  {
    if EnumsValid(enums) && EndsWith(line, ",\n") {
      var group := if t.path in enums.vals then enums.vals[t.path] else Empty();
      var buffer := if t.name in group.vals then group.vals[t.name] else "";
      assert group.Valid() && forall n :: n in group.vals ==> EndsWith(group.vals[n], ",\n");
      EndsWithAppend(buffer, line, ",\n");
      GroupPutValid(group, t.name, buffer + line);
      EnumsPutValid(enums, t.path, group.Put(t.name, buffer + line));
    }
  }

  lemma EnumsPutValid(enums: OrderedMap<string, OrderedMap<string, string>>, path: string,
                      groups: OrderedMap<string, string>)
    requires EnumsValid(enums) && GroupsValid(groups)
    ensures EnumsValid(enums.Put(path, groups))
  {
  }

  /** Putting a member-line buffer into valid groups gives valid, non-empty groups. */
  lemma GroupPutValid(group: OrderedMap<string, string>, name: string, text: string)
    requires group.Valid() && forall n :: n in group.vals ==> EndsWith(group.vals[n], ",\n")
    requires EndsWith(text, ",\n")
    ensures GroupsValid(group.Put(name, text))
  {
    var r := group.Put(name, text);
    assert name in r.vals;
  }

  lemma EndsWithAppend(a: string, b: string, suffix: string)
    requires EndsWith(b, suffix)
    ensures EndsWith(a + b, suffix)
  {
    assert (a + b)[|a + b| - |suffix|..] == b[|b| - |suffix|..];
  }

  /** The enum loop of one file. */
  function AppendEnums(enums: OrderedMap<string, OrderedMap<string, string>>, lines: seq<(EnumTarget, string)>)
    : (r: OrderedMap<string, OrderedMap<string, string>>)
    ensures EnumsValid(enums) && MemberLines(lines) ==> EnumsValid(r)
  {
    if lines == [] then enums
    else
      var last := lines[|lines| - 1];
      AppendEnum(AppendEnums(enums, lines[..|lines| - 1]), last.0, last.1)
  }

  /** Every line is a member line, ending in `,` and a newline. */
  ghost predicate MemberLines(lines: seq<(EnumTarget, string)>)
  {
    forall k :: 0 <= k < |lines| ==> EndsWith(lines[k].1, ",\n")
  }

  /**
   * Resetting a missing or empty buffer to `""` and then appending is
   * appending to the buffer, or to `""` when it is missing.
   */
  lemma ResetThenAppend(group: OrderedMap<string, string>, name: string, line: string)
    ensures var reset := if name !in group.vals || group.vals[name] == "" then group.Put(name, "") else group;
            reset.Put(name, reset.vals[name] + line)
            == group.Put(name, (if name in group.vals then group.vals[name] else "") + line)
  {
    if name !in group.vals || group.vals[name] == "" {
      PutTwice(group, name, "", "" + line);
    }
  }

  lemma LinesSnoc(cfg: Config, icon: Icon, ts: seq<EnumTarget>, j: nat)
    requires j < |ts|
    requires forall k :: 0 <= k <= j ==> LineFor(cfg, icon, ts[k]).Returned?
    ensures Lines(cfg, icon, ts[..j + 1]) == Lines(cfg, icon, ts[..j]) + [(ts[j], LineFor(cfg, icon, ts[j]).value)]
  {
  }

  lemma AppendEnumsSnoc(enums: OrderedMap<string, OrderedMap<string, string>>, lines: seq<(EnumTarget, string)>,
                        last: (EnumTarget, string))
    ensures AppendEnums(enums, lines + [last]) == AppendEnum(AppendEnums(enums, lines), last.0, last.1)
  {
    assert (lines + [last])[..|lines|] == lines;
  }

  /** The buffer `enumChunks[path][name]`, if there is one. */
  function EnumBuffer(enums: OrderedMap<string, OrderedMap<string, string>>, path: string, name: string): Option<string>
  {
    if path in enums.vals && name in enums.vals[path].vals then Some(enums.vals[path].vals[name]) else None
  }

  // ---------------------------------------------------------------------------
  // One directory entry
  // ---------------------------------------------------------------------------

  /** A directory listing per path, and the text of each file by `dir/name`. */
  datatype FileSystem = FileSystem(dirs: map<string, seq<string>>, files: map<string, string>)

  /** What processing one entry does to the accumulators. */
  datatype Outcome =
    | Skipped
    | Aborted
    | Processed(spriteTargets: seq<string>, fragment: string, lines: seq<(EnumTarget, string)>)

  /** `fullFilePath.split(".")[0]`: the entry name up to its first `.`, or all of it. */
  function BaseName(entry: string): (base: string)
    ensures '.' !in base
    ensures base <= entry
    ensures |base| < |entry| ==> entry[|base|] == '.'
    ensures '.' !in entry ==> base == entry
  {
    FirstPiece(entry, '.');
    Split(entry, '.')[0]
  }

  /** The icon state after the file is read and its id derived. */
  function IconFor(cfg: Config, inputId: string, filePath: string, data: string): Icon
  {
    Icon(inputId, filePath, filePath, data, cfg.getSvgId(Loaded(inputId, filePath, filePath, data)), None)
  }

  /** What the pipeline does with the directory entry `entry` of the input group `inputId` at `inputPath`. */
  function FileOutcome(cfg: Config, fs: FileSystem, inputPath: string, inputId: string, entry: string): (o: Outcome)
    ensures o.Processed? ==> MemberLines(o.lines)
  {
    var filePath := BaseName(entry);
    var candidate := Candidate(inputId, filePath);
    var spriteOutputs := cfg.getSpriteOutputs(candidate);
    var enumOutputs := cfg.getEnumOutputs(candidate);
    if |spriteOutputs| == 0 || |enumOutputs| == 0 then Skipped
    else if inputPath + "/" + entry !in fs.files then Aborted
    else IconOutcome(cfg, IconFor(cfg, inputId, filePath, fs.files[inputPath + "/" + entry]), spriteOutputs, enumOutputs)
  }

  /** Every enum target gets its member line: `getEnumName` throws for none of them. */
  predicate AllLines(cfg: Config, icon: Icon, enumTargets: seq<EnumTarget>)
  {
    forall k :: 0 <= k < |enumTargets| ==> LineFor(cfg, icon, enumTargets[k]).Returned?
  }

  /** What a read icon contributes: its symbol to each sprite target and its member line to each enum target. */
  function IconOutcome(cfg: Config, icon: Icon, spriteTargets: seq<string>, enumTargets: seq<EnumTarget>): (o: Outcome)
    ensures o.Processed? ==> MemberLines(o.lines)
  {
    if FragmentFor(cfg, icon).Threw? || !AllLines(cfg, icon, enumTargets) then Aborted
    else Processed(spriteTargets, FragmentFor(cfg, icon).value, Lines(cfg, icon, enumTargets))
  }

  /** The accumulators after an entry that was not aborted. */
  function Apply(ch: Chunks, o: Outcome): (r: Chunks)
    requires o.Processed? ==> MemberLines(o.lines)
    ensures ch.Valid() ==> r.Valid()
  {
    match o
    case Processed(targets, fragment, lines) =>
      Chunks(AppendSprites(ch.sprites, targets, fragment), AppendEnums(ch.enums, lines))
    case _ => ch
  }

  // ---------------------------------------------------------------------------
  // The whole run
  // ---------------------------------------------------------------------------

  /** The accumulators after the entries of one input group, or None when the run aborts. */
  function RunEntries(cfg: Config, fs: FileSystem, inputPath: string, inputId: string, entries: seq<string>,
                      ch: Chunks): (r: Option<Chunks>)
    ensures ch.Valid() && r.Some? ==> r.value.Valid()
    decreases |entries|
  {
    if entries == [] then Some(ch)
    else
      var o := FileOutcome(cfg, fs, inputPath, inputId, entries[0]);
      if o.Aborted? then None
      else RunEntries(cfg, fs, inputPath, inputId, entries[1..], Apply(ch, o))
  }

  /** The accumulators after the input groups `ids`, in order, or None when the run aborts. */
  function RunInputs(cfg: Config, fs: FileSystem, ids: seq<string>, ch: Chunks): (r: Option<Chunks>)
    requires forall k :: 0 <= k < |ids| ==> ids[k] in cfg.input.vals
    ensures ch.Valid() && r.Some? ==> r.value.Valid()
  {
    if ids == [] then Some(ch)
    else
      var inputPath := cfg.input.vals[ids[0]];
      if inputPath !in fs.dirs then None
      else
        match RunEntries(cfg, fs, inputPath, ids[0], fs.dirs[inputPath], ch)
        case None => None
        case Some(next) => RunInputs(cfg, fs, ids[1..], next)
  }

  /** One file written at the end, after its parent directory is created (when the path has one). */
  datatype Write = Write(dir: Option<string>, path: string, text: string)

  /** The directory created for `path`: its `/`-pieces but the last, joined by `/`, when it has a `/`. */
  function ParentDir(path: string): Option<string>
  {
    if Contains(path, "/") then
      var pieces := Split(path, '/');
      Some(Join(pieces[..|pieces| - 1], "/"))
    else None
  }

  /** The sprite file: root tag, the accumulated fragments, `</svg>`. */
  function SpriteFile(cfg: Config, path: string, buffer: string): string
  {
    cfg.getSvgTag(path) + buffer + "</svg>"
  }

  /** The `coalesceObj` callback of the enum pass: one `export enum` block per group. */
  function EnumBlockStep(buffer: string, acc: string, name: string, i: nat): string
  {
    acc + "export enum " + name + " {\n" + DropLast(buffer, 2) + "\n}\n\n"
  }

  /** The `coalesceObj` final step of the enum pass: `v => v.slice(0, -1)`. */
  function DropLastChar(v: string): string
  {
    DropLast(v, 1)
  }

  /** The enum file for one path. */
  function EnumFile(groups: OrderedMap<string, string>): string
    requires groups.Valid()
  {
    Util.ApplyThen(Some(DropLastChar), Util.FoldObj(groups, |groups.keys|, "", EnumBlockStep))
  }

  /** The sprite writes for the first `n` sprite paths. */
  function SpriteWrites(cfg: Config, sprites: OrderedMap<string, string>, n: nat): seq<Write>
    requires sprites.Valid() && n <= |sprites.keys|
  {
    if n == 0 then []
    else
      var path := sprites.keys[n - 1];
      SpriteWrites(cfg, sprites, n - 1) + [Write(ParentDir(path), path, SpriteFile(cfg, path, sprites.vals[path]))]
  }

  /** The enum writes for the first `n` enum paths. */
  function EnumWrites(enums: OrderedMap<string, OrderedMap<string, string>>, n: nat): seq<Write>
    requires EnumsValid(enums) && n <= |enums.keys|
  {
    if n == 0 then []
    else
      var path := enums.keys[n - 1];
      EnumWrites(enums, n - 1) + [Write(ParentDir(path), path, EnumFile(enums.vals[path]))]
  }

  /** All writes: every sprite file, then every enum file, each in key order. */
  function Writes(cfg: Config, ch: Chunks): seq<Write>
    requires ch.Valid()
  {
    SpriteWrites(cfg, ch.sprites, |ch.sprites.keys|) + EnumWrites(ch.enums, |ch.enums.keys|)
  }

  /** What a run writes, or None when it aborts. */
  function Generated(cfg: Config, fs: FileSystem): Option<seq<Write>>
    requires cfg.input.Valid()
  {
    assert NO_CHUNKS.Valid();
    match RunInputs(cfg, fs, cfg.input.keys, NO_CHUNKS)
    case None => None
    case Some(ch) => Some(Writes(cfg, ch))
  }

  // ---------------------------------------------------------------------------
  // The run, step by step
  // ---------------------------------------------------------------------------

  /** The two accumulators, `spriteChunks` and `enumChunks`, updated in place entry by entry. */
  class Generator {
    var spriteChunks: OrderedMap<string, string>
    var enumChunks: OrderedMap<string, OrderedMap<string, string>>

    function State(): Chunks
      reads this
    {
      Chunks(spriteChunks, enumChunks)
    }

    ghost predicate Valid()
      reads this
    {
      State().Valid()
    }

    /** Both records start empty. */
    constructor ()
      ensures Valid() && State() == NO_CHUNKS
    {
      spriteChunks := Empty();
      enumChunks := Empty();
    }

    /**
     * One turn of the enum loop: create the record for the path when it is
     * missing, reset a missing or empty buffer to `""`, then append the line.
     */
    method AddEnumLine(t: EnumTarget, line: string)
      modifies this
      ensures enumChunks == AppendEnum(old(enumChunks), t, line)
      ensures spriteChunks == old(spriteChunks)
    {
      ghost var start := enumChunks;
      if t.path !in enumChunks.vals {
        enumChunks := enumChunks.Put(t.path, Empty());
      }
      var group := enumChunks.vals[t.path];
      ghost var initial := group;
      if t.name !in group.vals || group.vals[t.name] == "" {
        group := group.Put(t.name, "");
        PutTwice(enumChunks, t.path, initial, group);
        enumChunks := enumChunks.Put(t.path, group);
      }
      ResetThenAppend(initial, t.name, line);
      var updated := group.Put(t.name, group.vals[t.name] + line);
      PutTwice(start, t.path, Empty(), updated);
      PutTwice(start, t.path, initial, updated);
      enumChunks := enumChunks.Put(t.path, updated);
    }

    /**
     * One turn of the sprite loop: the symbol for `state`, appended to
     * `spriteChunks[path]`, where a missing entry reads as `undefined`.
     * Fails, changing nothing, when an extractor throws.
     */
    method AddSprite(cfg: Config, state: Icon, path: string) returns (ok: bool)
      modifies this
      ensures ok <==> FragmentFor(cfg, state).Returned?
      ensures spriteChunks == if ok then AppendSprite(old(spriteChunks), path, FragmentFor(cfg, state).value)
                              else old(spriteChunks)
      ensures enumChunks == old(enumChunks)
    {
      var sprite := SymbolFor(cfg, state);
      if sprite.Threw? {
        return false;
      }
      var current := spriteChunks.Get(path);
      spriteChunks := spriteChunks.Put(path, current.GetOr("undefined") + sprite.value);
      return true;
    }

    /**
     * The sprite loop of one file: the symbol for `state`, appended to each
     * sprite target in turn. Fails when an extractor throws.
     */
    method AddSprites(cfg: Config, state: Icon, targets: seq<string>) returns (ok: bool)
      requires |targets| > 0
      modifies this
      ensures ok <==> FragmentFor(cfg, state).Returned?
      ensures ok ==> spriteChunks == AppendSprites(old(spriteChunks), targets, FragmentFor(cfg, state).value)
      ensures enumChunks == old(enumChunks)
    {
      ghost var fragment := FragmentFor(cfg, state);
      for i := 0 to |targets|
        invariant i > 0 ==> fragment.Returned?
        invariant i > 0 ==> spriteChunks == AppendSprites(old(spriteChunks), targets[..i], fragment.value)
        invariant i == 0 ==> spriteChunks == old(spriteChunks)
        invariant enumChunks == old(enumChunks)
      {
        ok := AddSprite(cfg, state, targets[i]);
        if !ok {
          return;
        }
        assert targets[..i + 1] == targets[..i] + [targets[i]];
        AppendSpritesSnoc(old(spriteChunks), targets[..i], targets[i], fragment.value);
      }
      assert targets[..|targets|] == targets;
      return true;
    }

    /**
     * The enum loop of one file: a member line per enum target, with
     * `output` set to that target. Fails when `getEnumName` throws.
     */
    method AddEnumLines(cfg: Config, state: Icon, targets: seq<EnumTarget>) returns (ok: bool)
      modifies this
      ensures ok <==> forall k :: 0 <= k < |targets| ==> LineFor(cfg, state, targets[k]).Returned?
      ensures ok ==> enumChunks == AppendEnums(old(enumChunks), Lines(cfg, state, targets))
      ensures spriteChunks == old(spriteChunks)
    {
      ghost var done: seq<(EnumTarget, string)> := [];
      for j := 0 to |targets|
        invariant forall k :: 0 <= k < j ==> LineFor(cfg, state, targets[k]).Returned?
        invariant done == Lines(cfg, state, targets[..j])
        invariant enumChunks == AppendEnums(old(enumChunks), done)
        invariant spriteChunks == old(spriteChunks)
      {
        var line := EnumLineFor(cfg, state, targets[j]);
        if line.Threw? {
          return false;
        }
        AddEnumLine(targets[j], line.value);
        LinesSnoc(cfg, state, targets, j);
        AppendEnumsSnoc(old(enumChunks), done, (targets[j], line.value));
        done := done + [(targets[j], line.value)];
      }
      assert targets[..|targets|] == targets;
      return true;
    }

    /**
     * Processes the directory entry `entry` of the input group `inputId`
     * found at `inputPath`. Returns false when the run aborts: the file
     * cannot be read, or a plug-in throws. The accumulators then hold
     * partial updates, which are never written.
     */
    method ProcessFile(cfg: Config, fs: FileSystem, inputPath: string, inputId: string, entry: string)
      returns (ok: bool)
      requires Valid()
      modifies this
      ensures ok <==> !FileOutcome(cfg, fs, inputPath, inputId, entry).Aborted?
      ensures ok ==> Valid() && State() == Apply(old(State()), FileOutcome(cfg, fs, inputPath, inputId, entry))
    {
      var filePath := Split(entry, '.')[0];
      var candidate := Candidate(inputId, filePath);
      var spriteOutputs := cfg.getSpriteOutputs(candidate);
      var enumOutputs := cfg.getEnumOutputs(candidate);
      if |spriteOutputs| == 0 || |enumOutputs| == 0 {
        return true;
      }
      if inputPath + "/" + entry !in fs.files {
        return false;
      }
      var fileContents := fs.files[inputPath + "/" + entry];
      var svgId := cfg.getSvgId(Loaded(inputId, filePath, filePath, fileContents));
      var state := Icon(inputId, filePath, filePath, fileContents, svgId, None);
      assert state == IconFor(cfg, inputId, filePath, fileContents);
      ghost var outcome := IconOutcome(cfg, state, spriteOutputs, enumOutputs);
      assert FileOutcome(cfg, fs, inputPath, inputId, entry) == outcome;
      ok := AddSprites(cfg, state, spriteOutputs);
      if !ok {
        return;
      }
      ok := AddEnumLines(cfg, state, enumOutputs);
      if ok {
        assert outcome == Processed(spriteOutputs, FragmentFor(cfg, state).value, Lines(cfg, state, enumOutputs));
      }
    }

    /**
     * Assembles every sprite file and then every enum file, in the order
     * their paths were first written to.
     */
    method Emit(cfg: Config) returns (writes: seq<Write>)
      requires Valid()
      ensures writes == Writes(cfg, State())
    {
      var sprites := SpriteFiles(cfg);
      var enums := EnumFiles();
      writes := sprites + enums;
    }

    /** The sprite pass: root tag, buffer and `</svg>` for each sprite path. */
    method SpriteFiles(cfg: Config) returns (writes: seq<Write>)
      requires spriteChunks.Valid()
      ensures writes == SpriteWrites(cfg, spriteChunks, |spriteChunks.keys|)
    {
      writes := [];
      var spritePaths := spriteChunks.keys;
      for i := 0 to |spritePaths|
        invariant writes == SpriteWrites(cfg, spriteChunks, i)
      {
        var path := spritePaths[i];
        var tag := cfg.getSvgTag(path);
        writes := writes + [Write(ParentDir(path), path, tag + spriteChunks.vals[path] + "</svg>")];
      }
    }

    /** The enum pass: one `export enum` block per group for each enum path. */
    method EnumFiles() returns (writes: seq<Write>)
      requires EnumsValid(enumChunks)
      ensures writes == EnumWrites(enumChunks, |enumChunks.keys|)
    {
      writes := [];
      var enums := enumChunks;
      for i := 0 to |enums.keys|
        invariant writes == EnumWrites(enums, i)
      {
        var path := enums.keys[i];
        var enumFile := EnumFileText(enums.vals[path]);
        writes := writes + [Write(ParentDir(path), path, enumFile)];
      }
    }
  }

  /** `coalesceObj(enumNames, "", block, v => v.slice(0, -1))`. */
  method EnumFileText(groups: OrderedMap<string, string>) returns (text: string)
    requires groups.Valid()
    ensures text == EnumFile(groups)
  {
    text := Util.CoalesceObj(groups, "", EnumBlockStep, Some(DropLastChar));
  }

  /** The generator run over the file system `fs`: the writes it performs, or None when it aborts. */
  method Run(cfg: Config, fs: FileSystem) returns (result: Option<seq<Write>>)
    requires cfg.input.Valid()
    ensures result == Generated(cfg, fs)
  {
    var g := new Generator();
    var ids := cfg.input.keys;
    for k := 0 to |ids|
      invariant g.Valid()
      invariant RunInputs(cfg, fs, ids, NO_CHUNKS) == RunInputs(cfg, fs, ids[k..], g.State())
    {
      var inputId := ids[k];
      var inputPath := cfg.input.vals[inputId];
      if inputPath !in fs.dirs {
        return None;
      }
      var inputDir := fs.dirs[inputPath];
      ghost var before := g.State();
      for i := 0 to |inputDir|
        invariant g.Valid()
        invariant RunEntries(cfg, fs, inputPath, inputId, inputDir, before)
                  == RunEntries(cfg, fs, inputPath, inputId, inputDir[i..], g.State())
      {
        var ok := g.ProcessFile(cfg, fs, inputPath, inputId, inputDir[i]);
        if !ok {
          return None;
        }
        assert inputDir[i..][1..] == inputDir[i + 1..];
      }
      assert ids[k..][1..] == ids[k + 1..];
    }
    var writes := g.Emit(cfg);
    result := Some(writes);
  }
}
