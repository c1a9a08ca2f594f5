/**
 * What the generation pipeline guarantees, stated over the functions that
 * specify it: which entries are skipped, how the sprite and enum buffers
 * accumulate, when a run aborts, and the shape of the files it writes.
 */
module GenerateProperties {
  import opened Wrappers
  import opened Text
  import opened Ordered
  import opened Generate

  // ---------------------------------------------------------------------------
  // Skipping and aborting
  // ---------------------------------------------------------------------------

  /**
   * An entry is skipped exactly when one of the two target lists for its base
   * name is empty. A skipped entry's file is never read, so the outcome does
   * not depend on the file system, and it leaves the accumulators alone.
   */
  lemma SkipRule(cfg: Config, fs: FileSystem, other: FileSystem, inputPath: string, inputId: string, entry: string,
                 ch: Chunks)
    ensures var c := Candidate(inputId, BaseName(entry));
            FileOutcome(cfg, fs, inputPath, inputId, entry).Skipped?
            <==> |cfg.getSpriteOutputs(c)| == 0 || |cfg.getEnumOutputs(c)| == 0
    ensures FileOutcome(cfg, fs, inputPath, inputId, entry).Skipped?
            ==> FileOutcome(cfg, other, inputPath, inputId, entry).Skipped?
    ensures FileOutcome(cfg, fs, inputPath, inputId, entry).Skipped?
            ==> Apply(ch, FileOutcome(cfg, fs, inputPath, inputId, entry)) == ch
  {
  }

  /**
   * With the built-in target plug-ins no entry is skipped: each icon goes to
   * one sprite file named after its input group, and to the one enum target
   * whose path and name are both `undefined`.
   */
  lemma DefaultsSkipNothing(extractData: Icon -> Call<string>, extractViewBox: Icon -> Call<string>,
                            extractDimensions: Icon -> Call<string>, fs: FileSystem, inputPath: string,
                            inputId: string, entry: string)
    ensures var o := FileOutcome(DefaultConfig(extractData, extractViewBox, extractDimensions), fs, inputPath,
                                 inputId, entry);
            && !o.Skipped?
            && (o.Processed? ==> && o.spriteTargets == [inputId] && |o.lines| == 1
                                 && o.lines[0].0 == EnumTarget("undefined", "undefined"))
  {
  }

  /** An entry that is not skipped and has no file aborts the run. */
  lemma MissingFileAborts(cfg: Config, fs: FileSystem, inputPath: string, inputId: string, entry: string)
    requires inputPath + "/" + entry !in fs.files
    ensures !FileOutcome(cfg, fs, inputPath, inputId, entry).Skipped?
            ==> FileOutcome(cfg, fs, inputPath, inputId, entry).Aborted?
  {
  }

  /** The entries of one group fail exactly when one of them aborts, whatever was accumulated before. */
  lemma {:induction false} RunEntriesAborts(cfg: Config, fs: FileSystem, inputPath: string, inputId: string,
                                            entries: seq<string>, ch: Chunks)
    ensures RunEntries(cfg, fs, inputPath, inputId, entries, ch).None?
            <==> exists k :: 0 <= k < |entries| && FileOutcome(cfg, fs, inputPath, inputId, entries[k]).Aborted?
    decreases |entries|
  {
    if entries != [] {
      AbortsCons(cfg, fs, inputPath, inputId, entries);
      var o := FileOutcome(cfg, fs, inputPath, inputId, entries[0]);
      if !o.Aborted? {
        RunEntriesAborts(cfg, fs, inputPath, inputId, entries[1..], Apply(ch, o));
      }
    }
  }

  /** Some entry aborts exactly when the first one does or one of the rest does. */
  lemma AbortsCons(cfg: Config, fs: FileSystem, inputPath: string, inputId: string, entries: seq<string>)
    requires entries != []
    ensures (exists k :: 0 <= k < |entries| && FileOutcome(cfg, fs, inputPath, inputId, entries[k]).Aborted?)
            <==> || FileOutcome(cfg, fs, inputPath, inputId, entries[0]).Aborted?
                 || exists k :: 0 <= k < |entries[1..]| && FileOutcome(cfg, fs, inputPath, inputId, entries[1..][k]).Aborted?
  {
    var rest := entries[1..];
    if exists k :: 0 <= k < |rest| && FileOutcome(cfg, fs, inputPath, inputId, rest[k]).Aborted? {
      var k :| 0 <= k < |rest| && FileOutcome(cfg, fs, inputPath, inputId, rest[k]).Aborted?;
      assert entries[k + 1] == rest[k];
    }
    if exists k :: 0 <= k < |entries| && FileOutcome(cfg, fs, inputPath, inputId, entries[k]).Aborted? {
      var k :| 0 <= k < |entries| && FileOutcome(cfg, fs, inputPath, inputId, entries[k]).Aborted?;
      if k > 0 {
        assert rest[k - 1] == entries[k];
      }
    }
  }

  ghost predicate GroupFails(cfg: Config, fs: FileSystem, inputId: string)
    requires inputId in cfg.input.vals
  {
    var inputPath := cfg.input.vals[inputId];
    inputPath !in fs.dirs
    || exists k :: 0 <= k < |fs.dirs[inputPath]| && FileOutcome(cfg, fs, inputPath, inputId, fs.dirs[inputPath][k]).Aborted?
  }

  /** The groups fail exactly when one of them fails. */
  lemma {:induction false} RunInputsAborts(cfg: Config, fs: FileSystem, ids: seq<string>, ch: Chunks)
    requires forall k :: 0 <= k < |ids| ==> ids[k] in cfg.input.vals
    ensures RunInputs(cfg, fs, ids, ch).None? <==> exists k :: 0 <= k < |ids| && GroupFails(cfg, fs, ids[k])
    decreases |ids|
  {
    if ids != [] {
      var inputPath := cfg.input.vals[ids[0]];
      if inputPath in fs.dirs {
        RunEntriesAborts(cfg, fs, inputPath, ids[0], fs.dirs[inputPath], ch);
        match RunEntries(cfg, fs, inputPath, ids[0], fs.dirs[inputPath], ch)
        case None =>
          assert GroupFails(cfg, fs, ids[0]);
        case Some(next) =>
          var rest := ids[1..];
          RunInputsAborts(cfg, fs, rest, next);
          if exists k :: 0 <= k < |rest| && GroupFails(cfg, fs, rest[k]) {
            var k :| 0 <= k < |rest| && GroupFails(cfg, fs, rest[k]);
            assert ids[k + 1] == rest[k];
          }
          if exists k :: 0 <= k < |ids| && GroupFails(cfg, fs, ids[k]) {
            var k :| 0 <= k < |ids| && GroupFails(cfg, fs, ids[k]);
            assert k > 0 && rest[k - 1] == ids[k];
          }
      } else {
        assert GroupFails(cfg, fs, ids[0]);
      }
    }
  }

  /**
   * All or nothing: a run writes nothing at all when any group's directory
   * is missing or any entry aborts, and otherwise writes everything.
   */
  lemma AllOrNothing(cfg: Config, fs: FileSystem)
    requires cfg.input.Valid()
    ensures Generated(cfg, fs).None? <==> exists k :: 0 <= k < |cfg.input.keys| && GroupFails(cfg, fs, cfg.input.keys[k])
  {
    RunInputsAborts(cfg, fs, cfg.input.keys, NO_CHUNKS);
  }

  /** Entries that are all skipped leave the accumulators as they were. */
  lemma {:induction false} RunEntriesSkipped(cfg: Config, fs: FileSystem, inputPath: string, inputId: string,
                                             entries: seq<string>, ch: Chunks)
    requires forall k :: 0 <= k < |entries| ==> FileOutcome(cfg, fs, inputPath, inputId, entries[k]).Skipped?
    ensures RunEntries(cfg, fs, inputPath, inputId, entries, ch) == Some(ch)
    decreases |entries|
  {
    if entries != [] {
      assert FileOutcome(cfg, fs, inputPath, inputId, entries[0]).Skipped?;
      var rest := entries[1..];
      assert forall k :: 0 <= k < |rest| ==> rest[k] == entries[k + 1];
      RunEntriesSkipped(cfg, fs, inputPath, inputId, rest, ch);
    }
  }

  /** Every group's directory exists and every entry in it is skipped. */
  ghost predicate NothingQualifies(cfg: Config, fs: FileSystem, ids: seq<string>)
    requires forall k :: 0 <= k < |ids| ==> ids[k] in cfg.input.vals
  {
    forall k :: 0 <= k < |ids| ==>
      var inputPath := cfg.input.vals[ids[k]];
      && inputPath in fs.dirs
      && forall e :: 0 <= e < |fs.dirs[inputPath]| ==>
           FileOutcome(cfg, fs, inputPath, ids[k], fs.dirs[inputPath][e]).Skipped?
  }

  lemma {:induction false} RunInputsSkipped(cfg: Config, fs: FileSystem, ids: seq<string>, ch: Chunks)
    requires forall k :: 0 <= k < |ids| ==> ids[k] in cfg.input.vals
    requires NothingQualifies(cfg, fs, ids)
    ensures RunInputs(cfg, fs, ids, ch) == Some(ch)
    decreases |ids|
  {
    if ids != [] {
      var inputPath := cfg.input.vals[ids[0]];
      RunEntriesSkipped(cfg, fs, inputPath, ids[0], fs.dirs[inputPath], ch);
      var rest := ids[1..];
      assert forall k :: 0 <= k < |rest| ==> rest[k] == ids[k + 1];
      RunInputsSkipped(cfg, fs, rest, ch);
    }
  }

  /** When no entry qualifies for any target the run succeeds and writes no file. */
  lemma NothingWritten(cfg: Config, fs: FileSystem)
    requires cfg.input.Valid()
    requires NothingQualifies(cfg, fs, cfg.input.keys)
    ensures Generated(cfg, fs) == Some([])
  {
    RunInputsSkipped(cfg, fs, cfg.input.keys, NO_CHUNKS);
    assert SpriteWrites(cfg, NO_CHUNKS.sprites, 0) == [];
    assert EnumWrites(NO_CHUNKS.enums, 0) == [];
    assert Writes(cfg, NO_CHUNKS) == [];
  }

  // ---------------------------------------------------------------------------
  // Sprite buffers
  // ---------------------------------------------------------------------------

  /** How many times `x` occurs in `xs`. */
  function Count(xs: seq<string>, x: string): nat
  {
    if xs == [] then 0 else Count(xs[..|xs| - 1], x) + (if xs[|xs| - 1] == x then 1 else 0)
  }

  /** `n` copies of `s`, one after another. */
  function Copies(s: string, n: nat): string
  {
    if n == 0 then "" else Copies(s, n - 1) + s
  }

  /**
   * The sprite loop only appends: the paths already present keep their
   * order and come first, a path gets one copy of the fragment per time it
   * is listed, a path met for the first time starts from the text
   * `undefined`, and every other path is unchanged.
   */
  lemma {:induction false} SpriteBuffers(sprites: OrderedMap<string, string>, targets: seq<string>, fragment: string,
                                         path: string)
    ensures sprites.keys <= AppendSprites(sprites, targets, fragment).keys
    ensures path in AppendSprites(sprites, targets, fragment).vals <==> path in sprites.vals || path in targets
    ensures path in AppendSprites(sprites, targets, fragment).vals ==>
              AppendSprites(sprites, targets, fragment).vals[path]
              == (if path in sprites.vals then sprites.vals[path] else "undefined") + Copies(fragment, Count(targets, path))
    decreases |targets|
  {
    if targets != [] {
      var init := targets[..|targets| - 1];
      var last := targets[|targets| - 1];
      SpriteBuffers(sprites, init, fragment, path);
      var before := AppendSprites(sprites, init, fragment);
      var base := if path in sprites.vals then sprites.vals[path] else "undefined";
      if path !in init {
        CountAbsent(init, path);
      }
      InSnoc(targets, path);
      SpriteBufferStep(sprites, before, base, Count(init, path), path in init, last, fragment, path);
    }
  }

  /** Membership in a non-empty sequence: in all but the last, or the last. */
  lemma InSnoc(xs: seq<string>, x: string)
    requires xs != []
    ensures x in xs <==> x in xs[..|xs| - 1] || x == xs[|xs| - 1]
  {
    assert xs == xs[..|xs| - 1] + [xs[|xs| - 1]];
  }

  /** One target more: the facts of SpriteBuffers carried over one append. */
  lemma SpriteBufferStep(sprites: OrderedMap<string, string>, before: OrderedMap<string, string>, base: string,
                         count: nat, listed: bool, last: string, fragment: string, path: string)
    requires path in sprites.vals ==> base == sprites.vals[path]
    requires path !in sprites.vals ==> base == "undefined"
    requires !listed ==> count == 0
    requires sprites.keys <= before.keys
    requires path in before.vals <==> path in sprites.vals || listed
    requires path in before.vals ==> before.vals[path] == base + Copies(fragment, count)
    ensures sprites.keys <= AppendSprite(before, last, fragment).keys
    ensures path in AppendSprite(before, last, fragment).vals <==> path in sprites.vals || listed || last == path
    ensures path in AppendSprite(before, last, fragment).vals ==>
              AppendSprite(before, last, fragment).vals[path] == base + Copies(fragment, count + if last == path then 1 else 0)
  {
    SpriteBufferKeys(before, last, fragment);
    if last == path {
      SpriteBufferHit(before, base, count, fragment, path);
    } else {
      SpriteBufferMiss(before, last, fragment, path);
    }
  }

  /** An append keeps the paths already present in their order. */
  lemma SpriteBufferKeys(before: OrderedMap<string, string>, last: string, fragment: string)
    ensures before.keys <= AppendSprite(before, last, fragment).keys
  {
  }

  /** An append to another path leaves `path` as it was. */
  lemma SpriteBufferMiss(before: OrderedMap<string, string>, last: string, fragment: string, path: string)
    requires last != path
    ensures path in AppendSprite(before, last, fragment).vals <==> path in before.vals
    ensures path in before.vals ==> AppendSprite(before, last, fragment).vals[path] == before.vals[path]
  {
  }

  /** The step of SpriteBuffers where the last target is `path` itself: one more copy of the fragment. */
  lemma SpriteBufferHit(before: OrderedMap<string, string>, base: string, c: nat, fragment: string, path: string)
    requires path in before.vals ==> before.vals[path] == base + Copies(fragment, c)
    requires path !in before.vals ==> base == "undefined" && c == 0
    ensures AppendSprite(before, path, fragment).vals[path] == base + Copies(fragment, c + 1)
  {
    if path in before.vals {
      assert before.vals[path] + fragment == base + (Copies(fragment, c) + fragment);
    }
  }

  lemma {:induction false} CountAbsent(xs: seq<string>, x: string)
    requires x !in xs
    ensures Count(xs, x) == 0
    decreases |xs|
  {
    if xs != [] {
      CountAbsent(xs[..|xs| - 1], x);
    }
  }

  /**
   * Two processed entries that target the same sprite path, one after the
   * other, leave that path holding both fragments in processing order,
   * behind the text `undefined` when the path was new.
   */
  lemma SpritesInOrder(ch: Chunks, first: Outcome, second: Outcome, path: string)
    requires first.Processed? && first.spriteTargets == [path] && MemberLines(first.lines)
    requires second.Processed? && second.spriteTargets == [path] && MemberLines(second.lines)
    requires path !in ch.sprites.vals
    ensures Apply(Apply(ch, first), second).sprites.vals[path] == "undefined" + first.fragment + second.fragment
  {
    SpriteBuffers(ch.sprites, [path], first.fragment, path);
    var mid := Apply(ch, first).sprites;
    SpriteBuffers(mid, [path], second.fragment, path);
    assert [path][..0] == [];
  }

  // ---------------------------------------------------------------------------
  // Enum buffers
  // ---------------------------------------------------------------------------

  /** Some line goes to the target `t`. */
  predicate Targets(lines: seq<(EnumTarget, string)>, t: EnumTarget)
  {
    exists k :: 0 <= k < |lines| && lines[k].0 == t
  }

  /** The lines that go to `t`, concatenated in order. */
  function LinesTo(lines: seq<(EnumTarget, string)>, t: EnumTarget): string
  {
    if lines == [] then ""
    else LinesTo(lines[..|lines| - 1], t) + (if lines[|lines| - 1].0 == t then lines[|lines| - 1].1 else "")
  }

  /** One turn of the enum loop changes the buffer of its own target only. */
  lemma EnumBufferStep(enums: OrderedMap<string, OrderedMap<string, string>>, u: EnumTarget, line: string, t: EnumTarget)
    ensures EnumBuffer(AppendEnum(enums, u, line), t.path, t.name)
            == if u == t then Some(EnumBuffer(enums, t.path, t.name).GetOr("") + line)
               else EnumBuffer(enums, t.path, t.name)
  {
  }

  /**
   * The enum loop only appends: the buffer of a target that receives lines
   * is its old buffer (or `""`) followed by those lines in order, and a
   * target that receives none keeps its buffer, or stays absent.
   */
  lemma {:induction false} EnumBuffers(enums: OrderedMap<string, OrderedMap<string, string>>,
                                       lines: seq<(EnumTarget, string)>, t: EnumTarget)
    ensures EnumBuffer(AppendEnums(enums, lines), t.path, t.name)
            == if Targets(lines, t) then Some(EnumBuffer(enums, t.path, t.name).GetOr("") + LinesTo(lines, t))
               else EnumBuffer(enums, t.path, t.name)
    decreases |lines|
  {
    if lines != [] {
      var init := lines[..|lines| - 1];
      var last := lines[|lines| - 1];
      var mid := AppendEnums(enums, init);
      EnumBuffers(enums, init, t);
      EnumBufferStep(mid, last.0, last.1, t);
      TargetsSnoc(lines, t);
      if !Targets(init, t) {
        LinesToAbsent(init, t);
      }
      AppendTail(EnumBuffer(enums, t.path, t.name), EnumBuffer(mid, t.path, t.name),
                 EnumBuffer(AppendEnums(enums, lines), t.path, t.name), Targets(init, t), last.0 == t,
                 LinesTo(init, t), LinesTo(lines, t), last.1);
    }
  }

  /** The inductive step of EnumBuffers, on the buffers alone. */
  lemma AppendTail(before: Option<string>, mid: Option<string>, after: Option<string>, inInit: bool, isLast: bool,
                   initLines: string, allLines: string, line: string)
    requires mid == if inInit then Some(before.GetOr("") + initLines) else before
    requires after == if isLast then Some(mid.GetOr("") + line) else mid
    requires allLines == initLines + (if isLast then line else "")
    requires !inInit ==> initLines == ""
    ensures after == if inInit || isLast then Some(before.GetOr("") + allLines) else before
  {
    if isLast && inInit {
      assert allLines == initLines + line;
      assert after == Some(before.GetOr("") + initLines + line);
      assert before.GetOr("") + initLines + line == before.GetOr("") + allLines;
    } else if isLast {
      assert initLines == "" && allLines == "" + line && "" + line == line;
      assert after == Some(before.GetOr("") + line);
    } else {
      assert allLines == initLines;
    }
  }

  lemma TargetsSnoc(lines: seq<(EnumTarget, string)>, t: EnumTarget)
    requires lines != []
    ensures Targets(lines, t) <==> Targets(lines[..|lines| - 1], t) || lines[|lines| - 1].0 == t
  {
    var init := lines[..|lines| - 1];
    if Targets(lines, t) && lines[|lines| - 1].0 != t {
      var k :| 0 <= k < |lines| && lines[k].0 == t;
      assert init[k] == lines[k];
    }
    if Targets(init, t) {
      var k :| 0 <= k < |init| && init[k].0 == t;
      assert lines[k] == init[k];
    }
  }

  lemma {:induction false} LinesToAbsent(lines: seq<(EnumTarget, string)>, t: EnumTarget)
    requires !Targets(lines, t)
    ensures LinesTo(lines, t) == ""
    decreases |lines|
  {
    if lines != [] {
      TargetsSnoc(lines, t);
      LinesToAbsent(lines[..|lines| - 1], t);
    }
  }

  // ---------------------------------------------------------------------------
  // The written files
  // ---------------------------------------------------------------------------

  /** The enum block for one group: header, the member lines without the last `,` + newline, footer. */
  function Block(name: string, buffer: string): string
  {
    "export enum " + name + " {\n" + DropLast(buffer, 2) + "\n}\n\n"
  }

  /**
   * The members of a block are the buffer's lines with only the trailing
   * `,` and newline of the last line removed.
   */
  lemma BlockMembers(buffer: string)
    requires EndsWith(buffer, ",\n")
    ensures DropLast(buffer, 2) + ",\n" == buffer
  {
    assert buffer == buffer[..|buffer| - 2] + buffer[|buffer| - 2..];
  }

  /** The blocks of the first `n` groups, in key order. */
  function Blocks(groups: OrderedMap<string, string>, n: nat): string
    requires groups.Valid() && n <= |groups.keys|
  {
    if n == 0 then "" else Blocks(groups, n - 1) + Block(groups.keys[n - 1], groups.vals[groups.keys[n - 1]])
  }

  /**
   * An enum file is one `export enum` block per group, in the order the
   * groups were created, separated by one blank line; the file ends with
   * `}` and a single newline.
   */
  lemma {:induction false} EnumFileShape(groups: OrderedMap<string, string>)
    requires GroupsValid(groups)
    ensures EnumFile(groups) + "\n" == Blocks(groups, |groups.keys|)
    ensures EndsWith(EnumFile(groups), "\n}\n")
  {
    FoldIsBlocks(groups, |groups.keys|);
    var all := Blocks(groups, |groups.keys|);
    var n := |groups.keys|;
    var lastBlock := Block(groups.keys[n - 1], groups.vals[groups.keys[n - 1]]);
    assert all == Blocks(groups, n - 1) + lastBlock;
    assert EndsWith(lastBlock, "\n}\n\n");
    assert EndsWith(all, "\n}\n\n");
    assert all == all[..|all| - 1] + "\n";
  }

  lemma {:induction false} FoldIsBlocks(groups: OrderedMap<string, string>, n: nat)
    requires groups.Valid() && n <= |groups.keys|
    ensures Util.FoldObj(groups, n, "", EnumBlockStep) == Blocks(groups, n)
    decreases n
  {
    if n > 0 {
      FoldIsBlocks(groups, n - 1);
    }
  }

  /** The last `/`-piece of a path: the file name proper. */
  function LastPiece(path: string): (name: string)
    ensures '/' !in name
  {
    SplitPieces(path, '/');
    Split(path, '/')[|Split(path, '/')| - 1]
  }

  /** A path without `/` gets no directory created; a path with one does. */
  lemma ParentDirNone(path: string)
    ensures ParentDir(path).None? <==> '/' !in path
  {
    ContainsChar(path, '/');
  }

  /** The directory created, a `/` and the file name proper rebuild the path. */
  lemma ParentDirJoin(path: string)
    requires '/' in path
    ensures ParentDir(path).Some?
    ensures ParentDir(path).value + "/" + LastPiece(path) == path
  {
    ContainsChar(path, '/');
    SplitMany(path, '/');
    SplitRejoin(path, '/');
  }

  /** A string that holds the separator splits into at least two pieces. */
  lemma SplitMany(s: string, c: char)
    requires c in s
    ensures |Split(s, c)| >= 2
  {
    var i :| 0 <= i < |s| && s[i] == c;
    assert IndexOfChar(s, c).Some?;
  }

  /** All pieces but the last, joined, then the separator and the last piece, give back the string. */
  lemma SplitRejoin(s: string, c: char)
    requires |Split(s, c)| >= 2
    ensures Join(Split(s, c)[..|Split(s, c)| - 1], [c]) + [c] + Split(s, c)[|Split(s, c)| - 1] == s
  {
    JoinSplit(s, c);
    JoinLast(Split(s, c), [c]);
  }

  /** All parts but the last, joined, then the separator and the last part: the whole join. */
  lemma JoinLast(parts: seq<string>, sep: string)
    requires |parts| >= 2
    ensures Join(parts[..|parts| - 1], sep) + sep + parts[|parts| - 1] == Join(parts, sep)
  {
    var init := parts[..|parts| - 1];
    assert init + [parts[|parts| - 1]] == parts;
    JoinSnoc(init, parts[|parts| - 1], sep);
  }

  /**
   * The `k`-th write of a run is the `k`-th sprite path's file, created in
   * that path's parent directory: the root tag, then the buffer, which starts
   * with the text `undefined`, then `</svg>`.
   */
  lemma SpriteFileShape(cfg: Config, ch: Chunks, k: nat)
    requires ch.Valid() && k < |ch.sprites.keys|
    ensures k < |Writes(cfg, ch)|
    ensures Writes(cfg, ch)[k].path == ch.sprites.keys[k] && Writes(cfg, ch)[k].dir == ParentDir(ch.sprites.keys[k])
    ensures var tag, text := cfg.getSvgTag(ch.sprites.keys[k]), Writes(cfg, ch)[k].text;
            && |tag| + 6 <= |text|
            && text[..|tag|] == tag
            && text[|tag|..|text| - 6] == ch.sprites.vals[ch.sprites.keys[k]]
            && "undefined" <= text[|tag|..]
            && EndsWith(text, "</svg>")
  {
    var n := |ch.sprites.keys|;
    SpriteWriteAt(cfg, ch.sprites, n, k);
    var sw := SpriteWrites(cfg, ch.sprites, n);
    assert Writes(cfg, ch)[k] == sw[k];
    var p := ch.sprites.keys[k];
    SpriteTextShape(cfg.getSvgTag(p), ch.sprites.vals[p]);
  }

  /** The text of a sprite file, split back into its three parts. */
  lemma SpriteTextShape(tag: string, buffer: string)
    requires "undefined" <= buffer
    ensures var text := tag + buffer + "</svg>";
            && |tag| + 6 <= |text|
            && text[..|tag|] == tag
            && text[|tag|..|text| - 6] == buffer
            && "undefined" <= text[|tag|..]
            && EndsWith(text, "</svg>")
  {
    var text := tag + buffer + "</svg>";
    assert text[|tag|..] == buffer + "</svg>";
    assert text[|text| - 6..] == "</svg>";
  }

  /** `SpriteWrites` makes one write per path. */
  lemma {:induction false} SpriteWritesLength(cfg: Config, sprites: OrderedMap<string, string>, n: nat)
    requires sprites.Valid() && n <= |sprites.keys|
    ensures |SpriteWrites(cfg, sprites, n)| == n
    decreases n
  {
    if n > 0 {
      SpriteWritesLength(cfg, sprites, n - 1);
    }
  }

  /** The `k`-th sprite write is the `k`-th path's file. */
  lemma {:induction false} SpriteWriteAt(cfg: Config, sprites: OrderedMap<string, string>, n: nat, k: nat)
    requires sprites.Valid() && k < n <= |sprites.keys|
    ensures |SpriteWrites(cfg, sprites, n)| == n
    ensures SpriteWrites(cfg, sprites, n)[k]
            == Write(ParentDir(sprites.keys[k]), sprites.keys[k], SpriteFile(cfg, sprites.keys[k], sprites.vals[sprites.keys[k]]))
    decreases n
  {
    SpriteWritesLength(cfg, sprites, n - 1);
    if k < n - 1 {
      SpriteWriteAt(cfg, sprites, n - 1, k);
    }
  }

  // ---------------------------------------------------------------------------
  // The default enum name
  // ---------------------------------------------------------------------------

  /** `s` with every `c` removed. */
  function Without(s: string, c: char): (r: string)
    ensures c !in r
  {
    if s == [] then "" else (if s[0] == c then "" else [s[0]]) + Without(s[1..], c)
  }

  /** The pieces, concatenated (`join("")`). */
  function Concat(pieces: seq<string>): string
  {
    if pieces == [] then "" else pieces[0] + Concat(pieces[1..])
  }

  lemma {:induction false} WithoutAppend(a: string, b: string, c: char)
    ensures Without(a + b, c) == Without(a, c) + Without(b, c)
    decreases |a|
  {
    if a != [] {
      assert (a + b)[0] == a[0];
      assert (a + b)[1..] == a[1..] + b;
      WithoutAppend(a[1..], b, c);
    } else {
      assert a + b == b;
    }
  }

  lemma {:induction false} WithoutAbsent(a: string, c: char)
    requires c !in a
    ensures Without(a, c) == a
    decreases |a|
  {
    if a != [] {
      WithoutAbsent(a[1..], c);
      assert a == [a[0]] + a[1..];
    }
  }

  /** Removing the separator from a join leaves the pieces, concatenated. */
  lemma {:induction false} WithoutJoin(pieces: seq<string>, c: char)
    requires forall k :: 0 <= k < |pieces| ==> c !in pieces[k]
    ensures Without(Join(pieces, [c]), c) == Concat(pieces)
    decreases |pieces|
  {
    if |pieces| == 1 {
      WithoutAbsent(pieces[0], c);
      assert Concat(pieces) == pieces[0] + Concat([]);
    } else if |pieces| > 1 {
      var rest := pieces[1..];
      WithoutJoin(rest, c);
      WithoutAppend(pieces[0] + [c], Join(rest, [c]), c);
      WithoutAppend(pieces[0], [c], c);
      WithoutAbsent(pieces[0], c);
      assert Without([c], c) == "";
    }
  }

  lemma UpperAppend(a: string, b: string)
    ensures Upper(a + b) == Upper(a) + Upper(b)
  {
    assert forall i :: 0 <= i < |a + b| ==> Upper(a + b)[i] == (Upper(a) + Upper(b))[i];
  }

  lemma UpperCapitalize(piece: string)
    requires piece != ""
    ensures Upper(Capitalize(piece)) == Upper(piece)
  {
    assert forall i :: 0 <= i < |piece| ==> Upper(Capitalize(piece))[i] == Upper(piece)[i];
  }

  /** Up to case, capitalising the pieces changes nothing. */
  lemma {:induction false} UpperCapitalized(pieces: seq<string>)
    requires forall k :: 0 <= k < |pieces| ==> pieces[k] != ""
    ensures Upper(Capitalized(pieces)) == Upper(Concat(pieces))
    decreases |pieces|
  {
    if pieces != [] {
      UpperCapitalized(pieces[1..]);
      UpperCapitalize(pieces[0]);
      UpperAppend(Capitalize(pieces[0]), Capitalized(pieces[1..]));
      UpperAppend(pieces[0], Concat(pieces[1..]));
    }
  }

  /** Upper-casing neither creates nor removes a `-`. */
  lemma UpperDash(s: string)
    ensures '-' in Upper(s) <==> '-' in s
  {
    if '-' in s {
      var i :| 0 <= i < |s| && s[i] == '-';
      assert Upper(s)[i] == '-';
    }
  }

  /**
   * When the default enum name does not throw, it is the file name with its
   * dashes removed, up to letter case, and it holds no dash.
   */
  lemma EnumNameLetters(fileName: string)
    ensures PascalName(fileName).Returned? ==> Upper(PascalName(fileName).value) == Upper(Without(fileName, '-'))
    ensures PascalName(fileName).Returned? ==> '-' !in PascalName(fileName).value
  {
    var pieces := Split(fileName, '-');
    if "" !in pieces {
      JoinSplit(fileName, '-');
      SplitPieces(fileName, '-');
      WithoutJoin(pieces, '-');
      UpperCapitalized(pieces);
      UpperDash(PascalName(fileName).value);
      UpperDash(Without(fileName, '-'));
    }
  }

  /** Two dash-free words joined by a dash become the two words capitalised, as `arrow-left` becomes `ArrowLeft`. */
  lemma EnumNameTwoWords(first: string, second: string)
    requires first != "" && second != "" && '-' !in first && '-' !in second
    ensures PascalName(first + "-" + second) == Returned(Capitalize(first) + Capitalize(second))
  {
    SplitNone(second, '-');
    SplitCons(first, '-', second);
    var pieces := Split(first + "-" + second, '-');
    assert pieces == [first, second];
    assert "" !in pieces;
    assert pieces[1..] == [second];
    assert [second][1..] == [];
    assert Capitalized([second]) == Capitalize(second);
    assert PascalName(first + "-" + second) == Returned(Capitalized(pieces));
  }

  /** A leading dash-free segment is capitalised in front of the name of the rest. */
  lemma PascalCons(first: string, rest: string)
    requires first != "" && '-' !in first
    requires PascalName(rest).Returned?
    ensures PascalName(first + "-" + rest) == Returned(Capitalize(first) + PascalName(rest).value)
  {
    SplitCons(first, '-', rest);
    var pieces := Split(first + "-" + rest, '-');
    assert pieces == [first] + Split(rest, '-');
    assert pieces[0] == first && pieces[1..] == Split(rest, '-');
    assert "" !in pieces;
  }

  /**
   * Any number of non-empty, dash-free segments joined by `-`: the default
   * enum name capitalises each segment and concatenates them, so
   * `arrow-left-bold` becomes `ArrowLeftBold`.
   */
  lemma {:induction false} EnumNameSegments(segments: seq<string>)
    requires |segments| >= 1
    requires forall k :: 0 <= k < |segments| ==> segments[k] != "" && '-' !in segments[k]
    ensures PascalName(Join(segments, "-")) == Returned(Capitalized(segments))
    decreases |segments|
  {
    if |segments| == 1 {
      SplitNone(segments[0], '-');
      assert Split(Join(segments, "-"), '-') == segments;
      assert Capitalized(segments[1..]) == "";
    } else {
      var rest := segments[1..];
      EnumNameSegments(rest);
      assert Join(segments, "-") == segments[0] + "-" + Join(rest, "-");
      PascalCons(segments[0], Join(rest, "-"));
    }
  }

  /**
   * A doubled dash anywhere leaves an empty piece, so the default enum name
   * throws. By induction on the text before the doubled dash: when it holds
   * a dash, the split takes its first piece off and the rest still ends in
   * the doubled dash.
   */
  lemma {:induction false} EnumNameDoubledDash(first: string, rest: string)
    ensures "" in Split(first + "--" + rest, '-')
    ensures PascalName(first + "--" + rest).Threw?
    decreases |first|
  {
    if '-' !in first {
      var tail := "" + "-" + rest;
      assert first + "--" + rest == first + "-" + tail;
      SplitCons(first, '-', tail);
      SplitCons("", '-', rest);
      assert Split(first + "--" + rest, '-')[1] == "";
    } else {
      var i := IndexOfChar(first, '-').value;
      EnumNameDoubledDash(first[i + 1..], rest);
      CutAtDash(first, i, "--", rest);
      EmptyPieceCons(first[..i], first[i + 1..] + "--" + rest);
    }
  }

  /**
   * A trailing dash leaves an empty last piece, so the default enum name
   * throws, whatever dashes come before it.
   */
  lemma {:induction false} EnumNameTrailingDash(first: string)
    ensures "" in Split(first + "-", '-')
    ensures PascalName(first + "-").Threw?
    decreases |first|
  {
    if '-' !in first {
      assert first + "-" == first + "-" + "";
      SplitCons(first, '-', "");
      SplitNone("", '-');
      assert Split(first + "-", '-')[1] == "";
    } else {
      var i := IndexOfChar(first, '-').value;
      EnumNameTrailingDash(first[i + 1..]);
      CutAtDash(first, i, "-", "");
      assert first + "-" + "" == first + "-" && first[i + 1..] + "-" + "" == first[i + 1..] + "-";
      EmptyPieceCons(first[..i], first[i + 1..] + "-");
    }
  }

  /** Text with a dash at `i`, followed by `x` and `y`: the part before the dash, the dash, and the rest. */
  lemma CutAtDash(first: string, i: nat, x: string, y: string)
    requires i < |first| && first[i] == '-'
    ensures first + x + y == first[..i] + "-" + (first[i + 1..] + x + y)
  {
    assert first == first[..i] + [first[i]] + first[i + 1..];
  }

  /** A dash-free piece put in front keeps an empty piece of the rest. */
  lemma EmptyPieceCons(piece: string, tail: string)
    requires '-' !in piece && "" in Split(tail, '-')
    ensures "" in Split(piece + "-" + tail, '-')
  {
    SplitCons(piece, '-', tail);
  }

  /** Splitting at a first separator after a piece without one. */
  lemma SplitCons(piece: string, c: char, rest: string)
    requires c !in piece
    ensures Split(piece + [c] + rest, c) == [piece] + Split(rest, c)
  {
    var s := piece + [c] + rest;
    FirstAt(s, c, |piece|);
    SplitAt(s, c, |piece|);
    assert s[..|piece|] == piece;
    assert s[|piece| + 1..] == rest;
  }

  lemma SplitNone(piece: string, c: char)
    requires c !in piece
    ensures Split(piece, c) == [piece]
  {
  }

  lemma FirstAt(s: string, c: char, i: nat)
    requires i < |s| && s[i] == c
    requires forall j :: 0 <= j < i ==> s[j] != c
    ensures IndexOfChar(s, c) == Some(i)
  {
  }
}
