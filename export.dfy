/**
 * The export planner behind "Generate G-Code": the per-drawing conversion settings, the
 * output file names, single-file versus archive packaging and what is downloaded.
 */
module Export {
  import opened Wrappers
  import opened Dimensions
  import opened Preview
  import opened Settings
  import opened Drawings

  /** What `svg2program` is called with for one drawing; the program itself is opaque. */
  datatype Program = Program(content: string, config: ConversionConfig, dimensions: Overrides,
                             machine: MachineSettings)

  /** The text the G-code formatter writes for a program under the post-processing flags. */
  datatype Gcode = Gcode(program: Program, format: PostprocessConfig)

  /** What the archive writer is given, in order. */
  datatype ZipEntry = Directory(name: string) | File(path: string, gcode: Gcode) | Comment(text: string)

  /** The bytes handed to `prompt_download`. */
  datatype Payload = GcodeText(gcode: Gcode) | ZipArchive(entries: seq<ZipEntry>)

  /** One call of `prompt_download`. */
  datatype Download = Download(name: string, payload: Payload)

  const OutputDirectory: string := "svg2gcode_output"
  const GcodeExtension: string := "gcode"
  const CommentPrefix: string := "Created with svg2gcode: "

  /**
   * A drawing's conversion settings: the global ones with the resolution divided by the
   * drawing's scale and the origin moved to its offset; nothing else changes.
   */
  function DrawingConfig(base: ConversionConfig, d: Drawing): (c: ConversionConfig)
    requires d.scale > 0.0
    ensures c.dpi * d.scale == base.dpi
    ensures c.origin == (Some(d.offset.x), Some(d.offset.y))
    ensures c.(dpi := base.dpi, origin := base.origin) == base
  {
    base.(dpi := base.dpi / d.scale, origin := (Some(d.offset.x), Some(d.offset.y)))
  }

  /** Doubling a drawing's scale halves the resolution it is converted at. */
  lemma DoublingScaleHalvesDpi(base: ConversionConfig, d: Drawing)
    requires d.scale > 0.0
    ensures 2.0 * DrawingConfig(base, d.(scale := 2.0 * d.scale)).dpi == DrawingConfig(base, d).dpi
  {
    var c1 := DrawingConfig(base, d);
    var c2 := DrawingConfig(base, d.(scale := 2.0 * d.scale));
    assert c2.dpi * (2.0 * d.scale) == c1.dpi * d.scale;
    assert (2.0 * c2.dpi) * d.scale == c1.dpi * d.scale;
  }

  /** The position of the last '.' in `s`, if there is one. */
  function LastDot(s: string): (d: Option<nat>)
    ensures d.Some? ==> d.value < |s| && s[d.value] == '.' && forall k :: d.value < k < |s| ==> s[k] != '.'
    ensures d.None? ==> forall k :: 0 <= k < |s| ==> s[k] != '.'
  {
    if s == [] then None
    else if s[|s| - 1] == '.' then Some(|s| - 1)
    else LastDot(s[..|s| - 1])
  }

  /** A plain file name has a file-name component unless it is empty, `.` or `..`. */
  predicate HasFileName(name: string) {
    name != "" && name != "." && name != ".."
  }

  /**
   * `Path::file_stem` of a plain file name that has one: the name up to its last '.',
   * unless that dot is the first character (a hidden file) or there is none, when it is
   * the whole name.
   */
  function FileStem(name: string): (stem: string)
    requires HasFileName(name)
    ensures stem <= name && |stem| > 0
    ensures stem == name || (name[|stem|] == '.' && forall k :: |stem| < k < |name| ==> name[k] != '.')
    ensures stem == name ==> forall k :: 0 < k < |name| ==> name[k] != '.'
  {
    match LastDot(name)
    case Some(d) => if d > 0 then name[..d] else name
    case None => name
  }

  /**
   * `Path::with_extension` on a plain file name: the stem, a '.' and the new extension
   * (no '.' for an empty extension); a name without a file-name component is unchanged.
   */
  function WithExtension(name: string, ext: string): (r: string)
    ensures !HasFileName(name) ==> r == name
    ensures HasFileName(name) && ext != "" ==> r == FileStem(name) + "." + ext
    ensures HasFileName(name) && ext == "" ==> r == FileStem(name)
  {
    if !HasFileName(name) then name
    else if ext == "" then FileStem(name)
    else FileStem(name) + "." + ext
  }

  lemma {:induction false} LastDotOfExtended(a: string, b: string)
    requires forall k :: 0 <= k < |b| ==> b[k] != '.'
    ensures LastDot(a + "." + b) == Some(|a|)
  {
    var s := a + "." + b;
    if b != [] {
      assert s[|s| - 1] == b[|b| - 1];
      assert s[..|s| - 1] == a + "." + b[..|b| - 1];
      LastDotOfExtended(a, b[..|b| - 1]);
    }
  }

  /** Giving an output name the same extension again changes nothing. */
  lemma WithExtensionIdempotent(name: string, ext: string)
    requires ext != "" && forall k :: 0 <= k < |ext| ==> ext[k] != '.'
    ensures WithExtension(WithExtension(name, ext), ext) == WithExtension(name, ext)
  {
    if HasFileName(name) {
      var stem := FileStem(name);
      var r := stem + "." + ext;
      LastDotOfExtended(stem, ext);
      assert r[..|stem|] == stem;
      assert |r| >= 3;
    }
  }

  /** Examples: the extension is replaced, a leading dot is not an extension, none is appended to. */
  lemma WithExtensionExamples()
    ensures WithExtension("drawing.svg", "gcode") == "drawing.gcode"
    ensures WithExtension("logo.tar.svg", "gcode") == "logo.tar.gcode"
    ensures WithExtension(".hidden", "gcode") == ".hidden.gcode"
    ensures WithExtension("plain", "gcode") == "plain.gcode"
    ensures WithExtension("trailing.", "gcode") == "trailing.gcode"
  {
    LastDotOfExtended("drawing", "svg");
    assert "drawing.svg" == "drawing" + "." + "svg";
    LastDotOfExtended("logo.tar", "svg");
    assert "logo.tar.svg" == "logo.tar" + "." + "svg";
    LastDotOfExtended("", "hidden");
    assert ".hidden" == "" + "." + "hidden";
    LastDotOfExtended("trailing", "");
    assert "trailing." == "trailing" + "." + "";
    assert LastDot("plain").None?;
  }

  /**
   * Where a drawing's G-code goes: inside the output directory when several drawings are
   * exported together, otherwise the renamed file itself.
   */
  function FilePath(count: nat, filename: string): (path: string)
    ensures count > 1 ==>
      && |path| > |OutputDirectory|
      && path[..|OutputDirectory| + 1] == OutputDirectory + "/"
      && path[|OutputDirectory| + 1..] == WithExtension(filename, GcodeExtension)
    ensures count <= 1 ==> path == WithExtension(filename, GcodeExtension)
    ensures HasFileName(filename) ==> |path| > 6 && path[|path| - 6..] == ".gcode"
  {
    if count > 1 then OutputDirectory + "/" + WithExtension(filename, GcodeExtension)
    else WithExtension(filename, GcodeExtension)
  }

  /** The G-code for one drawing: converted with its own settings, formatted with the global flags. */
  function GcodeFor(d: Drawing, s: SettingsRecord): (g: Gcode)
    requires d.scale > 0.0
    ensures g.program.content == d.content && g.program.dimensions == d.dimensions
    ensures g.program.config.dpi * d.scale == s.conversion.dpi
    ensures g.program.config.origin == (Some(d.offset.x), Some(d.offset.y))
    ensures g.program.config.(dpi := s.conversion.dpi, origin := s.conversion.origin) == s.conversion
    ensures g.program.machine == s.machine && g.format == s.postprocess
  {
    Gcode(Program(d.content, DrawingConfig(s.conversion, d), d.dimensions, s.machine), s.postprocess)
  }

  /** The archive's file entries, one per drawing, in drawing order. */
  function FileEntries(svgs: seq<Drawing>, s: SettingsRecord): (r: seq<ZipEntry>)
    requires ScalesPositive(svgs)
    ensures |r| == |svgs|
    ensures forall i :: 0 <= i < |svgs| ==>
      r[i] == File(OutputDirectory + "/" + WithExtension(svgs[i].filename, GcodeExtension), GcodeFor(svgs[i], s))
  {
    seq(|svgs|, i requires 0 <= i < |svgs| =>
      File(OutputDirectory + "/" + WithExtension(svgs[i].filename, GcodeExtension), GcodeFor(svgs[i], s)))
  }

  /** The archive's comment names the tool and its page, then carries the description unchanged. */
  function CommentText(description: string): (text: string)
    ensures |text| >= |CommentPrefix| && text[..|CommentPrefix|] == CommentPrefix
    ensures |text| >= |description| && text[|text| - |description|..] == description
  {
    CommentPrefix + "https://sameer.github.io/svg2gcode/\n" + description
  }

  /** The archive's download name, around the ISO 8601 timestamp of the export. */
  function BulkName(date: string): (n: string)
    ensures |n| == |date| + 28
    ensures n[..24] == "svg2gcode_bulk_download_" && n[24..|n| - 4] == date && n[|n| - 4..] == ".zip"
  {
    "svg2gcode_bulk_download_" + date + ".zip"
  }

  /** A batch archive: the output directory, the drawings' files, then the comment. */
  function ArchiveEntries(svgs: seq<Drawing>, s: SettingsRecord, description: string): (e: seq<ZipEntry>)
    requires ScalesPositive(svgs)
    ensures |e| == |svgs| + 2 && e[0] == Directory(OutputDirectory)
    ensures forall i :: 0 <= i < |svgs| ==>
      e[i + 1] == File(OutputDirectory + "/" + WithExtension(svgs[i].filename, GcodeExtension), GcodeFor(svgs[i], s))
    ensures e[|svgs| + 1] == Comment(CommentText(description))
  {
    [Directory(OutputDirectory)] + FileEntries(svgs, s) + [Comment(CommentText(description))]
  }

  /**
   * Everything one export downloads. No drawings: nothing. One drawing: its G-code, under
   * its own renamed file name. Several: a single archive and no file of its own per drawing.
   */
  function Plan(svgs: seq<Drawing>, s: SettingsRecord, description: string, date: string): (r: seq<Download>)
    requires ScalesPositive(svgs)
    ensures |r| == if svgs == [] then 0 else 1
    ensures |svgs| == 1 ==>
      r[0] == Download(WithExtension(svgs[0].filename, GcodeExtension), GcodeText(GcodeFor(svgs[0], s)))
    ensures |svgs| > 1 ==> r[0] == Download(BulkName(date), ZipArchive(ArchiveEntries(svgs, s, description)))
  {
    if |svgs| == 0 then []
    else if |svgs| == 1 then [Download(FilePath(1, svgs[0].filename), GcodeText(GcodeFor(svgs[0], s)))]
    else [Download(BulkName(date), ZipArchive(ArchiveEntries(svgs, s, description)))]
  }

  /**
   * Each drawing is converted with the global settings except for its own resolution and
   * origin; in a batch, every output file lies in the output directory and ends in `.gcode`.
   */
  lemma BatchEntriesFollowDrawings(svgs: seq<Drawing>, s: SettingsRecord, description: string, date: string, i: nat)
    requires ScalesPositive(svgs) && |svgs| > 1 && i < |svgs|
    requires HasFileName(svgs[i].filename)
    ensures var e := Plan(svgs, s, description, date)[0].payload.entries[i + 1];
      var c := e.gcode.program.config;
      c.(dpi := s.conversion.dpi, origin := s.conversion.origin) == s.conversion
      && c.dpi * svgs[i].scale == s.conversion.dpi
      && e.path[..|OutputDirectory| + 1] == OutputDirectory + "/"
      && e.path[|e.path| - 6..] == ".gcode"
  {
    var entries := ArchiveEntries(svgs, s, description);
    assert Plan(svgs, s, description, date)[0].payload.entries == entries;
    var e := entries[i + 1];
    var name := WithExtension(svgs[i].filename, GcodeExtension);
    assert e == File(OutputDirectory + "/" + name, GcodeFor(svgs[i], s));
    assert name == FileStem(svgs[i].filename) + ".gcode";
    var stem := FileStem(svgs[i].filename);
    assert e.path == (OutputDirectory + "/") + (stem + ".gcode");
    assert e.path[..|OutputDirectory| + 1] == OutputDirectory + "/";
    assert e.path[|e.path| - 6..] == ".gcode";
  }

  /** `generate_disabled`: the button is enabled only when no export runs and a drawing is loaded. */
  predicate GenerateDisabled(generating: bool, svgs: seq<Drawing>): (disabled: bool)
    ensures !disabled <==> !generating && |svgs| >= 1
  {
    generating || |svgs| == 0
  }

  /** Whenever the button can be pressed, exactly one file is downloaded. */
  lemma EnabledExportDeliversOne(generating: bool, svgs: seq<Drawing>, s: SettingsRecord, description: string, date: string)
    requires ScalesPositive(svgs)
    ensures !GenerateDisabled(generating, svgs) ==> !generating && |Plan(svgs, s, description, date)| == 1
    ensures GenerateDisabled(generating, svgs) && !generating ==> Plan(svgs, s, description, date) == []
  {
  }

  /** The archive writer, as the sequence of entries it has been given. */
  class ZipWriter {
    var entries: seq<ZipEntry>

    constructor ()
      ensures entries == []
    {
      entries := [];
    }

    /** `add_directory`. */
    method AddDirectory(name: string)
      modifies this
      ensures entries == old(entries) + [Directory(name)]
    {
      entries := entries + [Directory(name)];
    }

    /** `start_file` followed by formatting the G-code into the new entry. */
    method StartFile(path: string, gcode: Gcode)
      modifies this
      ensures entries == old(entries) + [File(path, gcode)]
    {
      entries := entries + [File(path, gcode)];
    }

    /** `set_comment`. */
    method SetComment(text: string)
      modifies this
      ensures entries == old(entries) + [Comment(text)]
    {
      entries := entries + [Comment(text)];
    }

    /** `finish`: the archive holding every entry given so far, in order. */
    method Finish() returns (archive: Payload)
      ensures archive.ZipArchive? && archive.entries == entries
    {
      archive := ZipArchive(entries);
    }
  }
}
