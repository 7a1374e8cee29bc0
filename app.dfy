/**
 * The application component: the drawing list and settings store, the settings form, the
 * `generating` flag and the log of downloads the browser was asked for.
 */
module Application {
  import opened Wrappers
  import opened Dimensions
  import opened Preview
  import opened Settings
  import opened Drawings
  import opened Export

  class App {
    var svgs: seq<Drawing>
    var settings: SettingsRecord
    var form: FormState
    var hydrated: bool
    var generating: bool
    var downloads: seq<Download>

    /** Every drawing keeps a positive scale. */
    ghost predicate Valid()
      reads this
    {
      ScalesPositive(svgs)
    }

    /** The state right after the stores are restored: no drawings, default form, gate down. */
    constructor (stored: SettingsRecord)
      ensures Valid()
      ensures svgs == [] && settings == stored && form == DefaultForm
      ensures !hydrated && !generating && downloads == []
    {
      svgs := [];
      settings := stored;
      form := DefaultForm;
      hydrated := false;
      generating := false;
      downloads := [];
    }

    /**
     * The gate at the top of every render: upgrade the settings and hydrate the form, once.
     * `tryUpgrade` stands for `Settings::try_upgrade`; its failure is unreachable.
     */
    method Render(tryUpgrade: SettingsRecord -> Option<SettingsRecord>)
      requires Valid()
      requires !hydrated ==> tryUpgrade(settings).Some?
      modifies this
      ensures Valid()
      ensures Session(settings, form, hydrated)
           == UpgradeAndHydrate(old(Session(settings, form, hydrated)), tryUpgrade)
      ensures svgs == old(svgs) && generating == old(generating) && downloads == old(downloads)
    {
      if !hydrated {
        var upgraded := tryUpgrade(settings).value;
        settings := upgraded;
        form := FromSettings(upgraded);
        hydrated := true;
      }
    }

    /** `remove_svg_onclick` of card `i`. */
    method RemoveSvg(i: nat)
      requires Valid() && i < |svgs|
      modifies this
      ensures Valid()
      ensures svgs == Removed(old(svgs), i)
      ensures settings == old(settings) && form == old(form) && hydrated == old(hydrated)
      ensures generating == old(generating) && downloads == old(downloads)
    {
      ReducersKeepScalesPositive(svgs, i, None, Point(0.0, 0.0));
      svgs := svgs[..i] + svgs[i + 1..];
    }

    /** `scale_oninput` of card `i`; `input` is the field's text parsed as a number, if it parses. */
    method ScaleInput(i: nat, input: Option<real>)
      requires Valid() && (ScaleAccepted(input) ==> i < |svgs|)
      modifies this
      ensures Valid()
      ensures svgs == WithScale(old(svgs), i, input)
      ensures settings == old(settings) && form == old(form) && hydrated == old(hydrated)
      ensures generating == old(generating) && downloads == old(downloads)
    {
      match input {
        case Some(scale) =>
          if scale > 0.0 {
            svgs := svgs[i := svgs[i].(scale := scale)];
          }
        case None =>
      }
    }

    /** `on_offset_change` of card `i`, called by that card's drag controller. */
    method OffsetChange(i: nat, offset: Point)
      requires Valid() && i < |svgs|
      modifies this
      ensures Valid()
      ensures svgs == WithOffset(old(svgs), i, offset)
      ensures settings == old(settings) && form == old(form) && hydrated == old(hydrated)
      ensures generating == old(generating) && downloads == old(downloads)
    {
      svgs := svgs[i := svgs[i].(offset := offset)];
    }

    /**
     * `generate_onclick`: convert every drawing in order and download the result, with the
     * `generating` flag raised for the whole run. `description` is the package description
     * in the archive comment and `date` the ISO 8601 time of the click.
     */
    method Generate(description: string, date: string)
      requires Valid()
      modifies this
      ensures Valid() && !generating
      ensures downloads == old(downloads) + Plan(svgs, settings, description, date)
      ensures svgs == old(svgs) && settings == old(settings) && form == old(form) && hydrated == old(hydrated)
    {
      generating := true;
      var zip := new ZipWriter();
      var count := |svgs|;
      if count > 1 {
        zip.AddDirectory(OutputDirectory);
      }
      var delivered: seq<Download> := [];
      for i := 0 to count
        invariant svgs == old(svgs) && settings == old(settings) && form == old(form) && hydrated == old(hydrated)
        invariant generating && count == |svgs|
        invariant count > 1 ==> zip.entries == [Directory(OutputDirectory)] + FileEntries(svgs[..i], settings)
        invariant delivered == (if count == 1 && i == 1 then Plan(svgs, settings, description, date) else [])
        invariant downloads == old(downloads) + delivered
      {
        var svg := svgs[i];
        var base := settings.conversion;
        var config := base.(dpi := base.dpi / svg.scale, origin := (Some(svg.offset.x), Some(svg.offset.y)));
        var program := Program(svg.content, config, svg.dimensions, settings.machine);
        var path := FilePath(count, svg.filename);
        if count == 1 {
          delivered := [Download(path, GcodeText(Gcode(program, settings.postprocess)))];
          downloads := downloads + delivered;
        } else {
          zip.StartFile(path, Gcode(program, settings.postprocess));
          assert svgs[..i + 1] == svgs[..i] + [svg];
          assert FileEntries(svgs[..i + 1], settings) == FileEntries(svgs[..i], settings) + [File(path, GcodeFor(svg, settings))];
        }
      }
      if count > 1 {
        assert svgs[..count] == svgs;
        zip.SetComment(CommentText(description));
        var archive := zip.Finish();
        delivered := [Download(BulkName(date), archive)];
        downloads := downloads + delivered;
      }
      generating := false;
    }
  }
}
