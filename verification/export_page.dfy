/**
 * The export page (src/app/export/page.tsx): a list of on/off options that
 * the user flips one at a time, and four output formats looked up by the
 * selected id. The export itself only logs, and is not modelled.
 */
module Export {
  import opened Wrappers

  datatype ExportOption = ExportOption(id: string, name: string, description: string, enabled: bool)

  datatype ExportFormat = ExportFormat(id: string, name: string, description: string, icon: string, extension: string)

  /** The option as the toggle leaves it. */
  function Flip(option: ExportOption, id: string): ExportOption
  {
    if option.id == id then option.(enabled := !option.enabled) else option
  }

  /** `handleOptionToggle`: every option carrying `id` has its flag flipped, the rest are kept. */
  function Toggle(options: seq<ExportOption>, id: string): (r: seq<ExportOption>)
    ensures |r| == |options|
    ensures forall i :: 0 <= i < |r| ==>
      r[i].id == options[i].id && r[i].name == options[i].name && r[i].description == options[i].description
    ensures forall i :: 0 <= i < |r| ==> (r[i].enabled != options[i].enabled <==> options[i].id == id)
  {
    seq(|options|, i requires 0 <= i < |options| => Flip(options[i], id))
  }

  /** Toggling the same option twice restores the list. */
  lemma ToggleTwice(options: seq<ExportOption>, id: string)
    ensures Toggle(Toggle(options, id), id) == options
  {
    var r := Toggle(Toggle(options, id), id);
    assert forall i :: 0 <= i < |options| ==> r[i] == options[i];
  }

  /** Toggling an id no option carries changes nothing. */
  lemma ToggleAbsent(options: seq<ExportOption>, id: string)
    requires forall i :: 0 <= i < |options| ==> options[i].id != id
    ensures Toggle(options, id) == options
  {
    var r := Toggle(options, id);
    assert forall i :: 0 <= i < |options| ==> r[i] == options[i];
  }

  /** Toggles of two options do not interfere: their order does not matter. */
  lemma ToggleCommutes(options: seq<ExportOption>, a: string, b: string)
    ensures Toggle(Toggle(options, a), b) == Toggle(Toggle(options, b), a)
  {
    var x := Toggle(Toggle(options, a), b);
    var y := Toggle(Toggle(options, b), a);
    assert forall i :: 0 <= i < |options| ==> x[i] == y[i];
  }

  const InitialOptions: seq<ExportOption> := [
    ExportOption("1", "Include Headers", "Add column headers to the exported file", true),
    ExportOption("2", "Include Validation Results", "Export validation status for each record", false),
    ExportOption("3", "Include Metadata", "Add file metadata and export timestamp", true),
    ExportOption("4", "Compress File", "Create a compressed archive for large datasets", false)
  ]

  /** The initial options: ids '1' to '4', headers and metadata on, validation results and compression off. */
  lemma InitialOptionsShape()
    ensures |InitialOptions| == 4
    ensures forall i, j :: 0 <= i < j < |InitialOptions| ==> InitialOptions[i].id != InitialOptions[j].id
    ensures InitialOptions[0].id == "1" && InitialOptions[1].id == "2"
    ensures InitialOptions[2].id == "3" && InitialOptions[3].id == "4"
    ensures InitialOptions[0].enabled && !InitialOptions[1].enabled
    ensures InitialOptions[2].enabled && !InitialOptions[3].enabled
  {
  }

  /** With distinct ids a toggle changes exactly one option of the initial list. */
  lemma ToggleInitialHeaders()
    ensures Toggle(InitialOptions, "1")[0].enabled == false
    ensures forall i :: 1 <= i < 4 ==> Toggle(InitialOptions, "1")[i] == InitialOptions[i]
  {
  }

  const Formats: seq<ExportFormat> := [
    ExportFormat("csv", "CSV", "Comma-separated values format", "📄", ".csv"),
    ExportFormat("xlsx", "Excel", "Microsoft Excel format", "📊", ".xlsx"),
    ExportFormat("json", "JSON", "JavaScript Object Notation", "🔧", ".json"),
    ExportFormat("xml", "XML", "Extensible Markup Language", "📋", ".xml")
  ]

  const InitialFormat := "csv"

  /** `exportFormats.find(f => f.id === id)`: the first format with that id. */
  function FindFormat(formats: seq<ExportFormat>, id: string): (r: Option<ExportFormat>)
    ensures r.None? <==> forall i :: 0 <= i < |formats| ==> formats[i].id != id
    ensures r.Some? ==> r.value in formats && r.value.id == id
    ensures r.Some? ==> exists i :: 0 <= i < |formats| && r.value == formats[i] && forall j :: 0 <= j < i ==> formats[j].id != id
  {
    if formats == [] then None
    else if formats[0].id == id then Some(formats[0])
    else FindFormat(formats[1..], id)
  }

  predicate DistinctFormatIds(formats: seq<ExportFormat>)
  {
    forall i, j :: 0 <= i < j < |formats| ==> formats[i].id != formats[j].id
  }

  /** With distinct ids, looking a format up by its own id finds that very format. */
  lemma {:induction false} FindOwnFormat(formats: seq<ExportFormat>, i: nat)
    requires DistinctFormatIds(formats) && i < |formats|
    ensures FindFormat(formats, formats[i].id) == Some(formats[i])
  {
    if i > 0 {
      assert formats[0].id != formats[i].id;
      FindOwnFormat(formats[1..], i - 1);
    }
  }

  /** The name shown for the export: `data_export` followed by the selected format's extension, or nothing when none matches. */
  function ExportFileName(selected: string): (name: string)
    ensures FindFormat(Formats, selected).Some? ==> name == "data_export" + FindFormat(Formats, selected).value.extension
    ensures FindFormat(Formats, selected).None? ==> name == "data_export"
  {
    match FindFormat(Formats, selected)
    case Some(f) => "data_export" + f.extension
    case None => "data_export"
  }

  /** The four formats have distinct ids; the initial selection is CSV, so the export starts out as data_export.csv. */
  lemma FormatsShape()
    ensures |Formats| == 4 && DistinctFormatIds(Formats)
    ensures FindFormat(Formats, InitialFormat) == Some(Formats[0])
    ensures Formats[0].name == "CSV" && ExportFileName(InitialFormat) == "data_export.csv"
    ensures ExportFileName("xlsx") == "data_export.xlsx"
    ensures ExportFileName("pdf") == "data_export"
  {
    FindOwnFormat(Formats, 0);
    FindOwnFormat(Formats, 1);
  }

  /** Every format the page offers can be selected, and the lookup then yields that format's extension and name. */
  lemma EverySelectionFound(i: nat)
    requires i < |Formats|
    ensures FindFormat(Formats, Formats[i].id) == Some(Formats[i])
    ensures ExportFileName(Formats[i].id) == "data_export" + Formats[i].extension
  {
    FormatsShape();
    FindOwnFormat(Formats, i);
  }
}
