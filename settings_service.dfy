/**
 * `SettingsService`: the three settings slots of the add-in — application,
 * decomposition and visualization — each empty until loaded from its JSON file
 * or reset to defaults. Files are given as their observable outcome: missing,
 * unreadable, or read (JSON `null` reads as no settings).
 */
module SettingsService {
  import opened Wrappers
  import opened Host

  datatype ApplicationTheme = Auto | Light | Dark | HighContrast
  datatype WindowBackdropType = NoBackdrop | Mica | Acrylic | Tabbed | OtherBackdrop
  datatype Transition = NoTransition | OtherTransition(name: string)

  datatype ApplicationSettings = ApplicationSettings(
    theme: ApplicationTheme, background: WindowBackdropType, transition: Transition,
    windowWidth: real, windowHeight: real,
    useHardwareRendering: bool, useSizeRestoring: bool, useModifyTab: bool)

  datatype DecompositionSettings = DecompositionSettings(
    includePrivate: bool, includeFields: bool, includeStatic: bool, includeEvents: bool,
    includeExtensions: bool, includeUnsupported: bool, includeRoot: bool,
    showTimeColumn: bool, showMemoryColumn: bool)

  /** An ARGB colour. */
  datatype Color = Color(a: nat, r: nat, g: nat, b: nat)

  const DodgerBlue: Color := Color(255, 30, 144, 255)
  const DeepBlue: Color := Color(255, 30, 81, 255)
  const Orange: Color := Color(255, 255, 89, 30)

  datatype BoundingBoxSettings = BoundingBoxSettings(
    transparency: real, surfaceColor: Color, edgeColor: Color, axisColor: Color,
    showSurface: bool, showEdge: bool, showAxis: bool)

  /** The face and mesh sections share one shape. */
  datatype SurfaceSettings = SurfaceSettings(
    transparency: real, extrusion: real, minExtrusion: real,
    surfaceColor: Color, meshColor: Color, normalVectorColor: Color,
    showSurface: bool, showMeshGrid: bool, showNormalVector: bool)

  /** The polyline and curve loop sections share one shape. */
  datatype CurveSettings = CurveSettings(
    transparency: real, diameter: real, minThickness: real,
    surfaceColor: Color, curveColor: Color, directionColor: Color,
    showSurface: bool, showCurve: bool, showDirection: bool)

  datatype SolidSettings = SolidSettings(
    transparency: real, scale: real, faceColor: Color, edgeColor: Color, showFace: bool, showEdge: bool)

  datatype XyzSettings = XyzSettings(
    transparency: real, axisLength: real, minAxisLength: real, xColor: Color, yColor: Color, zColor: Color,
    showPlane: bool, showXAxis: bool, showYAxis: bool, showZAxis: bool)

  datatype VisualizationSettings = VisualizationSettings(
    boundingBox: BoundingBoxSettings, face: SurfaceSettings, mesh: SurfaceSettings,
    polyline: CurveSettings, curveLoop: CurveSettings, solid: SolidSettings, xyz: XyzSettings)

  /** A settings file as `Load…Settings` finds it. */
  datatype StoredFile<T> = Missing | Unreadable(error: Exception) | Read(content: Option<T>)

  const NotLoaded: Exception := Exception(InvalidOperationException, "Settings is not loaded.")

  /** The application defaults; with a 2024 host the theme follows the system. */
  const DefaultApplication: ApplicationSettings := ApplicationSettings(
    theme := Auto, background := NoBackdrop, transition := NoTransition,
    windowWidth := 0.0, windowHeight := 0.0,
    useHardwareRendering := true, useSizeRestoring := false, useModifyTab := false)

  /** The decomposition defaults: static members, events and extensions shown, every other option off. */
  const DefaultDecomposition: DecompositionSettings := DecompositionSettings(
    includePrivate := false, includeFields := false, includeStatic := true, includeEvents := true,
    includeExtensions := true, includeUnsupported := false, includeRoot := false,
    showTimeColumn := false, showMemoryColumn := false)

  /** The curve defaults shared by the polyline and curve loop sections. */
  const DefaultCurve: CurveSettings := CurveSettings(20.0, 2.0, 0.1, DodgerBlue, DeepBlue, Orange, true, true, true)

  /** The visualization defaults; face and mesh extrusion are twelve times the host's vertex tolerance. */
  function DefaultVisualization(vertexTolerance: real): (r: VisualizationSettings)
    ensures r.face.extrusion == r.face.minExtrusion == r.mesh.extrusion == r.mesh.minExtrusion == vertexTolerance * 12.0
    ensures r.polyline == r.curveLoop
  {
    var surface := SurfaceSettings(20.0, vertexTolerance * 12.0, vertexTolerance * 12.0, DodgerBlue, DeepBlue, Orange, true, true, true);
    VisualizationSettings(
      boundingBox := BoundingBoxSettings(60.0, DodgerBlue, DeepBlue, Orange, true, true, true),
      face := surface,
      mesh := surface,
      polyline := DefaultCurve,
      curveLoop := DefaultCurve,
      solid := SolidSettings(20.0, 1.0, DodgerBlue, DeepBlue, true, true),
      xyz := XyzSettings(0.0, 6.0, 0.1, Color(255, 30, 227, 255), Color(255, 30, 144, 255), DeepBlue, true, true, true, true))
  }

  /** The decomposition defaults turn on exactly three options. */
  lemma DefaultDecompositionOptions()
    ensures DefaultDecomposition.includeStatic && DefaultDecomposition.includeEvents && DefaultDecomposition.includeExtensions
    ensures !DefaultDecomposition.includePrivate && !DefaultDecomposition.includeFields && !DefaultDecomposition.includeUnsupported
      && !DefaultDecomposition.includeRoot && !DefaultDecomposition.showTimeColumn && !DefaultDecomposition.showMemoryColumn
  {
  }

  /** A slot read through its property: the value, or the not-loaded error. */
  function Get<T>(slot: Option<T>): (r: Result<T, Exception>)
    ensures r.Failure? <==> slot.None?
    ensures r.Failure? ==> r.error == NotLoaded
    ensures r.Success? ==> slot == Some(r.value)
  {
    match slot
    case None => Failure(NotLoaded)
    case Some(value) => Success(value)
  }

  /** A slot after loading from `file`: missing resets it, unreadable keeps it, a read file replaces it (null included). */
  function Loaded<T>(slot: Option<T>, file: StoredFile<T>, default: T): (r: Option<T>)
    ensures file.Missing? ==> r == Some(default)
    ensures file.Unreadable? ==> r == slot
    ensures file.Read? ==> r == file.content
  {
    match file
    case Missing => Some(default)
    case Unreadable(_) => slot
    case Read(content) => content
  }

  /** The message logged for an unreadable file; `LoadVisualizationSettings` reuses the application message. */
  function LoadErrors<T>(file: StoredFile<T>, message: string): seq<string>
  {
    if file.Unreadable? then [message] else []
  }

  const ApplicationLoadError := "Application settings loading error"
  const DecompositionLoadError := "Decomposition settings loading error"

  class Service {
    var application: Option<ApplicationSettings>
    var decomposition: Option<DecompositionSettings>
    var visualization: Option<VisualizationSettings>
    /** The error messages written to the log, in order. */
    var log: seq<string>

    constructor ()
      ensures application == None && decomposition == None && visualization == None && log == []
    {
      application := None;
      decomposition := None;
      visualization := None;
      log := [];
    }

    /** `ApplicationSettings`. */
    function ApplicationSettingsValue(): (r: Result<ApplicationSettings, Exception>)
      reads this
      ensures r.Failure? <==> application.None?
      ensures r.Failure? ==> r.error == NotLoaded
      ensures r.Success? ==> application == Some(r.value)
    {
      Get(application)
    }

    /** `DecompositionSettings`. */
    function DecompositionSettingsValue(): (r: Result<DecompositionSettings, Exception>)
      reads this
      ensures r.Failure? <==> decomposition.None?
      ensures r.Failure? ==> r.error == NotLoaded
      ensures r.Success? ==> decomposition == Some(r.value)
    {
      Get(decomposition)
    }

    /** `VisualizationSettings`. */
    function VisualizationSettingsValue(): (r: Result<VisualizationSettings, Exception>)
      reads this
      ensures r.Failure? <==> visualization.None?
      ensures r.Failure? ==> r.error == NotLoaded
      ensures r.Success? ==> visualization == Some(r.value)
    {
      Get(visualization)
    }

    /** `ResetApplicationSettings`: only the in-memory slot changes. */
    method ResetApplicationSettings()
      modifies this`application
      ensures application == Some(DefaultApplication)
    {
      application := Some(DefaultApplication);
    }

    /** `ResetDecompositionSettings`. */
    method ResetDecompositionSettings()
      modifies this`decomposition
      ensures decomposition == Some(DefaultDecomposition)
    {
      decomposition := Some(DefaultDecomposition);
    }

    /** `ResetVisualizationSettings`. */
    method ResetVisualizationSettings(vertexTolerance: real)
      modifies this`visualization
      ensures visualization == Some(DefaultVisualization(vertexTolerance))
    {
      visualization := Some(DefaultVisualization(vertexTolerance));
    }

    /** `LoadApplicationSettings`. */
    method LoadApplicationSettings(file: StoredFile<ApplicationSettings>)
      modifies this`application, this`log
      ensures application == Loaded(old(application), file, DefaultApplication)
      ensures log == old(log) + LoadErrors(file, ApplicationLoadError)
    {
      match file {
        case Missing =>
          ResetApplicationSettings();
        case Unreadable(_) =>
          log := log + [ApplicationLoadError];
        case Read(content) =>
          application := content;
      }
    }

    /** `LoadDecompositionSettings`. */
    method LoadDecompositionSettings(file: StoredFile<DecompositionSettings>)
      modifies this`decomposition, this`log
      ensures decomposition == Loaded(old(decomposition), file, DefaultDecomposition)
      ensures log == old(log) + LoadErrors(file, DecompositionLoadError)
    {
      match file {
        case Missing =>
          ResetDecompositionSettings();
        case Unreadable(_) =>
          log := log + [DecompositionLoadError];
        case Read(content) =>
          decomposition := content;
      }
    }

    /** `LoadVisualizationSettings`. */
    method LoadVisualizationSettings(file: StoredFile<VisualizationSettings>, vertexTolerance: real)
      modifies this`visualization, this`log
      ensures visualization == Loaded(old(visualization), file, DefaultVisualization(vertexTolerance))
      ensures log == old(log) + LoadErrors(file, ApplicationLoadError)
    {
      match file {
        case Missing =>
          ResetVisualizationSettings(vertexTolerance);
        case Unreadable(_) =>
          log := log + [ApplicationLoadError];
        case Read(content) =>
          visualization := content;
      }
    }

    /** `LoadSettings`: application, then decomposition, then visualization, as the log order shows. */
    method LoadSettings(
      applicationFile: StoredFile<ApplicationSettings>,
      decompositionFile: StoredFile<DecompositionSettings>,
      visualizationFile: StoredFile<VisualizationSettings>,
      vertexTolerance: real)
      modifies this
      ensures application == Loaded(old(application), applicationFile, DefaultApplication)
      ensures decomposition == Loaded(old(decomposition), decompositionFile, DefaultDecomposition)
      ensures visualization == Loaded(old(visualization), visualizationFile, DefaultVisualization(vertexTolerance))
      ensures log == old(log) + LoadErrors(applicationFile, ApplicationLoadError)
        + LoadErrors(decompositionFile, DecompositionLoadError) + LoadErrors(visualizationFile, ApplicationLoadError)
    {
      LoadApplicationSettings(applicationFile);
      LoadDecompositionSettings(decompositionFile);
      LoadVisualizationSettings(visualizationFile, vertexTolerance);
    }

    /** `SaveSettings`: writes each slot as it is (an empty slot is written as JSON `null`); memory is not changed. */
    method SaveSettings() returns (written: (Option<ApplicationSettings>, Option<DecompositionSettings>, Option<VisualizationSettings>))
      ensures written == (application, decomposition, visualization)
    {
      written := (application, decomposition, visualization);
    }
  }

  /** Once loaded from files that are all present and readable or missing, every property can be read. */
  lemma LoadedReadable<T>(slot: Option<T>, file: StoredFile<T>, default: T)
    requires !file.Unreadable? && file != StoredFile.Read(None)
    ensures Get(Loaded(slot, file, default)).Success?
  {
  }

  /** An unreadable file on a slot never loaded leaves it unreadable through its property. */
  lemma UnreadableStaysUnloaded<T>(file: StoredFile<T>, default: T)
    requires file.Unreadable?
    ensures Get(Loaded(None, file, default)) == Failure(NotLoaded)
  {
  }
}
