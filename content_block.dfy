/** Resolution of one content-block directory into its configuration record
    (`ConfigurationService::configurationForContentBlock`). The file system,
    the JSON and YAML decoders and the validator are inputs. */
module ContentBlocks {
  import opened Wrappers
  import opened Values
  import Strings

  type Path = string

  const DIRECTORY_SEPARATOR: string := "/"
  const NO_VENDOR_PREFIX: string := "cb_novendor_"
  const ICON_FILE_STEM: string := "ContentBlockIcon."
  /** The icon probe order: the first readable one wins. */
  const ICON_EXTENSIONS: seq<string> := ["svg", "png", "gif"]

  /** What the resolver can observe of the disk: which paths `is_readable`
      accepts, what `json_decode` yields for a file (a path without an entry
      decodes to `null`), and what `Yaml::parseFile` yields (a path without an
      entry makes the parser throw). */
  datatype FileSystem = FileSystem(readable: set<Path>, json: map<Path, Value>, yaml: map<Path, Value>)
  {
    predicate IsReadable(p: Path) {
      p in readable
    }

    function JsonDecode(p: Path): Value {
      if p in json then json[p] else Null
    }
  }

  /** One enumerated directory: its resolved real path and its base name. */
  datatype Directory = Directory(realPath: Path, basename: string)

  /** The two icon provider classes, Svg for vector and Bitmap for raster icons. */
  datatype IconProvider = Svg | Bitmap

  datatype Icon = Icon(path: Path, provider: IconProvider)

  /** A translation-file entry: a path, or PHP `false`. */
  datatype Xlf = XlfPath(path: Path) | XlfFalse

  /** The configuration record of one content block. */
  datatype ContentBlock = ContentBlock(
    path: Path,
    icon: Path,
    iconProvider: IconProvider,
    cType: string,
    editorInterfaceXlf: Xlf,
    frontendXlf: Xlf,
    yaml: Value)

  /** Why resolving a directory failed. `Exception` carries the message of an
      exception the service throws itself; `NameTypeError` is `explode()`
      refusing a package name that is not a string (strict types are on),
      whose message is `explode()`'s own and names no file;
      `YamlParseError` is the YAML parser throwing; `ValidationError` is the
      validator's rejection. */
  datatype Error =
    | Exception(message: string)
    | NameTypeError
    | YamlParseError(yamlPath: Path)
    | ValidationError(message: string)

  /** Everything resolution depends on besides the directory: the file system,
      the base path relative to the public root, and the validator, which
      returns a message when it rejects a record. */
  datatype Env = Env(fs: FileSystem, basePath: Path, validate: ContentBlock -> Option<string>)

  /** The paths derived from one directory. */
  datatype Layout = Layout(
    realPath: Path,
    languageRealPath: Path,
    path: Path,
    languagePath: Path,
    composerJsonPath: Path,
    editorInterfaceYamlPath: Path)

  function LanguageDir(dir: Path): Path {
    dir + "src" + DIRECTORY_SEPARATOR + "Language" + DIRECTORY_SEPARATOR
  }

  function LayoutOf(basePath: Path, dir: Directory): Layout {
    var realPath := dir.realPath + DIRECTORY_SEPARATOR;
    var path := basePath + dir.basename + DIRECTORY_SEPARATOR;
    Layout(realPath, LanguageDir(realPath), path, LanguageDir(path),
           realPath + "composer.json", realPath + "EditorInterface.yaml")
  }

  // ---------------------------------------------------------------------------
  // CType

  /** The decoded `composer.json`: `null` when the file is unreadable. */
  function ComposerJson(fs: FileSystem, composerJsonPath: Path): Value {
    if !fs.IsReadable(composerJsonPath) then Null else fs.JsonDecode(composerJsonPath)
  }

  /** The `name` entry of the decoded package descriptor, when it is a string. */
  function PackageName(composerJson: Value): Option<string> {
    match composerJson
    case Dict(entries) =>
      if "name" in entries && entries["name"].Str? then Some(entries["name"].s) else None
    case _ => None
  }

  /** `[$vendor, $packageName] = explode('/', $name)`, joined by `_`; a
      missing second piece is `null`, which concatenates as "". */
  function CTypeFromName(name: string): (cType: string)
    ensures |cType| > 0 && '_' in cType
  {
    var parts := Strings.Explode('/', name);
    parts[0] + "_" + (if |parts| > 1 then parts[1] else "")
  }

  function DeriveCType(composerJson: Value, basename: string): (r: Result<string, Error>)
    ensures r.Success? ==> |r.value| > 0 && '_' in r.value
    ensures r.Failure? ==> r.error == NameTypeError
  {
    if composerJson == Null then
      Success(NO_VENDOR_PREFIX + basename)
    else
      match PackageName(composerJson)
      case None => Failure(NameTypeError)
      case Some(name) => Success(CTypeFromName(name))
  }

  // ---------------------------------------------------------------------------
  // Translation files

  /** The translation file for `fallbackName` ("EditorInterface.xlf" or
      "Frontend.xlf"): the shared Default.xlf when it is readable, the named
      file otherwise (unchecked), and `false` when EditorInterface.yaml is
      unreadable. */
  function TranslationFile(fs: FileSystem, l: Layout, fallbackName: string): Xlf {
    var xlf := if fs.IsReadable(l.languageRealPath + "Default.xlf")
      then XlfPath(l.languagePath + "Default.xlf")
      else XlfPath(l.languagePath + fallbackName);
    if !fs.IsReadable(l.editorInterfaceYamlPath) then XlfFalse else xlf
  }

  // ---------------------------------------------------------------------------
  // Icon

  function IconFile(dir: Path, ext: string): Path {
    dir + ICON_FILE_STEM + ext
  }

  function ProviderFor(ext: string): IconProvider {
    if ext == "svg" then Svg else Bitmap
  }

  /** The icon of the first extension in `exts` whose file under `realPath`
      is readable, recorded under `path`. */
  function FirstIcon(fs: FileSystem, realPath: Path, path: Path, exts: seq<string>): Option<Icon>
    decreases |exts|
  {
    if exts == [] then None
    else if fs.IsReadable(IconFile(realPath, exts[0])) then
      Some(Icon(IconFile(path, exts[0]), ProviderFor(exts[0])))
    else FirstIcon(fs, realPath, path, exts[1..])
  }

  /** The probe loop over svg, png, gif that stops at the first readable icon. */
  method ProbeIcon(fs: FileSystem, realPath: Path, path: Path) returns (icon: Option<Icon>)
    ensures icon == FirstIcon(fs, realPath, path, ICON_EXTENSIONS)
  {
    var exts := ICON_EXTENSIONS;
    icon := None;
    var i := 0;
    while i < |exts|
      invariant 0 <= i <= |exts|
      invariant icon == None
      invariant FirstIcon(fs, realPath, path, exts) == FirstIcon(fs, realPath, path, exts[i..])
    {
      var ext := exts[i];
      if fs.IsReadable(IconFile(realPath, ext)) {
        icon := Some(Icon(IconFile(path, ext), ProviderFor(ext)));
        break;
      }
      assert exts[i..][1..] == exts[i + 1..];
      i := i + 1;
    }
  }

  // ---------------------------------------------------------------------------
  // The record

  function NoIconMessage(cType: string): string {
    "No icon found for content block " + cType
  }

  /** The record array: the real path, the icon and its provider, the CType,
      the two translation entries and the parsed EditorInterface.yaml. */
  function Assemble(l: Layout, icon: Icon, cType: string, editorInterfaceXlf: Xlf, frontendXlf: Xlf, yaml: Value): ContentBlock {
    ContentBlock(l.realPath, icon.path, icon.provider, cType, editorInterfaceXlf, frontendXlf, yaml)
  }

  /** The specification of resolving one directory: each step of the source,
      in its order, with the first failure winning. */
  function Resolve(env: Env, dir: Directory): Result<ContentBlock, Error> {
    var l := LayoutOf(env.basePath, dir);
    match DeriveCType(ComposerJson(env.fs, l.composerJsonPath), dir.basename)
    case Failure(e) => Failure(e)
    case Success(cType) =>
      if !env.fs.IsReadable(l.editorInterfaceYamlPath) then
        Failure(Exception(l.editorInterfaceYamlPath + " not found"))
      else if l.editorInterfaceYamlPath !in env.fs.yaml then
        Failure(YamlParseError(l.editorInterfaceYamlPath))
      else
        match FirstIcon(env.fs, l.realPath, l.path, ICON_EXTENSIONS)
        case None => Failure(Exception(NoIconMessage(cType)))
        case Some(icon) =>
          var cb := Assemble(l, icon, cType,
                             TranslationFile(env.fs, l, "EditorInterface.xlf"),
                             TranslationFile(env.fs, l, "Frontend.xlf"),
                             env.fs.yaml[l.editorInterfaceYamlPath]);
          match env.validate(cb)
          case Some(message) => Failure(ValidationError(message))
          case None => Success(cb)
  }

  method ConfigurationForContentBlock(env: Env, dir: Directory) returns (r: Result<ContentBlock, Error>)
    ensures r == Resolve(env, dir)
  {
    var l := LayoutOf(env.basePath, dir);

    var composerJson := ComposerJson(env.fs, l.composerJsonPath);
    var cType := DeriveCType(composerJson, dir.basename);
    if cType.Failure? {
      return Failure(cType.error);
    }

    if !env.fs.IsReadable(l.editorInterfaceYamlPath) {
      return Failure(Exception(l.editorInterfaceYamlPath + " not found"));
    }
    if l.editorInterfaceYamlPath !in env.fs.yaml {
      return Failure(YamlParseError(l.editorInterfaceYamlPath));
    }
    var editorInterfaceYaml := env.fs.yaml[l.editorInterfaceYamlPath];

    var editorInterfaceXlf := TranslationFile(env.fs, l, "EditorInterface.xlf");
    var frontendXlf := TranslationFile(env.fs, l, "Frontend.xlf");

    var icon := ProbeIcon(env.fs, l.realPath, l.path);
    if icon.None? {
      return Failure(Exception(NoIconMessage(cType.value)));
    }

    var cb := Assemble(l, icon.value, cType.value, editorInterfaceXlf, frontendXlf, editorInterfaceYaml);
    var rejection := env.validate(cb);
    if rejection.Some? {
      return Failure(ValidationError(rejection.value));
    }
    return Success(cb);
  }
}
