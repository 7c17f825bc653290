/** What resolving one content-block directory guarantees. */
module ContentBlockFacts {
  import opened Wrappers
  import opened Values
  import Strings
  import opened ContentBlocks

  // ---------------------------------------------------------------------------
  // CType

  /** Without a usable composer.json the CType falls back to the directory name. */
  lemma NoVendorFallback(fs: FileSystem, basename: string, composerJsonPath: Path)
    requires !fs.IsReadable(composerJsonPath) || fs.JsonDecode(composerJsonPath) == Null
    ensures DeriveCType(ComposerJson(fs, composerJsonPath), basename)
         == Success("cb_novendor_" + basename)
  {
  }

  /** "vendor/package" becomes "vendor_package". */
  lemma VendorPackage(vendor: string, package: string)
    requires '/' !in vendor && '/' !in package
    ensures CTypeFromName(vendor + "/" + package) == vendor + "_" + package
  {
    Strings.ExplodeAfterPiece('/', vendor, package);
    Strings.ExplodeWithoutSeparator('/', package);
  }

  /** Segments after the second are dropped. */
  lemma ExtraSegmentsIgnored(vendor: string, package: string, rest: string)
    requires '/' !in vendor && '/' !in package
    ensures CTypeFromName(vendor + "/" + package + "/" + rest) == vendor + "_" + package
  {
    assert vendor + "/" + package + "/" + rest == vendor + ['/'] + (package + ['/'] + rest);
    Strings.ExplodeAfterPiece('/', vendor, package + ['/'] + rest);
    Strings.ExplodeAfterPiece('/', package, rest);
  }

  /** A name without a slash is not an error: the package part is empty. */
  lemma NameWithoutSlash(name: string)
    requires '/' !in name
    ensures CTypeFromName(name) == name + "_"
  {
    Strings.ExplodeWithoutSeparator('/', name);
  }

  /** A decoded package name "vendor/package" gives the CType "vendor_package". */
  lemma PackageCType(composerJson: Value, basename: string, vendor: string, package: string)
    requires PackageName(composerJson) == Some(vendor + "/" + package)
    requires '/' !in vendor && '/' !in package
    ensures DeriveCType(composerJson, basename) == Success(vendor + "_" + package)
  {
    VendorPackage(vendor, package);
  }

  // ---------------------------------------------------------------------------
  // Failures

  /** A composer.json that decodes to something other than null but has no
      string name fails resolution with the type error. */
  lemma NameNotString(env: Env, dir: Directory)
    requires var l := LayoutOf(env.basePath, dir);
      ComposerJson(env.fs, l.composerJsonPath) != Null && PackageName(ComposerJson(env.fs, l.composerJsonPath)).None?
    ensures Resolve(env, dir) == Failure(NameTypeError)
  {
  }

  /** An unreadable EditorInterface.yaml always fails resolution; once the
      CType is derived the failure is the exception naming that file. */
  lemma MissingEditorInterface(env: Env, dir: Directory)
    requires !env.fs.IsReadable(dir.realPath + "/EditorInterface.yaml")
    ensures Resolve(env, dir).Failure?
    ensures var l := LayoutOf(env.basePath, dir);
      DeriveCType(ComposerJson(env.fs, l.composerJsonPath), dir.basename).Success? ==>
        && Resolve(env, dir) == Failure(Exception(dir.realPath + "/EditorInterface.yaml not found"))
        && Resolve(env, dir).error.message[..|dir.realPath + "/EditorInterface.yaml"|] == dir.realPath + "/EditorInterface.yaml"
  {
    var l := LayoutOf(env.basePath, dir);
    assert l.editorInterfaceYamlPath == dir.realPath + "/EditorInterface.yaml";
    assert l.editorInterfaceYamlPath + " not found" == dir.realPath + "/EditorInterface.yaml not found";
  }

  /** Once the CType derives and EditorInterface.yaml is readable and parses,
      no readable icon fails resolution with the exception naming the CType. */
  lemma MissingIcon(env: Env, dir: Directory)
    requires var l := LayoutOf(env.basePath, dir);
      && DeriveCType(ComposerJson(env.fs, l.composerJsonPath), dir.basename).Success?
      && env.fs.IsReadable(l.editorInterfaceYamlPath) && l.editorInterfaceYamlPath in env.fs.yaml
      && forall ext :: ext in ICON_EXTENSIONS ==> !env.fs.IsReadable(IconFile(l.realPath, ext))
    ensures var l := LayoutOf(env.basePath, dir);
      var cType := DeriveCType(ComposerJson(env.fs, l.composerJsonPath), dir.basename).value;
      Resolve(env, dir) == Failure(Exception("No icon found for content block " + cType))
  {
  }

  /** A validator rejection fails resolution with its message. */
  lemma ValidatorRejects(env: Env, dir: Directory, cType: string, icon: Icon, message: string)
    requires var l := LayoutOf(env.basePath, dir);
      && DeriveCType(ComposerJson(env.fs, l.composerJsonPath), dir.basename) == Success(cType)
      && env.fs.IsReadable(l.editorInterfaceYamlPath) && l.editorInterfaceYamlPath in env.fs.yaml
      && FirstIcon(env.fs, l.realPath, l.path, ICON_EXTENSIONS) == Some(icon)
      && env.validate(Assemble(l, icon, cType, TranslationFile(env.fs, l, "EditorInterface.xlf"),
                               TranslationFile(env.fs, l, "Frontend.xlf"), env.fs.yaml[l.editorInterfaceYamlPath]))
         == Some(message)
    ensures Resolve(env, dir) == Failure(ValidationError(message))
  {
  }

  // ---------------------------------------------------------------------------
  // A returned record

  /** The fields of a returned record: the real path with a trailing
      separator, the derived CType, the parsed EditorInterface.yaml, the
      probed icon, and a record the validator accepted. */
  lemma RecordFields(env: Env, dir: Directory)
    requires Resolve(env, dir).Success?
    ensures var cb := Resolve(env, dir).value;
      var l := LayoutOf(env.basePath, dir);
      && cb.path == dir.realPath + "/"
      && DeriveCType(ComposerJson(env.fs, l.composerJsonPath), dir.basename) == Success(cb.cType)
      && env.fs.IsReadable(dir.realPath + "/EditorInterface.yaml")
      && dir.realPath + "/EditorInterface.yaml" in env.fs.yaml
      && cb.yaml == env.fs.yaml[dir.realPath + "/EditorInterface.yaml"]
      && FirstIcon(env.fs, dir.realPath + "/", env.basePath + dir.basename + "/", ICON_EXTENSIONS)
         == Some(Icon(cb.icon, cb.iconProvider))
      && env.validate(cb).None?
  {
    var l := LayoutOf(env.basePath, dir);
    assert l.editorInterfaceYamlPath == dir.realPath + "/EditorInterface.yaml";
  }

  /** Conversely, a directory whose CType derives, whose EditorInterface.yaml
      is readable and parses, which has an icon and whose record the
      validator accepts resolves to exactly that record. */
  lemma ResolveSucceeds(env: Env, dir: Directory, cType: string, icon: Icon)
    requires var l := LayoutOf(env.basePath, dir);
      && DeriveCType(ComposerJson(env.fs, l.composerJsonPath), dir.basename) == Success(cType)
      && env.fs.IsReadable(l.editorInterfaceYamlPath) && l.editorInterfaceYamlPath in env.fs.yaml
      && FirstIcon(env.fs, l.realPath, l.path, ICON_EXTENSIONS) == Some(icon)
      && env.validate(Assemble(l, icon, cType, TranslationFile(env.fs, l, "EditorInterface.xlf"),
                               TranslationFile(env.fs, l, "Frontend.xlf"), env.fs.yaml[l.editorInterfaceYamlPath])).None?
    ensures var l := LayoutOf(env.basePath, dir);
      Resolve(env, dir) == Success(Assemble(l, icon, cType, TranslationFile(env.fs, l, "EditorInterface.xlf"),
                                            TranslationFile(env.fs, l, "Frontend.xlf"), env.fs.yaml[l.editorInterfaceYamlPath]))
  {
  }

  /** A returned record never holds `false` for a translation file; both
      entries are Default.xlf when that file is readable, and the two
      distinct named files otherwise. */
  lemma TranslationPaths(env: Env, dir: Directory)
    requires Resolve(env, dir).Success?
    ensures var cb := Resolve(env, dir).value;
      var languagePath := env.basePath + dir.basename + "/src/Language/";
      && cb.editorInterfaceXlf.XlfPath? && cb.frontendXlf.XlfPath?
      && (env.fs.IsReadable(dir.realPath + "/src/Language/Default.xlf") ==>
            cb.editorInterfaceXlf.path == cb.frontendXlf.path == languagePath + "Default.xlf")
      && (!env.fs.IsReadable(dir.realPath + "/src/Language/Default.xlf") ==>
            && cb.editorInterfaceXlf.path == languagePath + "EditorInterface.xlf"
            && cb.frontendXlf.path == languagePath + "Frontend.xlf"
            && cb.editorInterfaceXlf != cb.frontendXlf)
  {
    var l := LayoutOf(env.basePath, dir);
    assert l.languageRealPath + "Default.xlf" == dir.realPath + "/src/Language/Default.xlf";
    assert l.languagePath == env.basePath + dir.basename + "/src/Language/";
  }

  /** The fallback translation files are named without being looked at: two
      file systems that agree on EditorInterface.yaml and Default.xlf give the
      same entry. */
  lemma TranslationIgnoresNamedFile(fs1: FileSystem, fs2: FileSystem, l: Layout, fallbackName: string)
    requires fs1.IsReadable(l.editorInterfaceYamlPath) == fs2.IsReadable(l.editorInterfaceYamlPath)
    requires fs1.IsReadable(l.languageRealPath + "Default.xlf") == fs2.IsReadable(l.languageRealPath + "Default.xlf")
    ensures TranslationFile(fs1, l, fallbackName) == TranslationFile(fs2, l, fallbackName)
  {
  }

  // ---------------------------------------------------------------------------
  // Icon probe

  /** `i` is the first position in `exts` whose icon file is readable. */
  ghost predicate IsFirstReadable(fs: FileSystem, realPath: Path, exts: seq<string>, i: int) {
    && 0 <= i < |exts|
    && fs.IsReadable(IconFile(realPath, exts[i]))
    && forall j :: 0 <= j < i ==> !fs.IsReadable(IconFile(realPath, exts[j]))
  }

  /** The probe finds nothing exactly when no icon file is readable, and
      otherwise picks the first readable one in probe order. */
  lemma {:induction false} FirstIconIsFirstReadable(fs: FileSystem, realPath: Path, path: Path, exts: seq<string>)
    ensures FirstIcon(fs, realPath, path, exts).None? <==>
            forall i :: 0 <= i < |exts| ==> !fs.IsReadable(IconFile(realPath, exts[i]))
    ensures forall i :: IsFirstReadable(fs, realPath, exts, i) ==>
            FirstIcon(fs, realPath, path, exts) == Some(Icon(IconFile(path, exts[i]), ProviderFor(exts[i])))
    decreases |exts|
  {
    if exts != [] {
      FirstIconIsFirstReadable(fs, realPath, path, exts[1..]);
      forall i | IsFirstReadable(fs, realPath, exts, i)
        ensures FirstIcon(fs, realPath, path, exts) == Some(Icon(IconFile(path, exts[i]), ProviderFor(exts[i])))
      {
        if i > 0 {
          assert IsFirstReadable(fs, realPath, exts[1..], i - 1);
        }
      }
      if !fs.IsReadable(IconFile(realPath, exts[0])) {
        assert forall i :: 0 < i < |exts| ==> exts[1..][i - 1] == exts[i];
      }
    }
  }

  /** svg wins over png. */
  lemma SvgBeforePng(fs: FileSystem, realPath: Path, path: Path)
    requires fs.IsReadable(IconFile(realPath, "svg")) && fs.IsReadable(IconFile(realPath, "png"))
    ensures FirstIcon(fs, realPath, path, ICON_EXTENSIONS) == Some(Icon(path + "ContentBlockIcon.svg", Svg))
  {
    assert IconFile(path, "svg") == path + "ContentBlockIcon.svg";
  }

  /** A lone gif is chosen, with the bitmap provider. */
  lemma OnlyGif(fs: FileSystem, realPath: Path, path: Path)
    requires !fs.IsReadable(IconFile(realPath, "svg")) && !fs.IsReadable(IconFile(realPath, "png"))
    requires fs.IsReadable(IconFile(realPath, "gif"))
    ensures FirstIcon(fs, realPath, path, ICON_EXTENSIONS) == Some(Icon(path + "ContentBlockIcon.gif", Bitmap))
  {
    assert ICON_EXTENSIONS[1..] == ["png", "gif"] && ICON_EXTENSIONS[1..][1..] == ["gif"];
    assert IconFile(path, "gif") == path + "ContentBlockIcon.gif";
  }

  /** The provider is Svg exactly when the svg icon is the one found. */
  lemma ProviderKind(fs: FileSystem, realPath: Path, path: Path)
    requires FirstIcon(fs, realPath, path, ICON_EXTENSIONS).Some?
    ensures FirstIcon(fs, realPath, path, ICON_EXTENSIONS).value.provider == Svg
        <==> fs.IsReadable(realPath + "ContentBlockIcon.svg")
  {
    assert IconFile(realPath, "svg") == realPath + "ContentBlockIcon.svg";
    assert ICON_EXTENSIONS[1..] == ["png", "gif"] && ICON_EXTENSIONS[1..][1..] == ["gif"];
    assert ICON_EXTENSIONS[1..][1..][1..] == [];
  }
}
