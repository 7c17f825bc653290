/** The configuration of all content blocks (`ConfigurationService::
    configurationUncached` and `configuration`): every enumerated directory
    resolved and stored under its CType, computed once and then served from
    a cache. */
module Configuration {
  import opened Wrappers
  import opened ContentBlocks

  type ConfigurationMap = map<string, ContentBlock>

  /** The map the directory loop builds for a given per-directory resolver:
      the directories resolved in order, each record stored under its CType
      over what came before; the first failure aborts the build. */
  function Aggregate(resolve: Directory -> Result<ContentBlock, Error>, dirs: seq<Directory>): Result<ConfigurationMap, Error>
    decreases |dirs|
  {
    if dirs == [] then Success(map[])
    else
      match Aggregate(resolve, dirs[..|dirs| - 1])
      case Failure(e) => Failure(e)
      case Success(m) =>
        match resolve(dirs[|dirs| - 1])
        case Failure(e) => Failure(e)
        case Success(cb) => Success(m[cb.cType := cb])
  }

  /** The specification of the build: the aggregate of resolving each directory. */
  function Build(env: Env, dirs: seq<Directory>): Result<ConfigurationMap, Error> {
    Aggregate((d: Directory) => Resolve(env, d), dirs)
  }

  /** A failed prefix fails the whole build with the same error. */
  lemma {:induction false} FailedPrefixAborts(resolve: Directory -> Result<ContentBlock, Error>, dirs: seq<Directory>, k: nat)
    requires k <= |dirs|
    requires Aggregate(resolve, dirs[..k]).Failure?
    ensures Aggregate(resolve, dirs) == Aggregate(resolve, dirs[..k])
    decreases |dirs| - k
  {
    if k < |dirs| {
      assert dirs[..k] == dirs[..|dirs| - 1][..k];
      FailedPrefixAborts(resolve, dirs[..|dirs| - 1], k);
    } else {
      assert dirs[..k] == dirs;
    }
  }

  /** The directory loop: resolve each directory and write its record into
      the map under its CType. */
  method ConfigurationUncached(env: Env, dirs: seq<Directory>) returns (r: Result<ConfigurationMap, Error>)
    ensures r == Build(env, dirs)
  {
    var contentBlockConfiguration: ConfigurationMap := map[];
    for i := 0 to |dirs|
      invariant Build(env, dirs[..i]) == Success(contentBlockConfiguration)
    {
      assert dirs[..i + 1][..i] == dirs[..i];
      var cb := ConfigurationForContentBlock(env, dirs[i]);
      if cb.Failure? {
        FailedPrefixAborts((d: Directory) => Resolve(env, d), dirs, i + 1);
        return Failure(cb.error);
      }
      contentBlockConfiguration := contentBlockConfiguration[cb.value.cType := cb.value];
    }
    assert dirs[..|dirs|] == dirs;
    return Success(contentBlockConfiguration);
  }

  // ---------------------------------------------------------------------------
  // What a build guarantees, for any per-directory resolver (Build is the
  // instance with Resolve)

  /** The build fails exactly when some directory fails, and then with the
      error of the first failing directory: no partial map is returned. */
  lemma {:induction false} AllOrNothing(resolve: Directory -> Result<ContentBlock, Error>, dirs: seq<Directory>)
    ensures Aggregate(resolve, dirs).Success? <==> forall i :: 0 <= i < |dirs| ==> resolve(dirs[i]).Success?
    ensures Aggregate(resolve, dirs).Failure? ==>
      exists i :: && 0 <= i < |dirs| && resolve(dirs[i]) == Failure(Aggregate(resolve, dirs).error)
                  && forall j :: 0 <= j < i ==> resolve(dirs[j]).Success?
    decreases |dirs|
  {
    if dirs != [] {
      var init := dirs[..|dirs| - 1];
      AllOrNothing(resolve, init);
      assert forall i :: 0 <= i < |init| ==> init[i] == dirs[i];
      if Aggregate(resolve, init).Failure? {
        var i :| && 0 <= i < |init| && resolve(init[i]) == Failure(Aggregate(resolve, init).error)
                 && forall j :: 0 <= j < i ==> resolve(init[j]).Success?;
        assert resolve(dirs[i]) == Failure(Aggregate(resolve, dirs).error);
      } else if resolve(dirs[|dirs| - 1]).Failure? {
        assert resolve(dirs[|dirs| - 1]) == Failure(Aggregate(resolve, dirs).error);
      }
    }
  }

  /** After a build the keys are exactly the CTypes of the directories. */
  lemma {:induction false} KeysAreCTypes(resolve: Directory -> Result<ContentBlock, Error>, dirs: seq<Directory>)
    requires Aggregate(resolve, dirs).Success?
    ensures forall i :: 0 <= i < |dirs| ==>
      resolve(dirs[i]).Success? && resolve(dirs[i]).value.cType in Aggregate(resolve, dirs).value
    ensures forall key :: key in Aggregate(resolve, dirs).value ==>
      exists i :: 0 <= i < |dirs| && resolve(dirs[i]).Success? && resolve(dirs[i]).value.cType == key
    decreases |dirs|
  {
    if dirs != [] {
      var init := dirs[..|dirs| - 1];
      KeysAreCTypes(resolve, init);
      assert forall i :: 0 <= i < |init| ==> init[i] == dirs[i];
      var last := |dirs| - 1;
      forall key | key in Aggregate(resolve, dirs).value
        ensures exists i :: 0 <= i < |dirs| && resolve(dirs[i]).Success? && resolve(dirs[i]).value.cType == key
      {
        if key != resolve(dirs[last]).value.cType {
          var i :| 0 <= i < |init| && resolve(init[i]).Success? && resolve(init[i]).value.cType == key;
          assert resolve(dirs[i]).value.cType == key;
        } else {
          assert resolve(dirs[last]).value.cType == key;
        }
      }
    }
  }

  /** Every stored record sits under its own CType. */
  lemma {:induction false} StoredUnderOwnCType(resolve: Directory -> Result<ContentBlock, Error>, dirs: seq<Directory>)
    requires Aggregate(resolve, dirs).Success?
    ensures forall key :: key in Aggregate(resolve, dirs).value ==> Aggregate(resolve, dirs).value[key].cType == key
    decreases |dirs|
  {
    if dirs != [] {
      StoredUnderOwnCType(resolve, dirs[..|dirs| - 1]);
    }
  }

  /** For a duplicated CType the record of the last directory with it wins. */
  lemma {:induction false} LastDirectoryWins(resolve: Directory -> Result<ContentBlock, Error>, dirs: seq<Directory>, i: nat)
    requires Aggregate(resolve, dirs).Success?
    requires i < |dirs| && resolve(dirs[i]).Success?
    requires forall j :: i < j < |dirs| ==>
      resolve(dirs[j]).Success? ==> resolve(dirs[j]).value.cType != resolve(dirs[i]).value.cType
    ensures resolve(dirs[i]).value.cType in Aggregate(resolve, dirs).value
    ensures Aggregate(resolve, dirs).value[resolve(dirs[i]).value.cType] == resolve(dirs[i]).value
    decreases |dirs|
  {
    var last := |dirs| - 1;
    var init := dirs[..last];
    if i < last {
      assert init[i] == dirs[i];
      assert forall j :: i < j < |init| ==> init[j] == dirs[j];
      LastDirectoryWins(resolve, init, i);
    }
  }

  // ---------------------------------------------------------------------------
  // The cache

  /** The configuration cache: a key-value store. */
  class Cache {
    var entries: map<string, ConfigurationMap>

    constructor ()
      ensures entries == map[]
    {
      entries := map[];
    }

    /** `get`: the stored value, or None (PHP `false`) on a miss. */
    method Get(key: string) returns (value: Option<ConfigurationMap>)
      ensures value.Some? <==> key in entries
      ensures value.Some? ==> value.value == entries[key]
    {
      value := if key in entries then Some(entries[key]) else None;
    }

    /** `set`: store a value under a key, over any earlier one. */
    method Set(key: string, value: ConfigurationMap)
      modifies this
      ensures entries == old(entries)[key := value]
    {
      entries := entries[key := value];
    }
  }

  /** Build on a miss and store the result under `entry`; on a hit return
      the stored map. `builds` is instrumentation: it is set to 1 beside
      the call to `ConfigurationUncached` and is 0 when that call is
      skipped. */
  method Configuration(cache: Cache, entry: string, env: Env, dirs: seq<Directory>)
      returns (r: Result<ConfigurationMap, Error>, ghost builds: nat)
    modifies cache
    ensures entry in old(cache.entries) ==>
      && r == Success(old(cache.entries[entry]))
      && builds == 0
      && cache.entries == old(cache.entries)
    ensures entry !in old(cache.entries) ==>
      && r == Build(env, dirs)
      && builds == 1
      && cache.entries == if r.Success? then old(cache.entries)[entry := r.value] else old(cache.entries)
  {
    builds := 0;
    var configuration := cache.Get(entry);
    if configuration.None? {
      r := ConfigurationUncached(env, dirs);
      builds := builds + 1;
      if r.Failure? {
        return;
      }
      cache.Set(entry, r.value);
    } else {
      r := Success(configuration.value);
    }
  }

  /** A second call after a successful one serves the same map from the
      cache without building again. */
  method ConfigurationTwice(cache: Cache, entry: string, env: Env, dirs: seq<Directory>)
      returns (first: Result<ConfigurationMap, Error>, second: Result<ConfigurationMap, Error>, ghost secondBuilds: nat)
    modifies cache
    ensures first.Success? ==> second == first && secondBuilds == 0
    ensures entry !in old(cache.entries) ==> first == Build(env, dirs)
  {
    ghost var firstBuilds;
    first, firstBuilds := Configuration(cache, entry, env, dirs);
    second, secondBuilds := Configuration(cache, entry, env, dirs);
  }
}

/** A worked instance of the whole pipeline: one directory with a package
    name "vendor/package" (such as "acme/widget"). */
module Scenario {
  import opened Wrappers
  import opened Values
  import opened ContentBlocks
  import opened Configuration
  import ContentBlockFacts

  /** The directory `block` holds a composer.json named "vendor/package", a
      parseable EditorInterface.yaml and an svg icon (other files may be
      there too). */
  ghost predicate WidgetSite(fs: FileSystem, block: Path, vendor: string, package: string) {
    && fs.IsReadable(block + "/composer.json")
    && fs.JsonDecode(block + "/composer.json") == Dict(map["name" := Str(vendor + "/" + package)])
    && fs.IsReadable(block + "/EditorInterface.yaml")
    && block + "/EditorInterface.yaml" in fs.yaml
    && fs.IsReadable(block + "/ContentBlockIcon.svg")
  }

  /** With slash-free vendor and package parts and a validator that accepts
      every record, the directory resolves to a record with CType
      "vendor_package" and the svg icon. */
  lemma WidgetResolves(env: Env, block: Path, name: string, vendor: string, package: string)
    requires '/' !in vendor && '/' !in package
    requires WidgetSite(env.fs, block, vendor, package)
    requires forall cb :: env.validate(cb) == None
    ensures var r := Resolve(env, Directory(block, name));
      && r.Success?
      && r.value.cType == vendor + "_" + package
      && r.value.iconProvider == Svg
      && r.value.icon == env.basePath + name + "/ContentBlockIcon.svg"
  {
    var dir := Directory(block, name);
    var l := LayoutOf(env.basePath, dir);
    var cType := vendor + "_" + package;
    assert DeriveCType(ComposerJson(env.fs, l.composerJsonPath), dir.basename) == Success(cType) by {
      assert l.composerJsonPath == block + "/composer.json";
      ContentBlockFacts.PackageCType(ComposerJson(env.fs, l.composerJsonPath), dir.basename, vendor, package);
    }
    assert env.fs.IsReadable(l.editorInterfaceYamlPath) && l.editorInterfaceYamlPath in env.fs.yaml by {
      assert l.editorInterfaceYamlPath == block + "/EditorInterface.yaml";
    }
    var icon := Icon(env.basePath + name + "/ContentBlockIcon.svg", Svg);
    assert FirstIcon(env.fs, l.realPath, l.path, ICON_EXTENSIONS) == Some(icon) by {
      assert IconFile(l.realPath, "svg") == block + "/ContentBlockIcon.svg";
      assert IconFile(l.path, "svg") == env.basePath + name + "/ContentBlockIcon.svg";
    }
    ContentBlockFacts.ResolveSucceeds(env, dir, cType, icon);
  }

  /** With an accepting validator the configuration has the single entry
      "vendor_package", rendered by the Svg provider. */
  lemma WidgetConfiguration(env: Env, block: Path, name: string, vendor: string, package: string)
    requires '/' !in vendor && '/' !in package
    requires WidgetSite(env.fs, block, vendor, package)
    requires forall cb :: env.validate(cb) == None
    ensures var r := Build(env, [Directory(block, name)]);
      && r.Success?
      && r.value.Keys == {vendor + "_" + package}
      && r.value[vendor + "_" + package].iconProvider == Svg
      && r.value[vendor + "_" + package].icon == env.basePath + name + "/ContentBlockIcon.svg"
  {
    var dirs := [Directory(block, name)];
    WidgetResolves(env, block, name, vendor, package);
    var cb := Resolve(env, dirs[0]).value;
    assert dirs[..0] == [];
    assert Aggregate((d: Directory) => Resolve(env, d), dirs[..0]) == Success(map[]);
    assert Build(env, dirs) == Success(map[cb.cType := cb]);
  }
}
