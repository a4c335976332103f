/**
 The semantic locations the loader knows (`AtlasPath`) and the table that
 gives each of them a path string.
 */
module AtlasPaths {

  datatype AtlasPath =
    | LocalAppDataFolder
    | CommonAppDataFolder
    | AppDataFolder
    | UnityDataFolder
    | UnityPersistentDataFolder
    | ServerFolder
    | MainFolder
    | AtlasFolder
    | PluginFolder
    | ConfigFolder
    | PluginConfigFolder
    | DependencyFolder
    | MainAssembly
    | PluginAssembly

  /**
   The strings the table is built from. In the running host they come
   from the special folders of the operating system, the engine's data
   paths, the parent of the engine data path, the decimal rendering of
   the server port, the host's plugin directory and the name of the
   executing assembly; here they are inputs.
   */
  datatype Roots = Roots(
    commonAppData: string,
    localAppData: string,
    appData: string,
    dataPath: string,
    persistentDataPath: string,
    serverFolder: string,
    port: string,
    hostPluginsFolder: string,
    assemblyName: string)

  /** Every key is one of the fourteen constructors. */
  predicate IsKey(k: AtlasPath)
  {
    k.LocalAppDataFolder? || k.CommonAppDataFolder? || k.AppDataFolder? ||
    k.UnityDataFolder? || k.UnityPersistentDataFolder? ||
    k.ServerFolder? || k.MainFolder? || k.AtlasFolder? || k.PluginFolder? || k.ConfigFolder? ||
    k.PluginConfigFolder? || k.DependencyFolder? || k.MainAssembly? || k.PluginAssembly?
  }

  /** The order in which the constructor inserts the keys into the table. */
  const InsertionOrder: seq<AtlasPath> := [
    CommonAppDataFolder, LocalAppDataFolder, AppDataFolder,
    UnityDataFolder, UnityPersistentDataFolder,
    ServerFolder, AtlasFolder, MainFolder, PluginFolder, ConfigFolder,
    PluginConfigFolder, DependencyFolder,
    MainAssembly, PluginAssembly]

  lemma InsertionOrderListsEveryKeyOnce()
    ensures forall k: AtlasPath :: k in InsertionOrder
    ensures forall i, j :: 0 <= i < j < |InsertionOrder| ==> InsertionOrder[i] != InsertionOrder[j]
  {
    forall k: AtlasPath ensures k in InsertionOrder {
      assert IsKey(k);
    }
  }

  /**
   The path table the constructor builds. Every key has an entry, and the
   per-instance layout hangs below the server folder:
   <server>/atlas/<port>/{plugins, configs, configs/plugins, dependencies, main.dll}.
   */
  function BuildTable(roots: Roots): (t: map<AtlasPath, string>)
    ensures forall k: AtlasPath :: k in t
    ensures t[CommonAppDataFolder] == roots.commonAppData && t[LocalAppDataFolder] == roots.localAppData
    ensures t[AppDataFolder] == roots.appData
    ensures t[UnityDataFolder] == roots.dataPath && t[UnityPersistentDataFolder] == roots.persistentDataPath
    ensures t[ServerFolder] == roots.serverFolder
    ensures t[AtlasFolder] == t[ServerFolder] + "/atlas"
    ensures t[MainFolder] == t[AtlasFolder] + "/" + roots.port
    ensures t[PluginFolder] == t[MainFolder] + "/plugins"
    ensures t[ConfigFolder] == t[MainFolder] + "/configs"
    ensures t[PluginConfigFolder] == t[ConfigFolder] + "/plugins"
    ensures t[DependencyFolder] == t[MainFolder] + "/dependencies"
    ensures t[MainAssembly] == t[MainFolder] + "/main.dll"
    ensures t[PluginAssembly] == roots.hostPluginsFolder + "/" + roots.assemblyName + ".dll"
  {
    var atlas := roots.serverFolder + "/atlas";
    var main := atlas + "/" + roots.port;
    var configs := main + "/configs";
    var t := map[
      CommonAppDataFolder := roots.commonAppData,
      LocalAppDataFolder := roots.localAppData,
      AppDataFolder := roots.appData,
      UnityDataFolder := roots.dataPath,
      UnityPersistentDataFolder := roots.persistentDataPath,
      ServerFolder := roots.serverFolder,
      AtlasFolder := atlas,
      MainFolder := main,
      PluginFolder := main + "/plugins",
      ConfigFolder := configs,
      PluginConfigFolder := configs + "/plugins",
      DependencyFolder := main + "/dependencies",
      MainAssembly := main + "/main.dll",
      PluginAssembly := roots.hostPluginsFolder + "/" + roots.assemblyName + ".dll"];
    assert forall k: AtlasPath :: IsKey(k) ==> k in t;
    t
  }

  /** `a + x == a + y` only when `x == y`. */
  lemma {:induction false} AppendCancels(a: string, x: string, y: string)
    requires a + x == a + y
    ensures x == y
  {
    assert x == (a + x)[|a|..];
    assert y == (a + y)[|a|..];
  }

  /**
   Each running instance gets its own folder: two servers under the same
   server folder share a main folder only when their ports are the same.
   */
  lemma {:induction false} MainFolderIdentifiesPort(r1: Roots, r2: Roots)
    requires r1.serverFolder == r2.serverFolder
    ensures BuildTable(r1)[MainFolder] == BuildTable(r2)[MainFolder] <==> r1.port == r2.port
  {
    var base := r1.serverFolder + "/atlas" + "/";
    assert BuildTable(r1)[MainFolder] == base + r1.port;
    assert BuildTable(r2)[MainFolder] == base + r2.port;
    if base + r1.port == base + r2.port {
      AppendCancels(base, r1.port, r2.port);
    }
  }

  /**
   The five entries below the main folder are five different paths, and
   each strictly extends the main folder.
   */
  lemma {:induction false} InstanceLayoutDistinct(roots: Roots)
    ensures var t := BuildTable(roots);
      var below := [t[PluginFolder], t[ConfigFolder], t[PluginConfigFolder], t[DependencyFolder], t[MainAssembly]];
      (forall i :: 0 <= i < |below| ==> |below[i]| > |t[MainFolder]| && below[i][..|t[MainFolder]|] == t[MainFolder]) &&
      (forall i, j :: 0 <= i < j < |below| ==> below[i] != below[j])
  {
  }
}
