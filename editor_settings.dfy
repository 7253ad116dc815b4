/**
 * The editor-side settings service: where the settings asset lives, how the folders on
 * its path are provisioned one level at a time, and how the settings are updated.
 * The asset database is reduced to the set of folder paths that exist, plus the record of
 * CreateFolder calls made against it.
 */
module EditorSettings {
  import Text
  import opened Settings

  const AssetName := "GasSettings.asset"
  const ResourcesDirName := "Resources"
  const BaseDirPath := "Assets/Plugins/UniGasLogger"
  const FinalResourcesPath := BaseDirPath + "/" + ResourcesDirName
  const FinalAssetPath := FinalResourcesPath + "/" + AssetName

  /** The asset is `GasSettings.asset` inside the plugin's Resources folder */
  lemma AssetPathValue()
    ensures FinalResourcesPath == "Assets/Plugins/UniGasLogger/Resources"
    ensures FinalAssetPath == "Assets/Plugins/UniGasLogger/Resources/GasSettings.asset"
  {
  }

  class AssetDatabase {
    var folders: set<string>
    var created: seq<(string, string)>   // (parent, name) of every CreateFolder call, in order

    constructor (folders: set<string>)
      ensures this.folders == folders && created == []
    {
      this.folders := folders;
      created := [];
    }

    predicate IsValidFolder(path: string)
      reads this
    {
      path in folders
    }

    /** Creates the folder `parentFolder/newFolderName` */
    method CreateFolder(parentFolder: string, newFolderName: string)
      modifies this
      ensures folders == old(folders) + {parentFolder + "/" + newFolderName}
      ensures created == old(created) + [(parentFolder, newFolderName)]
    {
      folders := folders + {parentFolder + "/" + newFolderName};
      created := created + [(parentFolder, newFolderName)];
    }
  }

  /** The path made of the first k components */
  function Prefix(parts: seq<string>, k: nat): string
    requires 1 <= k <= |parts|
  {
    Text.Join(parts[..k], "/")
  }

  /** The paths of the first 2, 3, ..., i components: the folders the loop ensures up to step i */
  function Ensured(parts: seq<string>, i: nat): set<string>
    requires i <= |parts|
  {
    set k | 2 <= k <= i :: Prefix(parts, k)
  }

  /**
   * The CreateFolder calls of the loop steps before i, against the folders that existed
   * before the call: step j creates component j under the path of the components before it,
   * when the path of the first j + 1 components is missing.
   */
  function Creations(parts: seq<string>, existing: set<string>, i: nat): seq<(string, string)>
    requires i <= |parts|
    decreases i
  {
    if i <= 1 then []
    else
      var step := if Prefix(parts, i) in existing then [] else [(Prefix(parts, i - 1), parts[i - 1])];
      Creations(parts, existing, i - 1) + step
  }

  /** Extending a prefix by one component appends "/" and that component */
  lemma PrefixStep(parts: seq<string>, k: nat)
    requires 1 <= k < |parts|
    ensures Prefix(parts, k + 1) == Prefix(parts, k) + "/" + parts[k]
  {
    assert parts[..k + 1][..k] == parts[..k];
  }

  /** Longer prefixes are longer paths, so no two prefixes coincide */
  lemma {:induction false} PrefixGrows(parts: seq<string>, j: nat, k: nat)
    requires 1 <= j < k <= |parts|
    ensures |Prefix(parts, j)| < |Prefix(parts, k)|
    decreases k - j
  {
    PrefixStep(parts, k - 1);
    if j < k - 1 {
      PrefixGrows(parts, j, k - 1);
    }
  }

  /** The path of the next step is not among those already ensured */
  lemma NextPrefixNew(parts: seq<string>, i: nat)
    requires 1 <= i < |parts|
    ensures Prefix(parts, i + 1) !in Ensured(parts, i)
  {
    forall k | 2 <= k <= i ensures Prefix(parts, k) != Prefix(parts, i + 1) {
      PrefixGrows(parts, k, i + 1);
    }
  }

  /** Each loop step ensures exactly one more prefix; before the first step none is ensured */
  lemma EnsuredStep(parts: seq<string>, i: nat)
    requires 1 <= i < |parts|
    ensures Ensured(parts, 1) == {}
    ensures Ensured(parts, i + 1) == Ensured(parts, i) + {Prefix(parts, i + 1)}
  {
  }

  /**
   * `EnsureAssetPathExists`: walks the components of path after the first, extending the current
   * path one component at a time and creating the folder only where it is missing.
   */
  method EnsureAssetPathExists(db: AssetDatabase, path: string)
    modifies db
    ensures var parts := Text.Split(path, '/');
      && db.folders == old(db.folders) + Ensured(parts, |parts|)
      && db.created == old(db.created) + Creations(parts, old(db.folders), |parts|)
  {
    var folders := Text.Split(path, '/');
    if |folders| == 0 {
      return;
    }
    var currentPath := folders[0];
    assert folders[..1] == [folders[0]];
    for i := 1 to |folders|
      invariant currentPath == Prefix(folders, i)
      invariant db.folders == old(db.folders) + Ensured(folders, i)
      invariant db.created == old(db.created) + Creations(folders, old(db.folders), i)
    {
      var folderName := folders[i];
      var newPath := currentPath + "/" + folderName;
      PrefixStep(folders, i);
      NextPrefixNew(folders, i);
      EnsuredStep(folders, i);
      if !db.IsValidFolder(newPath) {
        db.CreateFolder(currentPath, folderName);
      }
      currentPath := newPath;
    }
  }

  /** Every folder created is one that was missing, and lies on the path */
  lemma {:induction false} CreationsAreMissing(parts: seq<string>, existing: set<string>, i: nat)
    requires i <= |parts|
    ensures forall c :: c in Creations(parts, existing, i) ==>
      c.0 + "/" + c.1 !in existing && c.0 + "/" + c.1 in Ensured(parts, i)
    decreases i
  {
    if i > 1 {
      CreationsAreMissing(parts, existing, i - 1);
      PrefixStep(parts, i - 1);
      assert Ensured(parts, i - 1) <= Ensured(parts, i);
    }
  }

  /**
   * Each creation names the previous prefix as parent and the next component as name, and
   * one is made for each missing prefix: the creations are exactly the missing ones.
   */
  lemma {:induction false} CreationsCoverMissing(parts: seq<string>, existing: set<string>, i: nat)
    requires i <= |parts|
    ensures forall k :: 2 <= k <= i && Prefix(parts, k) !in existing ==>
      (Prefix(parts, k - 1), parts[k - 1]) in Creations(parts, existing, i)
    decreases i
  {
    if i > 1 {
      CreationsCoverMissing(parts, existing, i - 1);
    }
  }

  /** A second provisioning of the same path, after the first, creates nothing */
  lemma {:induction false} SecondCallCreatesNothing(parts: seq<string>, existing: set<string>, i: nat)
    requires i <= |parts|
    ensures Creations(parts, existing + Ensured(parts, |parts|), i) == []
    decreases i
  {
    if i > 1 {
      SecondCallCreatesNothing(parts, existing, i - 1);
      assert Prefix(parts, i) in Ensured(parts, |parts|);
    }
  }

  /**
   * The last prefix, the value currentPath ends with, is the path itself, and a path
   * without '/' provisions no folder at all: the first component is never checked.
   */
  lemma PathEnds(path: string, existing: set<string>)
    ensures var parts := Text.Split(path, '/');
      && |parts| >= 1 && Prefix(parts, |parts|) == path
      && ('/' !in path ==> Ensured(parts, |parts|) == {} && Creations(parts, existing, |parts|) == [])
  {
    var parts := Text.Split(path, '/');
    Text.SplitShape(path, '/');
    Text.JoinSplit(path, '/');
    assert parts[..|parts|] == parts;
    if '/' !in path {
      Text.SplitJoin([path], '/');
      assert Text.Join([path], "/") == path;
      assert |parts| == 1;
    }
  }

  const ResourcesParts: seq<string> := ["Assets", "Plugins", "UniGasLogger", "Resources"]

  /** The paths of the first 2, 3 and 4 components of the Resources folder path */
  lemma ResourcesPrefixes()
    ensures Prefix(ResourcesParts, 2) == "Assets/Plugins"
    ensures Prefix(ResourcesParts, 3) == "Assets/Plugins/UniGasLogger"
    ensures Prefix(ResourcesParts, 4) == "Assets/Plugins/UniGasLogger/Resources"
  {
    var parts := ResourcesParts;
    assert parts[..1] == ["Assets"];
    PrefixStep(parts, 1);
    PrefixStep(parts, 2);
    PrefixStep(parts, 3);
  }

  /** The Resources folder path has four components */
  lemma ResourcesPathParts()
    ensures Text.Split(FinalResourcesPath, '/') == ResourcesParts
  {
    ResourcesPrefixes();
    assert ResourcesParts[..4] == ResourcesParts;
    AssetPathValue();
    Text.SplitJoin(ResourcesParts, '/');
  }

  /** Provisioning the Resources folder ensures the plugin folders below Assets */
  lemma ResourcesFolders()
    ensures var parts := Text.Split(FinalResourcesPath, '/');
      Ensured(parts, |parts|)
      == {"Assets/Plugins", "Assets/Plugins/UniGasLogger", "Assets/Plugins/UniGasLogger/Resources"}
  {
    ResourcesPathParts();
    ResourcesPrefixes();
    EnsuredStep(ResourcesParts, 1);
    EnsuredStep(ResourcesParts, 2);
    EnsuredStep(ResourcesParts, 3);
  }

  /** A null settings object is left alone; otherwise its three values are replaced */
  method UpdateSettings(settings: GasSettings?, newDeployId: string, newAuthToken: string, newSheetId: string)
    modifies settings
    ensures settings != null ==>
      settings.deployId == newDeployId && settings.authToken == newAuthToken && settings.sheetId == newSheetId
  {
    if settings == null {
      return;
    }
    settings.Init(newDeployId, newAuthToken, newSheetId);
  }
}
