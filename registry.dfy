/**
 * The model registry (src/models/registry.py): a `models` table with one
 * row per saved model version and an artifact file per version under the
 * models directory, at models_dir/name/v{version}/model.pkl. The table is a
 * sequence of rows and the artifact files present on disk a set of paths;
 * the serialised model itself, the JSON encoding of metrics and parameters
 * and the creation timestamp are outside the model.
 */
module Registry {
  import opened Wrappers
  import opened Text
  import opened Sequences

  /** A row of the `models` table; `metrics` and `params` are the stored JSON texts. */
  datatype ModelRow = ModelRow(id: nat, name: string, version: nat, path: string, metrics: string, params: string)

  // ---------------------------------------------------------------- paths

  /** What `os.path.join` puts before a relative part: nothing after an empty path or a '/', else one '/'. */
  function JoinPrefix(a: string): string {
    if a == [] || a[|a| - 1] == '/' then a else a + "/"
  }

  /** `os.path.join(a, b)` on POSIX: an absolute b replaces a. */
  function PathJoin(a: string, b: string): string {
    if b != [] && b[0] == '/' then b else JoinPrefix(a) + b
  }

  /** The joined path ends with its second part, and starts with the first when the second is relative. */
  lemma PathJoinParts(a: string, b: string)
    ensures |b| <= |PathJoin(a, b)| && PathJoin(a, b)[|PathJoin(a, b)| - |b|..] == b
    ensures (b == [] || b[0] != '/') ==> a <= PathJoin(a, b)
  {
    var r := PathJoin(a, b);
    assert r == b || r == JoinPrefix(a) + b;
  }

  /** `f"v{version}"` */
  function VersionDir(version: nat): string {
    "v" + NatToString(version)
  }

  /** `os.path.join(models_dir, name, f"v{version}")` */
  function ModelDir(modelsDir: string, name: string, version: nat): string {
    PathJoin(PathJoin(modelsDir, name), VersionDir(version))
  }

  const ModelFile: string := "model.pkl"

  /** `os.path.join(model_dir, "model.pkl")` */
  function ArtifactPath(modelsDir: string, name: string, version: nat): string {
    PathJoin(ModelDir(modelsDir, name, version), ModelFile)
  }

  /** For a plain directory and a plain name the artifact lies at dir/name/v{version}/model.pkl. */
  lemma ArtifactPathLayout(modelsDir: string, name: string, version: nat)
    requires modelsDir != [] && modelsDir[|modelsDir| - 1] != '/'
    requires name != [] && name[0] != '/' && name[|name| - 1] != '/'
    ensures ArtifactPath(modelsDir, name, version)
            == modelsDir + "/" + name + "/" + VersionDir(version) + "/" + ModelFile
  {
    var d := modelsDir + "/" + name;
    assert PathJoin(modelsDir, name) == d;
    assert d[|d| - 1] == name[|name| - 1];
    ModelDirShape(modelsDir, name, version);
    JoinModelFile(ModelDir(modelsDir, name, version));
  }

  /** The version directory is joined under the model's directory and ends in a digit. */
  lemma ModelDirShape(modelsDir: string, name: string, version: nat)
    ensures ModelDir(modelsDir, name, version) == JoinPrefix(PathJoin(modelsDir, name)) + VersionDir(version)
    ensures ModelDir(modelsDir, name, version) != []
    ensures IsDigit(ModelDir(modelsDir, name, version)[|ModelDir(modelsDir, name, version)| - 1])
  {
    var s := NatToString(version);
    var m := ModelDir(modelsDir, name, version);
    assert VersionDir(version)[0] == 'v';
    assert m[|m| - 1] == s[|s| - 1];
  }

  /** Under a path ending in a digit, "model.pkl" is joined with one '/'. */
  lemma JoinModelFile(v: string)
    requires v != [] && IsDigit(v[|v| - 1])
    ensures PathJoin(v, ModelFile) == v + "/" + ModelFile
  {
  }

  lemma VersionDirInjective(v1: nat, v2: nat)
    requires v1 != v2
    ensures VersionDir(v1) != VersionDir(v2)
  {
    assert VersionDir(v1)[1..] == NatToString(v1);
    assert VersionDir(v2)[1..] == NatToString(v2);
  }

  /** Two versions of one model never share an artifact path. */
  lemma ArtifactPathsDistinct(modelsDir: string, name: string, v1: nat, v2: nat)
    requires v1 != v2
    ensures ArtifactPath(modelsDir, name, v1) != ArtifactPath(modelsDir, name, v2)
  {
    var pre := JoinPrefix(PathJoin(modelsDir, name));
    ModelDirShape(modelsDir, name, v1);
    ModelDirShape(modelsDir, name, v2);
    JoinModelFile(ModelDir(modelsDir, name, v1));
    JoinModelFile(ModelDir(modelsDir, name, v2));
    VersionDirInjective(v1, v2);
    var suffix := "/" + ModelFile;
    assert ArtifactPath(modelsDir, name, v1) == pre + VersionDir(v1) + suffix;
    assert ArtifactPath(modelsDir, name, v2) == pre + VersionDir(v2) + suffix;
    DifferentMiddle(pre, VersionDir(v1), VersionDir(v2), suffix);
  }

  lemma DifferentMiddle(pre: string, a: string, b: string, suf: string)
    requires a != b
    ensures pre + a + suf != pre + b + suf
  {
    if |a| == |b| {
      var k :| 0 <= k < |a| && a[k] != b[k];
      assert (pre + a + suf)[|pre| + k] == a[k];
      assert (pre + b + suf)[|pre| + k] == b[k];
    }
  }

  /** An absolute model name escapes the models directory: the directory plays no part. */
  lemma AbsoluteNameIgnoresDirectory(dir1: string, dir2: string, name: string, version: nat)
    requires name != [] && name[0] == '/'
    ensures ArtifactPath(dir1, name, version) == ArtifactPath(dir2, name, version)
  {
  }

  // ---------------------------------------------------------------- queries

  /** `SELECT MAX(version) FROM models WHERE name = ?`, with NULL (no row) read as 0. */
  function MaxVersion(rows: seq<ModelRow>, name: string): (v: nat)
    ensures forall i :: 0 <= i < |rows| && rows[i].name == name ==> rows[i].version <= v
    ensures v != 0 ==> exists i :: 0 <= i < |rows| && rows[i].name == name && rows[i].version == v
  {
    if rows == [] then 0
    else
      var m := MaxVersion(rows[..|rows| - 1], name);
      var last := rows[|rows| - 1];
      if last.name == name && last.version > m then last.version else m
  }

  /** The first row, in table order, with the given name and version. */
  function FindRow(rows: seq<ModelRow>, name: string, version: nat): (r: Option<ModelRow>)
    ensures r.Some? ==> r.value.name == name && r.value.version == version && r.value in rows
    ensures r.None? <==> forall i :: 0 <= i < |rows| ==> rows[i].name != name || rows[i].version != version
  {
    if rows == [] then None
    else if rows[0].name == name && rows[0].version == version then Some(rows[0])
    else FindRow(rows[1..], name, version)
  }

  /**
   * The row `load_model` reads: `ORDER BY version DESC LIMIT 1` without a
   * version, the exact match with one.
   */
  function SelectRow(rows: seq<ModelRow>, name: string, version: Option<nat>): Option<ModelRow> {
    match version
    case None => FindRow(rows, name, MaxVersion(rows, name))
    case Some(v) => FindRow(rows, name, v)
  }

  /** Without a version, a row is selected exactly when the name has rows, and it has the highest version. */
  lemma LatestSelection(rows: seq<ModelRow>, name: string)
    ensures SelectRow(rows, name, None).Some? <==> exists i :: 0 <= i < |rows| && rows[i].name == name
    ensures SelectRow(rows, name, None).Some? ==>
              && SelectRow(rows, name, None).value.name == name
              && forall i :: 0 <= i < |rows| && rows[i].name == name ==> rows[i].version <= SelectRow(rows, name, None).value.version
  {
    var m := MaxVersion(rows, name);
    if i :| 0 <= i < |rows| && rows[i].name == name {
      if m == 0 {
        assert rows[i].version == 0;
      }
    }
  }

  /** The artifact `load_model` returns: its path and version. */
  datatype Loaded = Loaded(path: string, version: nat)

  /** The two exceptions of `load_model`: ValueError and FileNotFoundError. */
  datatype LoadError = NotInRegistry(name: string, version: Option<nat>) | FileNotFound(path: string)

  function LoadOutcome(rows: seq<ModelRow>, files: set<string>, name: string, version: Option<nat>)
    : (r: Result<Loaded, LoadError>)
    ensures r.Ok? ==> r.value.path in files
                      && exists i :: 0 <= i < |rows| && rows[i].name == name && rows[i].path == r.value.path
                                     && rows[i].version == r.value.version
    ensures r.Ok? && version.Some? ==> r.value.version == version.value
    ensures r == Err(NotInRegistry(name, version)) <==>
              if version.None? then forall i :: 0 <= i < |rows| ==> rows[i].name != name
              else forall i :: 0 <= i < |rows| ==> rows[i].name != name || rows[i].version != version.value
    ensures r.Err? && r.error.FileNotFound? ==> r.error.path !in files
    ensures r.Ok? && version.None? ==> r.value.version == MaxVersion(rows, name)
    ensures SelectRow(rows, name, version).Some? ==>
              var row := SelectRow(rows, name, version).value;
              r == if row.path in files then Ok(Loaded(row.path, row.version)) else Err(FileNotFound(row.path))
  {
    LatestSelection(rows, name);
    match SelectRow(rows, name, version)
    case None => Err(NotInRegistry(name, version))
    case Some(row) =>
      if row.path in files then Ok(Loaded(row.path, row.version)) else Err(FileNotFound(row.path))
  }

  /** `ORDER BY name, version DESC`: names ascending, then versions descending. */
  predicate ListedBefore(a: ModelRow, b: ModelRow) {
    LexLess(a.name, b.name) || (a.name == b.name && a.version >= b.version)
  }

  lemma ListedBeforeTotal()
    ensures TotalPreorder(ListedBefore)
  {
    forall a: ModelRow, b: ModelRow ensures ListedBefore(a, b) || ListedBefore(b, a) {
      LexLessTotal(a.name, b.name);
    }
    forall a: ModelRow, b: ModelRow, c: ModelRow | ListedBefore(a, b) && ListedBefore(b, c)
      ensures ListedBefore(a, c)
    {
      if LexLess(a.name, b.name) && LexLess(b.name, c.name) {
        LexLessTransitive(a.name, b.name, c.name);
      }
    }
  }

  /** `list_models`: every row once, in listing order. */
  function Listing(rows: seq<ModelRow>): seq<ModelRow> {
    SortBy(rows, ListedBefore)
  }

  lemma ListingOrdered(rows: seq<ModelRow>)
    ensures multiset(Listing(rows)) == multiset(rows)
    ensures forall i, j :: 0 <= i < j < |Listing(rows)| ==>
              LexLess(Listing(rows)[i].name, Listing(rows)[j].name)
              || (Listing(rows)[i].name == Listing(rows)[j].name && Listing(rows)[i].version >= Listing(rows)[j].version)
  {
    ListedBeforeTotal();
    SortBySorted(rows, ListedBefore);
  }

  // ---------------------------------------------------------------- saving

  /**
   * The table as `save_model` keeps it: ids count up from 1 in insertion
   * order (AUTOINCREMENT on a table nothing deletes from), versions start at
   * 1, and the versions of a name increase in insertion order.
   */
  ghost predicate ValidRows(rows: seq<ModelRow>) {
    && (forall i :: 0 <= i < |rows| ==> rows[i].id == i + 1 && rows[i].version >= 1)
    && (forall i, j :: 0 <= i < j < |rows| && rows[i].name == rows[j].name ==> rows[i].version < rows[j].version)
  }

  /**
   * In a table built by saves a name and a version pick out at most one row,
   * so the row the `WHERE` clause finds is that row, whichever SQLite returns.
   */
  lemma ValidRowsUnique(rows: seq<ModelRow>, name: string, version: nat, i: nat)
    requires ValidRows(rows) && i < |rows| && rows[i].name == name && rows[i].version == version
    ensures FindRow(rows, name, version) == Some(rows[i])
  {
    var r := FindRow(rows, name, version);
    assert r.Some?;
    var j :| 0 <= j < |rows| && rows[j] == r.value;
    assert j == i;
  }

  /** The row `save_model` inserts: the next id, the next version of the name, and its artifact path. */
  function NewRow(rows: seq<ModelRow>, modelsDir: string, name: string, metrics: string, params: string): ModelRow {
    var version := MaxVersion(rows, name) + 1;
    ModelRow(|rows| + 1, name, version, ArtifactPath(modelsDir, name, version), metrics, params)
  }

  lemma NewRowOfLatest(rows: seq<ModelRow>, modelsDir: string, name: string, metrics: string, params: string,
                        latest: nat)
    requires latest == MaxVersion(rows, name)
    ensures NewRow(rows, modelsDir, name, metrics, params)
            == ModelRow(|rows| + 1, name, latest + 1, PathJoin(ModelDir(modelsDir, name, latest + 1), ModelFile),
                        metrics, params)
  {
  }

  lemma SavePreservesValid(rows: seq<ModelRow>, modelsDir: string, name: string, metrics: string, params: string)
    ensures ValidRows(rows) ==> ValidRows(rows + [NewRow(rows, modelsDir, name, metrics, params)])
  {
    if ValidRows(rows) {
      var row := NewRow(rows, modelsDir, name, metrics, params);
      var r := rows + [row];
      forall i | 0 <= i < |r|
        ensures r[i].id == i + 1 && r[i].version >= 1
      {
        if i < |rows| {
          assert r[i] == rows[i];
        }
      }
      forall i, j | 0 <= i < j < |r| && r[i].name == r[j].name
        ensures r[i].version < r[j].version
      {
        assert r[i] == rows[i];
        if j < |rows| {
          assert r[j] == rows[j];
        }
      }
    }
  }

  /** A save raises the latest version of its name by one and leaves every other name's. */
  lemma SaveBumpsLatest(rows: seq<ModelRow>, modelsDir: string, name: string, metrics: string, params: string,
                        other: string)
    ensures MaxVersion(rows + [NewRow(rows, modelsDir, name, metrics, params)], name) == MaxVersion(rows, name) + 1
    ensures other != name ==>
              MaxVersion(rows + [NewRow(rows, modelsDir, name, metrics, params)], other) == MaxVersion(rows, other)
  {
    var r := rows + [NewRow(rows, modelsDir, name, metrics, params)];
    assert r[..|r| - 1] == rows;
  }

  /** The first save of a name gets version 1. */
  lemma FirstSaveIsOne(rows: seq<ModelRow>, modelsDir: string, name: string, metrics: string, params: string)
    requires forall i :: 0 <= i < |rows| ==> rows[i].name != name
    ensures NewRow(rows, modelsDir, name, metrics, params).version == 1
  {
  }

  /** Two saves of a name in a row get consecutive versions, whatever else was saved between. */
  lemma ConsecutiveSaves(rows: seq<ModelRow>, between: seq<ModelRow>, modelsDir: string, name: string,
                         m1: string, p1: string, m2: string, p2: string)
    requires forall i :: 0 <= i < |between| ==> between[i].name != name
    ensures NewRow(rows + [NewRow(rows, modelsDir, name, m1, p1)] + between, modelsDir, name, m2, p2).version
            == NewRow(rows, modelsDir, name, m1, p1).version + 1
  {
    var saved := rows + [NewRow(rows, modelsDir, name, m1, p1)];
    SaveBumpsLatest(rows, modelsDir, name, m1, p1, name);
    MaxVersionIgnoresOthers(saved, between, name);
  }

  lemma {:induction false} MaxVersionIgnoresOthers(rows: seq<ModelRow>, more: seq<ModelRow>, name: string)
    requires forall i :: 0 <= i < |more| ==> more[i].name != name
    ensures MaxVersion(rows + more, name) == MaxVersion(rows, name)
    decreases |more|
  {
    if more != [] {
      var init := more[..|more| - 1];
      MaxVersionIgnoresOthers(rows, init, name);
      var all := rows + more;
      assert all[..|all| - 1] == rows + init;
      assert all[|all| - 1] == more[|more| - 1];
    } else {
      assert rows + more == rows;
    }
  }

  lemma {:induction false} FindRowAppend(a: seq<ModelRow>, b: seq<ModelRow>, name: string, version: nat)
    ensures FindRow(a + b, name, version) == if FindRow(a, name, version).Some? then FindRow(a, name, version)
                                             else FindRow(b, name, version)
    decreases |a|
  {
    if a != [] {
      assert (a + b)[1..] == a[1..] + b;
      FindRowAppend(a[1..], b, name, version);
    } else {
      assert a + b == b;
    }
  }

  /** Loading right after a save, by version or as the latest, gives back the saved artifact. */
  lemma LoadAfterSave(rows: seq<ModelRow>, files: set<string>, modelsDir: string, name: string,
                      metrics: string, params: string, version: Option<nat>)
    requires version.None? || version == Some(NewRow(rows, modelsDir, name, metrics, params).version)
    ensures LoadOutcome(rows + [NewRow(rows, modelsDir, name, metrics, params)],
                        files + {NewRow(rows, modelsDir, name, metrics, params).path}, name, version)
            == Ok(Loaded(NewRow(rows, modelsDir, name, metrics, params).path,
                         NewRow(rows, modelsDir, name, metrics, params).version))
  {
    var row := NewRow(rows, modelsDir, name, metrics, params);
    SaveBumpsLatest(rows, modelsDir, name, metrics, params, name);
    assert FindRow(rows, name, row.version).None?;
    FindRowAppend(rows, [row], name, row.version);
  }

  // ---------------------------------------------------------------- the registry

  /** A registry over one models directory: the `models` table and the artifact files on disk. */
  class ModelRegistry {
    const modelsDir: string
    var rows: seq<ModelRow>
    var files: set<string>

    /** The table is one that saves built, and every row's artifact file is on disk. */
    ghost predicate Valid()
      reads this
    {
      && ValidRows(rows)
      && forall i :: 0 <= i < |rows| ==> rows[i].path in files
    }

    /** A registry over a fresh database: `CREATE TABLE IF NOT EXISTS` leaves the table empty. */
    constructor(modelsDir: string)
      ensures this.modelsDir == modelsDir && rows == [] && files == {}
      ensures Valid()
    {
      this.modelsDir := modelsDir;
      rows := [];
      files := {};
    }

    /** `get_latest_version` */
    method GetLatestVersion(name: string) returns (v: nat)
      ensures v == MaxVersion(rows, name)
    {
      v := MaxVersion(rows, name);
    }

    /** `save_model`: writes the artifact, inserts one row and returns its version. */
    method SaveModel(name: string, metrics: string, params: string) returns (version: nat)
      modifies this
      ensures version == old(MaxVersion(rows, name)) + 1
      ensures rows == old(rows) + [NewRow(old(rows), modelsDir, name, metrics, params)]
      ensures files == old(files) + {ArtifactPath(modelsDir, name, version)}
      ensures old(Valid()) ==> Valid()
    {
      var latest := GetLatestVersion(name);
      version := latest + 1;
      var modelDir := ModelDir(modelsDir, name, version);
      var modelPath := PathJoin(modelDir, ModelFile);
      NewRowOfLatest(rows, modelsDir, name, metrics, params, latest);
      SavePreservesValid(rows, modelsDir, name, metrics, params);
      files := files + {modelPath};
      rows := rows + [ModelRow(|rows| + 1, name, version, modelPath, metrics, params)];
    }

    /** `load_model`: the artifact's path and version, or the exception it raises. */
    method LoadModel(name: string, version: Option<nat>) returns (r: Result<Loaded, LoadError>)
      ensures r == LoadOutcome(rows, files, name, version)
      ensures Valid() ==> (r.Ok? <==> SelectRow(rows, name, version).Some?)
      ensures Valid() && version.Some? ==>
                forall i :: 0 <= i < |rows| && rows[i].name == name && rows[i].version == version.value ==>
                  r == Ok(Loaded(rows[i].path, version.value))
    {
      var res := SelectRow(rows, name, version);
      if version.Some? && Valid() {
        forall i | 0 <= i < |rows| && rows[i].name == name && rows[i].version == version.value
          ensures res == Some(rows[i])
        {
          ValidRowsUnique(rows, name, version.value, i);
        }
      }
      if res.Some? {
        ghost var k :| 0 <= k < |rows| && rows[k] == res.value;
        var path, loadedVersion := res.value.path, res.value.version;
        if path in files {
          r := Ok(Loaded(path, loadedVersion));
        } else {
          r := Err(FileNotFound(path));
        }
      } else {
        r := Err(NotInRegistry(name, version));
      }
    }

    /** `list_models` */
    method ListModels() returns (r: seq<ModelRow>)
      ensures r == Listing(rows)
    {
      r := SortBy(rows, ListedBefore);
    }
  }
}
