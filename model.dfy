/**
 * The controller (model.py): it registers the pipelines, scans the model
 * folders into a name-keyed catalog, numbers the catalog, and runs one
 * request through the pipeline its model selects.
 */
module Model {
  import opened Wrappers
  import opened Dict
  import opened Fs
  import opened Rapper
  import Mortm4

  /** What reading a folder's `data.json` gave: no file, a failure, or a descriptor. */
  datatype DataJson = NoDataJson | Unreadable | Parsed(info: ModelInfo)

  /** One name listed in the models directory. */
  datatype Entry = Entry(name: string, isDir: bool, dataJson: DataJson)

  /** The models directory: not a directory, or its absolute path and its listing. */
  datatype BaseDir = NotADirectory | Directory(absPath: string, entries: seq<Entry>)

  /** The keyword table the controller registers, in registration order. */
  const DefaultRappers: Dict<string, RapperClass> :=
    [("MORTM4.1-SAX", MORTM4Rapper), ("MORTM4.1Pro-SAX", MORTM4Rapper)]

  /** A folder is registered when it is a directory whose metadata parsed and names the model. */
  predicate Kept(e: Entry) {
    && e.isDir
    && e.dataJson.Parsed?
    && e.dataJson.info.modelName.Some?
    && e.dataJson.info.modelName.value != ""
  }

  /** The catalog key of a registered folder: its `model_name`. */
  function KeyOf(e: Entry): string
    requires Kept(e)
  {
    e.dataJson.info.modelName.value
  }

  /** The descriptor registered for a folder: its metadata, with the folder's path. */
  function Tagged(absBase: string, e: Entry): ModelInfo
    requires Kept(e)
  {
    e.dataJson.info.(folderPath := Some(PathJoin(absBase, e.name)))
  }

  /** Every descriptor in the catalog is stored under its own `model_name`. */
  predicate NamedByKey(d: Dict<string, ModelInfo>) {
    forall i :: 0 <= i < |d| ==> d[i].1.modelName == Some(d[i].0)
  }

  /** The catalog after one more folder is looked at. */
  function RegisterEntry(d: Dict<string, ModelInfo>, absBase: string, e: Entry): (r: Dict<string, ModelInfo>)
    requires DistinctKeys(d)
    ensures DistinctKeys(r)
  {
    if Kept(e) then Put(d, KeyOf(e), Tagged(absBase, e)) else d
  }

  /** The catalog after the folders `es` are looked at in order, starting from `d`. */
  function ScanFrom(d: Dict<string, ModelInfo>, absBase: string, es: seq<Entry>): (r: Dict<string, ModelInfo>)
    requires DistinctKeys(d)
    ensures DistinctKeys(r)
    decreases |es|
  {
    if es == [] then d
    else RegisterEntry(ScanFrom(d, absBase, es[..|es| - 1]), absBase, es[|es| - 1])
  }

  /** The catalog a fresh controller builds from the models directory. */
  function Catalog(base: BaseDir): (r: Dict<string, ModelInfo>)
    ensures DistinctKeys(r)
  {
    match base
    case NotADirectory => []
    case Directory(absPath, entries) => ScanFrom([], absPath, entries)
  }

  /** Storing a descriptor under its own name keeps every descriptor under its own name. */
  lemma PutKeepsNames(d: Dict<string, ModelInfo>, k: string, v: ModelInfo)
    requires DistinctKeys(d) && NamedByKey(d) && v.modelName == Some(k)
    ensures NamedByKey(Put(d, k, v))
  {
    var r := Put(d, k, v);
    if HasKey(d, k) {
      var i :| 0 <= i < |d| && d[i].0 == k;
      assert r == d[i := (k, v)];
      forall j | 0 <= j < |r|
        ensures r[j].1.modelName == Some(r[j].0)
      {
        if j != i {
          assert r[j] == d[j];
        }
      }
    } else {
      assert r == d + [(k, v)];
      forall j | 0 <= j < |r|
        ensures r[j].1.modelName == Some(r[j].0)
      {
        if j < |d| {
          assert r[j] == d[j];
        }
      }
    }
  }

  /** Scanning keeps every descriptor under its own name. */
  lemma {:induction false} ScanKeepsNames(d: Dict<string, ModelInfo>, absBase: string, es: seq<Entry>)
    requires DistinctKeys(d) && NamedByKey(d)
    ensures NamedByKey(ScanFrom(d, absBase, es))
    decreases |es|
  {
    if es != [] {
      var before := ScanFrom(d, absBase, es[..|es| - 1]);
      ScanKeepsNames(d, absBase, es[..|es| - 1]);
      var e := es[|es| - 1];
      if Kept(e) {
        PutKeepsNames(before, KeyOf(e), Tagged(absBase, e));
      }
    }
  }

  /**
   * A name is in the catalog exactly when it was there before the scan or
   * some registered folder declares it.
   */
  lemma {:induction false} ScanRegistersExactlyKept(d: Dict<string, ModelInfo>, absBase: string, es: seq<Entry>, k: string)
    requires DistinctKeys(d)
    ensures HasKey(ScanFrom(d, absBase, es), k) <==>
      HasKey(d, k) || exists i :: 0 <= i < |es| && Kept(es[i]) && KeyOf(es[i]) == k
    decreases |es|
  {
    if es != [] {
      var init := es[..|es| - 1];
      var e := es[|es| - 1];
      ScanRegistersExactlyKept(d, absBase, init, k);
      var before := ScanFrom(d, absBase, init);
      if Kept(e) {
        HasKeyPut(before, KeyOf(e), Tagged(absBase, e), k);
      }
      if exists i :: 0 <= i < |es| && Kept(es[i]) && KeyOf(es[i]) == k {
        var i :| 0 <= i < |es| && Kept(es[i]) && KeyOf(es[i]) == k;
        if i < |es| - 1 {
          assert init[i] == es[i];
        }
      }
      if exists i :: 0 <= i < |init| && Kept(init[i]) && KeyOf(init[i]) == k {
        var i :| 0 <= i < |init| && Kept(init[i]) && KeyOf(init[i]) == k;
        assert es[i] == init[i];
      }
    }
  }

  /**
   * When several folders declare one name, the catalog holds the descriptor
   * of the last of them.
   */
  lemma {:induction false} ScanLastFolderWins(d: Dict<string, ModelInfo>, absBase: string, es: seq<Entry>, i: nat)
    requires DistinctKeys(d)
    requires i < |es| && Kept(es[i])
    requires forall j :: i < j < |es| && Kept(es[j]) ==> KeyOf(es[j]) != KeyOf(es[i])
    ensures Get(ScanFrom(d, absBase, es), KeyOf(es[i])) == Some(Tagged(absBase, es[i]))
    decreases |es|
  {
    var init := es[..|es| - 1];
    var e := es[|es| - 1];
    var before := ScanFrom(d, absBase, init);
    if i == |es| - 1 {
      GetPutSame(before, KeyOf(e), Tagged(absBase, e));
    } else {
      assert init[i] == es[i];
      forall j | i < j < |init| && Kept(init[j])
        ensures KeyOf(init[j]) != KeyOf(init[i])
      {
        assert init[j] == es[j];
      }
      ScanLastFolderWins(d, absBase, init, i);
      if Kept(e) {
        GetPutOther(before, KeyOf(e), Tagged(absBase, e), KeyOf(es[i]));
      }
    }
  }

  /**
   * A folder that is not registered (not a directory, no metadata, metadata
   * that fails to parse, or no name) leaves the scan of the folders after it
   * exactly as if it were not there.
   */
  lemma {:induction false} ScanSkipsUnkept(d: Dict<string, ModelInfo>, absBase: string, a: seq<Entry>, e: Entry, c: seq<Entry>)
    requires DistinctKeys(d) && !Kept(e)
    ensures ScanFrom(d, absBase, a + [e] + c) == ScanFrom(d, absBase, a + c)
    decreases |c|
  {
    if c == [] {
      assert (a + [e] + c)[..|a + [e] + c| - 1] == a;
      assert a + c == a;
    } else {
      var c' := c[..|c| - 1];
      ScanSkipsUnkept(d, absBase, a, e, c');
      assert (a + [e] + c)[..|a + [e] + c| - 1] == a + [e] + c';
      assert (a + c)[..|a + c| - 1] == a + c';
    }
  }

  /** The names the registered folders declare, in listing order, repeats included. */
  function DeclaredNames(es: seq<Entry>): seq<string>
    decreases |es|
  {
    if es == [] then []
    else
      var e := es[|es| - 1];
      DeclaredNames(es[..|es| - 1]) + if Kept(e) then [KeyOf(e)] else []
  }

  /** `seen`, then each element of `xs` not seen before, in the order it first occurs. */
  function FirstOccurrences<T(==)>(seen: seq<T>, xs: seq<T>): seq<T>
    decreases |xs|
  {
    if xs == [] then seen
    else
      var p := FirstOccurrences(seen, xs[..|xs| - 1]);
      if xs[|xs| - 1] in p then p else p + [xs[|xs| - 1]]
  }

  /**
   * The catalog lists its names in the order the listing first declares
   * them: a folder that redeclares a name replaces its descriptor but keeps
   * the position the first declaring folder gave it.
   */
  lemma {:induction false} ScanKeepsFirstPosition(d: Dict<string, ModelInfo>, absBase: string, es: seq<Entry>)
    requires DistinctKeys(d)
    ensures Keys(ScanFrom(d, absBase, es)) == FirstOccurrences(Keys(d), DeclaredNames(es))
    decreases |es|
  {
    if es != [] {
      var init := es[..|es| - 1];
      var e := es[|es| - 1];
      ScanKeepsFirstPosition(d, absBase, init);
      if Kept(e) {
        KeysPut(ScanFrom(d, absBase, init), KeyOf(e), Tagged(absBase, e));
        var names := DeclaredNames(es);
        assert names[..|names| - 1] == DeclaredNames(init);
      } else {
        assert DeclaredNames(es) == DeclaredNames(init);
        assert ScanFrom(d, absBase, es) == ScanFrom(d, absBase, init);
      }
    }
  }

  /** The ordinal listing of the catalog values (`meta`). */
  function Ordinals(vs: seq<ModelInfo>): map<int, ModelInfo> {
    map i | 0 <= i < |vs| :: vs[i]
  }

  /** The ordinals 0..n-1. */
  function Upto(n: nat): (s: set<int>)
    ensures forall i :: i in s <==> 0 <= i < n
    ensures |s| == n
  {
    if n == 0 then {} else Upto(n - 1) + {n - 1}
  }

  /**
   * The ordinal listing numbers the catalog values 0..n-1 in catalog order:
   * one ordinal per value, the i-th value at ordinal i.
   */
  lemma OrdinalsEnumerate(vs: seq<ModelInfo>)
    ensures var m := Ordinals(vs);
      && |m| == |vs|
      && (forall i :: i in m <==> 0 <= i < |vs|)
      && (forall i :: 0 <= i < |vs| ==> m[i] == vs[i])
  {
    var m := Ordinals(vs);
    assert m.Keys == Upto(|vs|);
  }

  /**
   * Ordinal i of a scanned models directory holds the descriptor of the i-th
   * distinct name its listing declares.
   */
  lemma CatalogOrdinalsFollowListing(absPath: string, entries: seq<Entry>)
    ensures
      var names := FirstOccurrences([], DeclaredNames(entries));
      var meta := Ordinals(Values(Catalog(Directory(absPath, entries))));
      && (forall i :: i in meta <==> 0 <= i < |names|)
      && (forall i :: 0 <= i < |names| ==> meta[i].modelName == Some(names[i]))
  {
    var catalog := Catalog(Directory(absPath, entries));
    assert Keys<string, ModelInfo>([]) == [];
    ScanKeepsFirstPosition([], absPath, entries);
    ScanKeepsNames([], absPath, entries);
    OrdinalsEnumerate(Values(catalog));
    assert |Keys(catalog)| == |catalog|;
  }

  /** A request's result record (`{result, model_type, save_path, output_file}`). */
  datatype GenerateResult = GenerateResult(result: string, modelType: string, savePath: string, outputFile: string)

  /** A name-keyed catalog gives, for a name it holds, a descriptor of that name. */
  lemma {:induction false} LookupIsNamed(d: Dict<string, ModelInfo>, k: string)
    requires NamedByKey(d) && HasKey(d, k)
    ensures Get(d, k).Some? && Get(d, k).value.modelName == Some(k)
  {
    var i :| 0 <= i < |d| && d[i].0 == k;
    if i > 0 && d[0].0 != k {
      assert d[1..][i - 1].0 == k;
      LookupIsNamed(d[1..], k);
    }
  }

  /** The controller (`ModelController`). */
  class ModelController {
    var rapperFactory: RapperFactory
    var availableModels: Dict<string, ModelInfo>
    var meta: map<int, ModelInfo>

    ghost predicate Valid()
      reads this, rapperFactory
    {
      && rapperFactory.Valid()
      && DistinctKeys(availableModels)
      && NamedByKey(availableModels)
      && meta == Ordinals(Values(availableModels))
    }

    /** Registers the pipelines, scans the models directory and numbers the catalog. */
    constructor (base: BaseDir)
      ensures Valid() && fresh(rapperFactory)
      ensures rapperFactory.rappers == DefaultRappers
      ensures availableModels == Catalog(base)
      ensures base.NotADirectory? ==> availableModels == []
      ensures meta == Ordinals(Values(availableModels))
    {
      rapperFactory := new RapperFactory();
      availableModels := [];
      meta := map[];
      new;
      RegisterRappers();
      ScanModelFolders(base);
      meta := Ordinals(Values(availableModels));
    }

    /** Registers the MORTM4 pipeline under its two keywords, in this order. */
    method RegisterRappers()
      requires rapperFactory.Valid()
      modifies rapperFactory
      ensures rapperFactory.Valid()
      ensures rapperFactory.rappers ==
        Put(Put(old(rapperFactory.rappers), "MORTM4.1-SAX", MORTM4Rapper), "MORTM4.1Pro-SAX", MORTM4Rapper)
    {
      rapperFactory.RegisterRapper("MORTM4.1-SAX", MORTM4Rapper);
      rapperFactory.RegisterRapper("MORTM4.1Pro-SAX", MORTM4Rapper);
    }

    /**
     * Adds every registered folder of `base` to the catalog, in listing
     * order; a folder that cannot be read is skipped and the scan goes on.
     */
    method ScanModelFolders(base: BaseDir)
      requires DistinctKeys(availableModels) && NamedByKey(availableModels)
      modifies this
      ensures rapperFactory == old(rapperFactory) && meta == old(meta)
      ensures DistinctKeys(availableModels) && NamedByKey(availableModels)
      ensures availableModels == match base
        case NotADirectory => old(availableModels)
        case Directory(absPath, entries) => ScanFrom(old(availableModels), absPath, entries)
    {
      if base.NotADirectory? {
        return;
      }
      var absBaseDir := base.absPath;
      var entries := base.entries;
      for i := 0 to |entries|
        invariant DistinctKeys(availableModels) && NamedByKey(availableModels)
        invariant availableModels == ScanFrom(old(availableModels), absBaseDir, entries[..i])
        invariant rapperFactory == old(rapperFactory) && meta == old(meta)
      {
        ghost var before := availableModels;
        assert entries[..i + 1][..i] == entries[..i];
        assert ScanFrom(old(availableModels), absBaseDir, entries[..i + 1])
          == RegisterEntry(before, absBaseDir, entries[i]);
        ScanKeepsNames(old(availableModels), absBaseDir, entries[..i + 1]);
        var entry := entries[i];
        var modelPath := PathJoin(absBaseDir, entry.name);
        if !entry.isDir {
          continue;
        }
        match entry.dataJson {
          case NoDataJson =>
          case Unreadable =>
          case Parsed(modelInfo) =>
            var modelName := modelInfo.modelName;
            if modelName.Some? && modelName.value != "" {
              availableModels := Put(availableModels, modelName.value, modelInfo.(folderPath := Some(modelPath)));
            }
        }
        assert availableModels == RegisterEntry(before, absBaseDir, entry);
      }
      assert entries[..|entries|] == entries;
    }

    /**
     * Runs one request: an unknown model type fails before any pipeline is
     * built; otherwise the first matching pipeline is built (one model load),
     * and preprocessing, generation and postprocessing run in turn.
     */
    method Generate(
      modelType: string, midiPath: string, request: GenerateMeta, saveDirectory: string,
      loader: ModelLoader, fs: FileStore, ext: Mortm4.Collaborators)
      returns (r: Result<GenerateResult, Error>)
      requires Valid()
      modifies loader, fs
      ensures !HasKey(availableModels, modelType) ==>
        && r == Failure(UnknownModel(modelType))
        && loader.loads == old(loader.loads) && fs.files == old(fs.files)
      ensures HasKey(availableModels, modelType) && NoMatch(rapperFactory.rappers, modelType) ==>
        && r == Failure(NoSuitableRapper(modelType))
        && loader.loads == old(loader.loads) && fs.files == old(fs.files)
      ensures forall i :: HasKey(availableModels, modelType) && IsFirstMatch(rapperFactory.rappers, modelType, i) ==>
        var info := Get(availableModels, modelType).value;
        var o := Mortm4.Postprocess(
          info.tag, |old(loader.loads)|, ext, old(fs.files), saveDirectory,
          Mortm4.Generate(Mortm4.Preprocessing(midiPath, request)));
        && loader.loads == old(loader.loads) + [(rapperFactory.rappers[i].1, info)]
        && fs.files == o.files
        && (o.result.Success? ==> r == Success(GenerateResult("success", modelType, saveDirectory, o.result.value)))
        && (o.result.Failure? ==> r == Failure(o.result.error))
    {
      if !HasKey(availableModels, modelType) {
        return Failure(UnknownModel(modelType));
      }
      LookupIsNamed(availableModels, modelType);
      var modelInfo := Get(availableModels, modelType).value;
      var created := rapperFactory.CreateRapper(modelInfo, loader);
      if created.Failure? {
        return Failure(created.error);
      }
      var rapper := created.value;
      match rapper.cls
      case MORTM4Rapper =>
        var kwargs := Mortm4.Preprocessing(midiPath, request);
        var generatedDataKwargs := Mortm4.Generate(kwargs);
        var outputFilePath := Mortm4.Postprocessing(rapper, fs, ext, saveDirectory, generatedDataKwargs);
        if outputFilePath.Failure? {
          return Failure(outputFilePath.error);
        }
        return Success(GenerateResult("success", modelType, saveDirectory, outputFilePath.value));
    }
  }
}
