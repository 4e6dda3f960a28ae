/**
 * The request record, the pipeline base class and the pipeline factory
 * (rapper.py). A pipeline is selected by the first registered keyword that
 * occurs in the descriptor's `model_name`, in registration order.
 */
module Rapper {
  import opened Wrappers
  import opened Dict

  /** Sampling parameters and chord timestamps are carried, never computed with. */
  type Float = real

  /** One generation request (`GenerateMeta`). */
  datatype GenerateMeta = GenerateMeta(
    modelType: string,
    program: seq<int>,
    tempo: int,
    task: string,
    p: Option<Float>,
    temperature: Option<Float>,
    chordItem: Option<seq<string>>,
    chordTimes: Option<seq<Float>>,
    splitMeasure: Option<int>)

  /** A request field as the client sent it: left out, or given (possibly as null). */
  datatype Field<T> = Omitted | Given(value: T)

  /** The request record built from the client's fields, with the declared defaults. */
  function NewGenerateMeta(
    modelType: string, program: seq<int>, tempo: int, task: string,
    p: Field<Option<Float>>, temperature: Field<Option<Float>>,
    chordItem: Field<Option<seq<string>>>, chordTimes: Field<Option<seq<Float>>>,
    splitMeasure: Field<Option<int>>): (m: GenerateMeta)
    ensures m.modelType == modelType && m.program == program && m.tempo == tempo && m.task == task
    ensures p.Omitted? ==> m.p == Some(0.95)
    ensures temperature.Omitted? ==> m.temperature == Some(1.0)
    ensures chordItem.Omitted? ==> m.chordItem == None
    ensures chordTimes.Omitted? ==> m.chordTimes == None
    ensures splitMeasure.Omitted? ==> m.splitMeasure == Some(999)
    ensures p.Given? ==> m.p == p.value
    ensures temperature.Given? ==> m.temperature == temperature.value
    ensures chordItem.Given? ==> m.chordItem == chordItem.value
    ensures chordTimes.Given? ==> m.chordTimes == chordTimes.value
    ensures splitMeasure.Given? ==> m.splitMeasure == splitMeasure.value
  {
    GenerateMeta(
      modelType, program, tempo, task,
      if p.Given? then p.value else Some(0.95),
      if temperature.Given? then temperature.value else Some(1.0),
      if chordItem.Given? then chordItem.value else None,
      if chordTimes.Given? then chordTimes.value else None,
      if splitMeasure.Given? then splitMeasure.value else Some(999))
  }

  /**
   * A model descriptor, as read from a model folder's `data.json`:
   * `model_name`, `tag["model"]`, `model_folder_path`, and the remaining
   * keys, which the core only carries.
   */
  datatype ModelInfo = ModelInfo(
    modelName: Option<string>,
    tag: Option<string>,
    folderPath: Option<string>,
    extra: map<string, string>)

  /** The name the factory matches against: `model_info.get('model_name', '')`. */
  function NameOf(info: ModelInfo): string {
    info.modelName.GetOr("")
  }

  /** The failures a request can end in. */
  datatype Error =
    | UnknownModel(modelType: string)      // model_type is not in the catalog
    | NoSuitableRapper(modelName: string)  // no registered keyword occurs in the name
    | MissingTag                           // the descriptor has no tag["model"]
    | RenameFailed(source: string)         // the generated file to rename is missing

  /** The concrete pipeline classes that can be registered. */
  datatype RapperClass = MORTM4Rapper

  /** What the loaded model is known by: the number of the load that produced it. */
  type ModelHandle = nat

  /**
   * `_load_model`, which reads a model's configuration and weights. Every
   * call is recorded, so that a caller can state how many loads it caused.
   */
  class ModelLoader {
    var loads: seq<(RapperClass, ModelInfo)>

    constructor ()
      ensures loads == []
    {
      loads := [];
    }

    method Load(cls: RapperClass, modelInfo: ModelInfo) returns (handle: ModelHandle)
      modifies this
      ensures loads == old(loads) + [(cls, modelInfo)]
      ensures handle == |old(loads)|
    {
      handle := |loads|;
      loads := loads + [(cls, modelInfo)];
    }
  }

  /** A constructed pipeline (`AbstractModelRapper`): its descriptor and its loaded model. */
  class Pipeline {
    const cls: RapperClass
    const meta: ModelInfo
    const model: ModelHandle

    /** Stores the descriptor and loads the model, once. */
    constructor (cls: RapperClass, modelInfo: ModelInfo, loader: ModelLoader)
      modifies loader
      ensures this.cls == cls && meta == modelInfo
      ensures loader.loads == old(loader.loads) + [(cls, modelInfo)]
      ensures model == |old(loader.loads)|
    {
      this.cls := cls;
      meta := modelInfo;
      var loaded := loader.Load(cls, modelInfo);
      model := loaded;
    }
  }

  /** Python's `keyword in name`, tried at each start position from the left. */
  function Contains(name: string, keyword: string): bool
    decreases |name|
  {
    keyword <= name || (name != [] && Contains(name[1..], keyword))
  }

  /** `keyword` occurs in `name` at some position. */
  ghost predicate IsSubstring(keyword: string, name: string) {
    exists i :: 0 <= i <= |name| && keyword <= name[i..]
  }

  lemma {:induction false} ContainsIsSubstring(name: string, keyword: string)
    ensures Contains(name, keyword) <==> IsSubstring(keyword, name)
  {
    assert keyword <= name <==> keyword <= name[0..];
    if name != [] {
      ContainsIsSubstring(name[1..], keyword);
      if IsSubstring(keyword, name[1..]) {
        var i :| 0 <= i <= |name[1..]| && keyword <= name[1..][i..];
        assert name[1..][i..] == name[i + 1..];
      }
      if IsSubstring(keyword, name) && !(keyword <= name) {
        var i :| 0 <= i <= |name| && keyword <= name[i..];
        assert i > 0;
        assert name[1..][i - 1..] == name[i..];
      }
    } else {
      if IsSubstring(keyword, name) {
        var i :| 0 <= i <= |name| && keyword <= name[i..];
        assert i == 0;
      }
    }
  }

  /** Entry `i` is the earliest one in `table` whose keyword occurs in `name`. */
  ghost predicate IsFirstMatch(table: Dict<string, RapperClass>, name: string, i: int) {
    && 0 <= i < |table|
    && IsSubstring(table[i].0, name)
    && forall j :: 0 <= j < i ==> !IsSubstring(table[j].0, name)
  }

  /** No keyword in `table` occurs in `name`. */
  ghost predicate NoMatch(table: Dict<string, RapperClass>, name: string) {
    forall j :: 0 <= j < |table| ==> !IsSubstring(table[j].0, name)
  }

  /** A table has a first match for a name exactly when it is not without one. */
  lemma {:induction false} FirstMatchExists(table: Dict<string, RapperClass>, name: string)
    ensures !NoMatch(table, name) <==> exists i :: IsFirstMatch(table, name, i)
  {
    if !NoMatch(table, name) {
      var k :| 0 <= k < |table| && IsSubstring(table[k].0, name);
      var i := 0;
      while i < k && !IsSubstring(table[i].0, name)
        invariant 0 <= i <= k
        invariant forall j :: 0 <= j < i ==> !IsSubstring(table[j].0, name)
      {
        i := i + 1;
      }
      assert IsFirstMatch(table, name, i);
    }
  }

  /**
   * A descriptor without `model_name` is matched as the empty name, which
   * only the empty keyword occurs in.
   */
  lemma {:induction false} MissingNameMatchesOnlyEmptyKeyword(table: Dict<string, RapperClass>, info: ModelInfo)
    requires info.modelName.None?
    ensures NoMatch(table, NameOf(info)) <==> forall j :: 0 <= j < |table| ==> table[j].0 != ""
  {
    assert NameOf(info) == "";
    forall j | 0 <= j < |table|
      ensures IsSubstring(table[j].0, "") <==> table[j].0 == ""
    {
      if IsSubstring(table[j].0, "") {
        var i :| 0 <= i <= 0 && table[j].0 <= ""[i..];
      }
      if table[j].0 == "" {
        assert table[j].0 <= ""[0..];
      }
    }
  }

  /** The factory (`ModelRapperFactory`): an insertion-ordered keyword table. */
  class RapperFactory {
    var rappers: Dict<string, RapperClass>

    ghost predicate Valid()
      reads this
    {
      DistinctKeys(rappers)
    }

    constructor ()
      ensures Valid() && rappers == []
    {
      rappers := [];
    }

    /**
     * Registers `rapperClass` under `keyword`: a new keyword goes last, a
     * known one keeps its place and gets the new class.
     */
    method RegisterRapper(keyword: string, rapperClass: RapperClass)
      requires Valid()
      modifies this
      ensures Valid()
      ensures rappers == Put(old(rappers), keyword, rapperClass)
    {
      rappers := Put(rappers, keyword, rapperClass);
    }

    /**
     * Builds the pipeline of the first registered keyword that occurs in the
     * descriptor's name; with no such keyword it fails and loads nothing.
     */
    method CreateRapper(modelInfo: ModelInfo, loader: ModelLoader) returns (r: Result<Pipeline, Error>)
      modifies loader
      ensures NoMatch(rappers, NameOf(modelInfo)) ==>
        r == Failure(NoSuitableRapper(NameOf(modelInfo))) && loader.loads == old(loader.loads)
      ensures forall i :: IsFirstMatch(rappers, NameOf(modelInfo), i) ==>
        && r.Success? && fresh(r.value)
        && r.value.cls == rappers[i].1 && r.value.meta == modelInfo
        && r.value.model == |old(loader.loads)|
        && loader.loads == old(loader.loads) + [(rappers[i].1, modelInfo)]
    {
      var modelType := modelInfo.modelName.GetOr("");
      var i := 0;
      while i < |rappers|
        invariant 0 <= i <= |rappers|
        invariant forall j :: 0 <= j < i ==> !IsSubstring(rappers[j].0, modelType)
        invariant loader.loads == old(loader.loads)
      {
        var (keyword, rapperClass) := rappers[i];
        ContainsIsSubstring(modelType, keyword);
        if Contains(modelType, keyword) {
          var rapper := new Pipeline(rapperClass, modelInfo, loader);
          assert IsFirstMatch(rappers, modelType, i);
          return Success(rapper);
        }
        i := i + 1;
      }
      return Failure(NoSuitableRapper(modelType));
    }
  }
}
