/**
 * The MORTM4 pipeline (models/mortm/mortm4.py). Preprocessing packs the
 * request, generation passes it through, and postprocessing runs the
 * external generator chosen by the descriptor's tag and decides which
 * artifact path the request returns.
 */
module Mortm4 {
  import opened Wrappers
  import opened Fs
  import opened Rapper

  const PretrainedTag := "pretrained"
  const SftTag := "sft"
  const ChordGemTask := "CHORD_GEM"
  /** The tonal centre every chord prompt is built for. */
  const ChordKey := "C minor"
  const OutputName := "output.mid"
  const ChordOutputName := "chord_output.txt"
  const GeneratedPrefix := "generated_"

  type Token = int
  type Prompt = seq<Token>

  /** The keyword arguments passed from stage to stage: `{midi_path, meta}`. */
  datatype Kwargs = Kwargs(midiPath: string, meta: GenerateMeta)

  /**
   * The library calls the pipeline routes data through, none of which is
   * part of this model:
   *  - preTrainGenerate(model, save_directory, midi paths, program, p,
   *    temperature, split_measure) gives the files it writes;
   *  - chordPrompt(key, chord_item, chord_times, tempo, split_measure) is the
   *    prompt a chord encoder builds (`aya_node[1]`);
   *  - taskTrainedGenerate(model, save_directory, midi_path, chord_prompt,
   *    program, task, split_measure, temperature, p) gives the generated
   *    tokens (possibly none) and the files it writes;
   *  - revGet(token) is the token's text in the tokenizer's music mode.
   */
  datatype Collaborators = Collaborators(
    preTrainGenerate: (ModelHandle, string, seq<string>, seq<int>, Option<Float>, Option<Float>, Option<int>)
      -> map<string, string>,
    chordPrompt: (string, seq<string>, seq<Float>, int, Option<int>) -> Prompt,
    taskTrainedGenerate: (ModelHandle, string, string, Option<Prompt>, seq<int>, string, Option<int>, Option<Float>, Option<Float>)
      -> (Option<seq<Token>>, map<string, string>),
    revGet: Token -> string)

  /** `preprocessing`: the upload path and the request, unchanged. */
  function Preprocessing(midiPath: string, meta: GenerateMeta): (kwargs: Kwargs)
    ensures kwargs.midiPath == midiPath && kwargs.meta == meta
  {
    Kwargs(midiPath, meta)
  }

  /** `generate`: its keyword arguments, unchanged. */
  function Generate(kwargs: Kwargs): (out: Kwargs)
    ensures out == kwargs
  {
    kwargs
  }

  /** The chord prompt: built only when both chord labels and chord times are given. */
  function ChordPrompt(ext: Collaborators, meta: GenerateMeta): (prompt: Option<Prompt>)
    ensures prompt.Some? <==> meta.chordItem.Some? && meta.chordTimes.Some?
    ensures prompt.Some? ==>
      prompt.value == ext.chordPrompt(ChordKey, meta.chordItem.value, meta.chordTimes.value, meta.tempo, meta.splitMeasure)
  {
    if meta.chordItem.Some? && meta.chordTimes.Some? then
      Some(ext.chordPrompt(ChordKey, meta.chordItem.value, meta.chordTimes.value, meta.tempo, meta.splitMeasure))
    else None
  }

  /** `" ".join(ws)`. */
  function JoinWords(ws: seq<string>): string {
    if ws == [] then ""
    else if |ws| == 1 then ws[0]
    else ws[0] + " " + JoinWords(ws[1..])
  }

  /** `s.split(" ")`: the pieces between single spaces, at least one. */
  function SplitWords(s: string): (ws: seq<string>)
    ensures |ws| >= 1
  {
    if s == [] then [""]
    else
      var rest := SplitWords(s[1..]);
      if s[0] == ' ' then [""] + rest else [[s[0]] + rest[0]] + rest[1..]
  }

  lemma {:induction false} SplitWordWithoutSpace(w: string)
    requires ' ' !in w
    ensures SplitWords(w) == [w]
  {
    if w != [] {
      SplitWordWithoutSpace(w[1..]);
      assert [w[0]] + w[1..] == w;
    }
  }

  lemma {:induction false} SplitAfterFirstWord(w: string, t: string)
    requires ' ' !in w
    ensures SplitWords(w + " " + t) == [w] + SplitWords(t)
  {
    if w == [] {
      assert w + " " + t == [' '] + t;
      assert (w + " " + t)[1..] == t;
    } else {
      assert (w + " " + t)[1..] == w[1..] + " " + t;
      SplitAfterFirstWord(w[1..], t);
      assert [w[0]] + w[1..] == w;
    }
  }

  /** Splitting a space-joined list of space-free words gives the words back. */
  lemma {:induction false} SplitJoinWords(ws: seq<string>)
    requires |ws| >= 1
    requires forall i :: 0 <= i < |ws| ==> ' ' !in ws[i]
    ensures SplitWords(JoinWords(ws)) == ws
  {
    if |ws| == 1 {
      SplitWordWithoutSpace(ws[0]);
    } else {
      SplitJoinWords(ws[1..]);
      SplitAfterFirstWord(ws[0], JoinWords(ws[1..]));
      assert [ws[0]] + ws[1..] == ws;
    }
  }

  /** The text of each generated token, in order. */
  function TokenTexts(revGet: Token -> string, gem: seq<Token>): seq<string> {
    seq(|gem|, i requires 0 <= i < |gem| => revGet(gem[i]))
  }

  /** What `chord_output.txt` holds: the token texts joined by single spaces. */
  function ChordText(revGet: Token -> string, gem: seq<Token>): string {
    JoinWords(TokenTexts(revGet, gem))
  }

  /**
   * The transcript of at least one token can be read back token by token:
   * when no generated token's text holds a space, splitting it on spaces
   * gives each token's text in order.
   */
  lemma ChordTextReadsBack(revGet: Token -> string, gem: seq<Token>)
    requires |gem| >= 1
    requires forall i :: 0 <= i < |gem| ==> ' ' !in revGet(gem[i])
    ensures var ws := SplitWords(ChordText(revGet, gem));
      |ws| == |gem| && forall i :: 0 <= i < |gem| ==> ws[i] == revGet(gem[i])
  {
    SplitJoinWords(TokenTexts(revGet, gem));
  }

  /** Where the pretrained generator leaves its output: `generated_<basename of the upload>`. */
  function GeneratedPath(saveDirectory: string, midiPath: string): string {
    PathJoin(saveDirectory, GeneratedPrefix + Basename(midiPath))
  }

  /** The generator's file and the final `output.mid` are never the same path. */
  lemma GeneratedIsNotOutput(saveDirectory: string, midiPath: string)
    ensures GeneratedPath(saveDirectory, midiPath) != PathJoin(saveDirectory, OutputName)
  {
    var name := GeneratedPrefix + Basename(midiPath);
    assert name[0] == 'g' && OutputName[0] == 'o';
    if GeneratedPath(saveDirectory, midiPath) == PathJoin(saveDirectory, OutputName) {
      PathJoinInjective(saveDirectory, name, OutputName);
    }
  }

  /** The path a run returns and the files it leaves. */
  datatype Outcome = Outcome(result: Result<string, Error>, files: map<string, string>)

  /** The files once the pretrained generator has run. */
  function PretrainedFiles(
    model: ModelHandle, ext: Collaborators,
    files: map<string, string>, saveDirectory: string, kwargs: Kwargs): map<string, string>
  {
    var meta := kwargs.meta;
    files + ext.preTrainGenerate(
      model, saveDirectory, [kwargs.midiPath], meta.program, meta.p, meta.temperature, meta.splitMeasure)
  }

  /** The pretrained branch: run the generator, then rename its file to `output.mid`. */
  function PretrainedOutcome(
    model: ModelHandle, ext: Collaborators,
    files: map<string, string>, saveDirectory: string, kwargs: Kwargs): Outcome
  {
    var generated := PretrainedFiles(model, ext, files, saveDirectory, kwargs);
    var source := GeneratedPath(saveDirectory, kwargs.midiPath);
    var outputPath := PathJoin(saveDirectory, OutputName);
    if source in generated then
      Outcome(Success(outputPath), Renamed(generated, source, outputPath))
    else Outcome(Failure(RenameFailed(source)), generated)
  }

  /** The task-tuned branch: run the generator, then for CHORD_GEM write the transcript. */
  function SftOutcome(
    model: ModelHandle, ext: Collaborators,
    files: map<string, string>, saveDirectory: string, kwargs: Kwargs): Outcome
  {
    var meta := kwargs.meta;
    var (gem, written) := ext.taskTrainedGenerate(
      model, saveDirectory, kwargs.midiPath, ChordPrompt(ext, meta),
      meta.program, meta.task, meta.splitMeasure, meta.temperature, meta.p);
    var generated := files + written;
    var chordPath := PathJoin(saveDirectory, ChordOutputName);
    var outputPath := PathJoin(saveDirectory, OutputName);
    if meta.task != ChordGemTask then Outcome(Success(outputPath), generated)
    else if gem.Some? then Outcome(Success(chordPath), generated[chordPath := ChordText(ext.revGet, gem.value)])
    else Outcome(Success(outputPath), generated[chordPath := ""])
  }

  /**
   * `postprocessing` for a pipeline whose descriptor has tag `tag` and whose
   * loaded model is `model`, starting from the files `files`.
   */
  function Postprocess(
    tag: Option<string>, model: ModelHandle, ext: Collaborators,
    files: map<string, string>, saveDirectory: string, kwargs: Kwargs): Outcome
  {
    if tag.None? then Outcome(Failure(MissingTag), files)
    else if tag.value == PretrainedTag then PretrainedOutcome(model, ext, files, saveDirectory, kwargs)
    else if tag.value == SftTag then SftOutcome(model, ext, files, saveDirectory, kwargs)
    else Outcome(Success(PathJoin(saveDirectory, OutputName)), files)
  }

  /** A successful run returns `output.mid` or `chord_output.txt` inside the save directory. */
  lemma PostprocessReturnsOneOfTwoPaths(
    tag: Option<string>, model: ModelHandle, ext: Collaborators,
    files: map<string, string>, saveDirectory: string, kwargs: Kwargs)
    ensures var r := Postprocess(tag, model, ext, files, saveDirectory, kwargs).result;
      r.Success? ==> r.value == PathJoin(saveDirectory, OutputName) || r.value == PathJoin(saveDirectory, ChordOutputName)
  {
  }

  /** Only a descriptor without `tag["model"]` fails before anything is generated. */
  lemma PostprocessNeedsTag(
    tag: Option<string>, model: ModelHandle, ext: Collaborators,
    files: map<string, string>, saveDirectory: string, kwargs: Kwargs)
    ensures var o := Postprocess(tag, model, ext, files, saveDirectory, kwargs);
      tag.None? <==> (o.result == Failure(MissingTag) && o.files == files)
  {
  }

  /**
   * Pretrained: the run succeeds exactly when the generator left
   * `generated_<basename>`, which is then renamed to `output.mid` (a
   * different path, so RenameMovesOneFile applies: no generated file is left
   * under its own name).
   */
  lemma PretrainedRenamesGeneratedFile(
    model: ModelHandle, ext: Collaborators,
    files: map<string, string>, saveDirectory: string, kwargs: Kwargs)
    ensures
      var generated := PretrainedFiles(model, ext, files, saveDirectory, kwargs);
      var source := GeneratedPath(saveDirectory, kwargs.midiPath);
      var outputPath := PathJoin(saveDirectory, OutputName);
      var o := Postprocess(Some(PretrainedTag), model, ext, files, saveDirectory, kwargs);
      && (o.result.Success? <==> source in generated)
      && (o.result.Success? ==>
            && o.result.value == outputPath
            && source != outputPath
            && o.files == Renamed(generated, source, outputPath))
      && (o.result.Failure? ==> o.result.error == RenameFailed(source) && o.files == generated)
  {
    GeneratedIsNotOutput(saveDirectory, kwargs.midiPath);
    assert Postprocess(Some(PretrainedTag), model, ext, files, saveDirectory, kwargs)
      == PretrainedOutcome(model, ext, files, saveDirectory, kwargs);
  }

  /**
   * Task-tuned with task CHORD_GEM: `chord_output.txt` is always written.
   * With generated tokens it holds the transcript and its path is returned;
   * without tokens it is left empty and the `output.mid` path is returned.
   * Apart from the generator's own files, no other file changes.
   */
  lemma ChordGemWritesTranscript(
    model: ModelHandle, ext: Collaborators,
    files: map<string, string>, saveDirectory: string, kwargs: Kwargs)
    requires kwargs.meta.task == ChordGemTask
    ensures
      var meta := kwargs.meta;
      var (gem, written) := ext.taskTrainedGenerate(
        model, saveDirectory, kwargs.midiPath, ChordPrompt(ext, meta),
        meta.program, meta.task, meta.splitMeasure, meta.temperature, meta.p);
      var chordPath := PathJoin(saveDirectory, ChordOutputName);
      var outputPath := PathJoin(saveDirectory, OutputName);
      var o := Postprocess(Some(SftTag), model, ext, files, saveDirectory, kwargs);
      && chordPath != outputPath
      && chordPath in o.files
      && (gem.Some? ==> o.result == Success(chordPath) && o.files[chordPath] == ChordText(ext.revGet, gem.value))
      && (gem.None? ==> o.result == Success(outputPath) && o.files[chordPath] == "")
      && o.files == (files + written)[chordPath := o.files[chordPath]]
  {
    if PathJoin(saveDirectory, ChordOutputName) == PathJoin(saveDirectory, OutputName) {
      PathJoinInjective(saveDirectory, ChordOutputName, OutputName);
    }
  }

  /** Task-tuned with any other task: the generator's files, and the `output.mid` path. */
  lemma OtherTaskReturnsOutput(
    model: ModelHandle, ext: Collaborators,
    files: map<string, string>, saveDirectory: string, kwargs: Kwargs)
    requires kwargs.meta.task != ChordGemTask
    ensures
      var meta := kwargs.meta;
      var (gem, written) := ext.taskTrainedGenerate(
        model, saveDirectory, kwargs.midiPath, ChordPrompt(ext, meta),
        meta.program, meta.task, meta.splitMeasure, meta.temperature, meta.p);
      Postprocess(Some(SftTag), model, ext, files, saveDirectory, kwargs)
        == Outcome(Success(PathJoin(saveDirectory, OutputName)), files + written)
  {
  }

  /** A tag other than `pretrained` and `sft`: nothing is generated or written. */
  lemma OtherTagDoesNothing(
    tag: string, model: ModelHandle, ext: Collaborators,
    files: map<string, string>, saveDirectory: string, kwargs: Kwargs)
    requires tag != PretrainedTag && tag != SftTag
    ensures Postprocess(Some(tag), model, ext, files, saveDirectory, kwargs)
      == Outcome(Success(PathJoin(saveDirectory, OutputName)), files)
  {
  }

  /** The pretrained branch of `postprocessing`, on the files of `fs`. */
  method RunPretrained(
    model: ModelHandle, fs: FileStore, ext: Collaborators, saveDirectory: string, kwargs: Kwargs)
    returns (r: Result<string, Error>)
    modifies fs
    ensures Outcome(r, fs.files) == PretrainedOutcome(model, ext, old(fs.files), saveDirectory, kwargs)
  {
    var meta := kwargs.meta;
    var written := ext.preTrainGenerate(
      model, saveDirectory, [kwargs.midiPath], meta.program, meta.p, meta.temperature, meta.splitMeasure);
    fs.WriteAll(written);
    var source := GeneratedPath(saveDirectory, kwargs.midiPath);
    var outputPath := PathJoin(saveDirectory, OutputName);
    var renamed := fs.Rename(source, outputPath);
    if !renamed {
      return Failure(RenameFailed(source));
    }
    return Success(outputPath);
  }

  /** The task-tuned branch of `postprocessing`, on the files of `fs`. */
  method RunSft(
    model: ModelHandle, fs: FileStore, ext: Collaborators, saveDirectory: string, kwargs: Kwargs)
    returns (r: Result<string, Error>)
    modifies fs
    ensures Outcome(r, fs.files) == SftOutcome(model, ext, old(fs.files), saveDirectory, kwargs)
  {
    var meta := kwargs.meta;
    var chordPrompt: Option<Prompt> := None;
    if meta.chordItem.Some? && meta.chordTimes.Some? {
      chordPrompt := Some(ext.chordPrompt(
        ChordKey, meta.chordItem.value, meta.chordTimes.value, meta.tempo, meta.splitMeasure));
    }
    assert chordPrompt == ChordPrompt(ext, meta);
    var generatedBy := ext.taskTrainedGenerate(
      model, saveDirectory, kwargs.midiPath, chordPrompt,
      meta.program, meta.task, meta.splitMeasure, meta.temperature, meta.p);
    var gem := generatedBy.0;
    fs.WriteAll(generatedBy.1);
    ghost var generated := fs.files;
    if meta.task == ChordGemTask {
      var chordPath := PathJoin(saveDirectory, ChordOutputName);
      fs.Write(chordPath, "");
      if gem.Some? {
        var text := ChordText(ext.revGet, gem.value);
        fs.Write(chordPath, text);
        assert fs.files == generated[chordPath := text];
        return Success(chordPath);
      }
    }
    return Success(PathJoin(saveDirectory, OutputName));
  }

  /** `postprocessing`, changing the files of `fs` as the pipeline does. */
  method Postprocessing(
    rapper: Pipeline, fs: FileStore, ext: Collaborators, saveDirectory: string, kwargs: Kwargs)
    returns (r: Result<string, Error>)
    modifies fs
    ensures Outcome(r, fs.files) == Postprocess(rapper.meta.tag, rapper.model, ext, old(fs.files), saveDirectory, kwargs)
  {
    var outputPath := PathJoin(saveDirectory, OutputName);
    if rapper.meta.tag.None? {
      return Failure(MissingTag);
    }
    var tag := rapper.meta.tag.value;
    if tag == PretrainedTag {
      r := RunPretrained(rapper.model, fs, ext, saveDirectory, kwargs);
    } else if tag == SftTag {
      r := RunSft(rapper.model, fs, ext, saveDirectory, kwargs);
    } else {
      r := Success(outputPath);
    }
  }
}
