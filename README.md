# MORTM API core, modelled in Dafny

This project models the request-routing core of the MORTM generation API. The
core picks and runs a generation pipeline for one request:

- **Registry scan** (`model.py`). The controller lists the models directory. A
  folder is kept when it is a directory whose `data.json` parses and names a
  model. Each kept descriptor is stored under its `model_name`, with its
  folder path added, in an insertion-ordered dict. A later folder with the same
  name replaces the earlier one in place. The catalog values are then numbered
  `0..n-1`.
- **Pipeline factory** (`rapper.py`). Keywords are registered in an ordered
  table. A request uses the first keyword, in registration order, that occurs
  in the descriptor's `model_name`. Building a pipeline stores the descriptor
  and loads the model once.
- **Controller `generate`** (`model.py`). An unknown model type fails before
  any pipeline is built. Otherwise the factory builds a pipeline, its three
  stages run in turn, and the result record is returned.
- **MORTM4 pipeline** (`models/mortm/mortm4.py`). Preprocessing and generation
  pass the request through. Postprocessing branches on the descriptor's tag
  (`pretrained`, `sft`, other) and on the task `CHORD_GEM`. That choice decides
  which generator runs, when a chord prompt is built, and which file is
  written and returned.
- **Upload checks** (`app.py`). Uploads have a content-type allow-list, and the
  upload file name is sanitised.

Modules, one per source file or component:

- `Wrappers`: `Option` and `Result`.
- `Dict`: Python's insertion-ordered `dict`.
- `Fs`: `os.path.join`, `os.path.basename`, and a `FileStore` class that holds the
  files.
- `Rapper`: `rapper.py`.
- `Mortm4`: the MORTM4 pipeline.
- `Model`: the controller.
- `App`: the upload checks.

Stateful parts are classes whose methods reassign fields:

- `RapperFactory.rappers`
- `ModelController.availableModels` and `meta`
- `ModelLoader.loads`
- `FileStore.files`

Each of these methods is proved against a specification function (`Put`,
`ScanFrom`, `Ordinals`, `Postprocess`). The lemmas beside those functions
state the properties.

Collaborators that this model does not implement are parameters:

- The directory listing and `data.json` parsing are a `BaseDir` value. Each
  entry records its name, whether it is a directory, and one of three parse
  results: no file, failed, or parsed.
- `_load_model` is `ModelLoader.Load`. It records every call and returns the
  number of that load as the model handle.
- `pre_train_generate`, `task_trained_generate`, the chord encoder
  (`MetaData2Chord(...).aya_node[1]`) and `tokenizer.rev_get` are the function
  fields of `Mortm4.Collaborators`. Each generator gives back the files it
  writes, and the task-tuned generator also gives back its tokens (possibly
  none).
- Whether the upload handler's `try` block succeeds (reading the upload, parsing it as MIDI, creating the save directory and saving the file) is one boolean parameter, `ioSucceeds`.

Two behaviours of the code that a caller might not expect. The model states
both as written:

- For task `CHORD_GEM` with no generated tokens, the code first creates
  `chord_output.txt` empty. It then returns the `output.mid` path, which only
  exists if the generator wrote it. `Mortm4.ChordGemWritesTranscript` states
  this.
- A task-tuned run that is not `CHORD_GEM` returns the `output.mid` path
  without checking that the file exists, so a generator that wrote nothing
  still yields a success.

## Model

| member | source | states |
|---|---|---|
| `Rapper.NewGenerateMeta` | rapper.py:7-16 | An omitted `p`, `temperature` or `split_measure` becomes 0.95, 1.0 or 999. Omitted chord labels and chord times become None. A given field, including an explicit null, is kept. |
| `Rapper.ModelLoader.Load` | models/mortm/mortm4.py:20-31 | Each load is recorded once, in order. The handle it returns is new: the number of that load. |
| `Rapper.Pipeline.constructor` | rapper.py:26-28 | A pipeline stores exactly the given descriptor and class. It performs exactly one model load, and its model is that load's handle. |
| `Rapper.Contains` | rapper.py:69 | `keyword in model_type`, checked position by position from the left. `Rapper.ContainsIsSubstring` proves it holds exactly when the keyword occurs in the name. |
| `Rapper.ContainsIsSubstring` | rapper.py:69 | The left-to-right check used for `keyword in name` holds exactly when the keyword occurs in the name at some position. |
| `Rapper.FirstMatchExists` | rapper.py:68-71 | For every table and name there is a first matching entry, or else no entry matches. |
| `Rapper.MissingNameMatchesOnlyEmptyKeyword` | rapper.py:67-71 | A descriptor without `model_name` is matched as the empty name. No entry matches it unless the empty keyword is registered. |
| `Rapper.NameOf` | rapper.py:67 | The name a descriptor is matched by: its `model_name`, or "" when it has none. `MissingNameMatchesOnlyEmptyKeyword` states what a missing name matches. |
| `Rapper.RapperFactory.constructor` | rapper.py:55-56 | A new factory has an empty keyword table. |
| `Rapper.RapperFactory.RegisterRapper` | rapper.py:58-64 | The table becomes `Put(old table, keyword, class)`. Through `Dict.Put`: a new keyword is appended, and a known keyword keeps its place with the new class. Keys stay distinct. |
| `Rapper.RapperFactory.CreateRapper` | rapper.py:66-71 | The pipeline built is that of the earliest registered keyword occurring in the name, whatever the keyword lengths. It is new, holds the descriptor, and causes exactly one load. With no match it fails with the name and loads nothing. |
| `Dict.Put` | rapper.py:63 | Assigning a key already present replaces that entry in place, and nothing else changes. Assigning a new key appends it. Keys stay distinct. |
| `Dict.Get` | model.py:58-62 | A lookup finds nothing exactly when the key is not in the dict. A value it finds is the one stored under that key. |
| `Dict.GetAt` | model.py:62 | In a dict with distinct keys, looking up the key of any stored pair gives that pair's value. |
| `Dict.GetPutSame` | model.py:52 | Reading back an assigned key gives the assigned value. |
| `Dict.GetPutOther` | model.py:52 | Assigning one key leaves every other key's value unchanged. |
| `Dict.HasKeyPut` | model.py:52 | After an assignment the keys are the old keys plus the assigned one. |
| `Dict.KeysPut` | model.py:52 | After an assignment the key order is unchanged for a present key, and a new key is appended at the end. |
| `Dict.Values` | model.py:17 | `dict.values()`: the values in insertion order. `Model.OrdinalsEnumerate` and `Model.CatalogOrdinalsFollowListing` state what numbering them gives. |
| `Dict.Keys` | model.py:17 | The keys in insertion order. `Dict.KeysPut` states how an assignment changes them, and `Model.ScanKeepsFirstPosition` states their order after a scan. |
| `Fs.DirPrefix` | model.py:40 | The separator rule of `os.path.join`: the directory, followed by `/` unless it is empty or already ends in one. `Fs.PathJoinInjective` relies on it to show that different relative names give different paths. |
| `Fs.PathJoin` | model.py:40 | The joined path ends with the joined name. |
| `Fs.PathJoinInjective` | models/mortm/mortm4.py:40 | Two different relative names joined onto one directory give different paths. |
| `Fs.Basename` | models/mortm/mortm4.py:49 | The base name holds no `/` and is the part of the path after its last `/`. |
| `Fs.Renamed` | models/mortm/mortm4.py:49 | The files after `os.rename(source, target)`. `Fs.RenameMovesOneFile` states that the source is gone, the target holds its contents, and no other file changes. |
| `Fs.RenameMovesOneFile` | models/mortm/mortm4.py:49 | Renaming to a different path removes the source, gives the target the source's contents, and leaves every other file unchanged. |
| `Fs.FileStore.Rename` | models/mortm/mortm4.py:49 | It succeeds exactly when the source exists, and the files become `Renamed(...)`. Otherwise nothing changes. |
| `Fs.FileStore.Write` | models/mortm/mortm4.py:65-68 | The written path now holds exactly the written text. Other files are unchanged. |
| `Fs.FileStore.WriteAll` | models/mortm/mortm4.py:44-48 | The files a generator writes are laid over the existing ones. |
| `Mortm4.Preprocessing` | models/mortm/mortm4.py:33-34 | The keyword arguments are exactly the upload path and the request, unchanged. |
| `Mortm4.Generate` | models/mortm/mortm4.py:36-37 | Generation returns its keyword arguments unchanged. |
| `Mortm4.ChordPrompt` | models/mortm/mortm4.py:52-59 | A chord prompt is built exactly when both chord labels and chord times are present. It uses the fixed key `C minor` and the request's tempo and `split_measure`. |
| `Mortm4.TokenTexts` | models/mortm/mortm4.py:68 | `[tokenizer.rev_get(t) for t in gem]`. `Mortm4.ChordTextReadsBack` states that the i-th piece of the transcript is the i-th token's text. |
| `Mortm4.JoinWords` | models/mortm/mortm4.py:68 | `" ".join`: the words separated by single spaces. `Mortm4.SplitJoinWords` proves that splitting on spaces gives space-free words back. |
| `Mortm4.SplitJoinWords` | models/mortm/mortm4.py:68 | Splitting on spaces a space-joined list of at least one space-free word gives exactly that list back. |
| `Mortm4.ChordText` | models/mortm/mortm4.py:67-68 | The transcript: each token's text, joined by single spaces. `Mortm4.ChordTextReadsBack` states how it reads back. |
| `Mortm4.ChordTextReadsBack` | models/mortm/mortm4.py:68 | For at least one token, none of whose texts holds a space, splitting the transcript on spaces gives exactly one piece per token: the i-th piece is the i-th token's text. |
| `Mortm4.GeneratedPath` | models/mortm/mortm4.py:49 | Where the pretrained generator leaves its output: `generated_<basename of the upload>` in the save directory. `Mortm4.GeneratedIsNotOutput` proves it is never the `output.mid` path. |
| `Mortm4.GeneratedIsNotOutput` | models/mortm/mortm4.py:40-49 | `generated_<basename>` and `output.mid` in the save directory are different paths. |
| `Mortm4.PretrainedFiles` | models/mortm/mortm4.py:45-48 | The files after the `pre_train_generate` call: the generator's files laid over the old ones. `Mortm4.PretrainedRenamesGeneratedFile` states how the run goes on from them. |
| `Mortm4.PretrainedOutcome` | models/mortm/mortm4.py:43-49 | The pretrained branch's result and files. `Mortm4.PretrainedRenamesGeneratedFile` states what they are. |
| `Mortm4.SftOutcome` | models/mortm/mortm4.py:50-72 | The task-tuned branch's result and files. `Mortm4.ChordGemWritesTranscript` and `Mortm4.OtherTaskReturnsOutput` state what they are. |
| `Mortm4.Postprocess` | models/mortm/mortm4.py:39-72 | `postprocessing` as a function of the tag, the model handle and the files. The lemmas below state its branches: a missing tag, pretrained, task-tuned with and without `CHORD_GEM`, and any other tag. |
| `Mortm4.PostprocessReturnsOneOfTwoPaths` | models/mortm/mortm4.py:39-72 | A successful postprocessing returns `save_directory/output.mid` or `save_directory/chord_output.txt`, and nothing else. |
| `Mortm4.PostprocessNeedsTag` | models/mortm/mortm4.py:43-50 | Postprocessing fails before any generation, changing no file, exactly when the descriptor has no `tag["model"]`. |
| `Mortm4.PretrainedRenamesGeneratedFile` | models/mortm/mortm4.py:43-49 | For tag `pretrained`, the run succeeds exactly when the generator left `generated_<basename>`. That file is then renamed to `output.mid`, and `output.mid` is returned. Otherwise the run fails naming the missing file. |
| `Mortm4.ChordGemWritesTranscript` | models/mortm/mortm4.py:64-72 | For tag `sft` and task `CHORD_GEM`, `chord_output.txt` is always written. With tokens it holds the transcript and its path is returned. Without tokens it is empty and `output.mid` is returned. Apart from the files the generator wrote, only `chord_output.txt` changes. |
| `Mortm4.OtherTaskReturnsOutput` | models/mortm/mortm4.py:60-72 | For tag `sft` and any other task, only the generator's files change, and `output.mid` is returned. |
| `Mortm4.OtherTagDoesNothing` | models/mortm/mortm4.py:43-72 | For a tag other than `pretrained` and `sft`, no file changes and `output.mid` is returned. |
| `Mortm4.RunPretrained` | models/mortm/mortm4.py:43-49 | The pretrained branch run on a file store: it writes the generator's files and renames `generated_<basename>` to `output.mid`, or fails naming the missing file. The result and the files left behind are exactly `PretrainedOutcome`'s. |
| `Mortm4.RunSft` | models/mortm/mortm4.py:50-72 | The task-tuned branch run on a file store: it writes the generator's files and, for `CHORD_GEM`, the transcript file. The result and the files left behind are exactly `SftOutcome`'s. |
| `Mortm4.Postprocessing` | models/mortm/mortm4.py:39-72 | The returned path or error, and the files left behind, are exactly those of `Postprocess` for the pipeline's tag and model. |
| `Model.Kept` | model.py:41-50 | The folder filter: a directory whose `data.json` exists, parses and has a non-empty `model_name`. `Model.ScanRegistersExactlyKept` and `Model.ScanSkipsUnkept` state that exactly these folders are registered. |
| `Model.KeyOf` | model.py:49 | `model_info.get('model_name')` of a kept folder. `Model.ScanRegistersExactlyKept` and `Model.ScanKeepsFirstPosition` state that these are the catalog's keys, in first-declaration order. |
| `Model.Tagged` | model.py:51 | A kept folder's descriptor with `model_folder_path` set to the joined folder path. `Model.ScanLastFolderWins` states that the catalog holds it for the last folder declaring the name. |
| `Model.RegisterEntry` | model.py:41-52 | One listed folder looked at: a kept folder's descriptor, with its folder path added, is assigned under its `model_name`, and any other folder changes nothing. Keys stay distinct. |
| `Model.ScanFrom` | model.py:39-52 | The listing looked at folder by folder, in listing order. Keys stay distinct. The `Scan...` lemmas below state its names, keys, values and order. |
| `Model.Catalog` | model.py:36-52 | The catalog a fresh controller builds: empty when the models directory is not a directory, otherwise the scan of its listing. Keys stay distinct. |
| `Model.ScanKeepsNames` | model.py:49-52 | Every descriptor in the catalog is stored under its own `model_name`. |
| `Model.ScanRegistersExactlyKept` | model.py:39-52 | A name is in the catalog exactly when some folder declares it and is kept: a directory whose `data.json` parses and has a non-empty `model_name`. |
| `Model.ScanLastFolderWins` | model.py:52 | When several folders declare one name, the catalog holds the last one's metadata, with that folder's path added. |
| `Model.ScanSkipsUnkept` | model.py:41-55 | A folder that is not kept, including one whose metadata failed to parse, leaves the scan of the remaining folders exactly as if it were absent. |
| `Model.DeclaredNames` | model.py:39-52 | The names the kept folders declare, in listing order, repeats included. It is the reference order for `Model.ScanKeepsFirstPosition`. |
| `Model.FirstOccurrences` | model.py:52 | A sequence followed by each new element of a second one, at its first occurrence. It is the reference order for `Model.ScanKeepsFirstPosition`. |
| `Model.ScanKeepsFirstPosition` | model.py:39-52 | The catalog's keys are the names the kept folders declare, in the order each is first declared. A folder that redeclares a name replaces its descriptor but not its position. |
| `Model.OrdinalsEnumerate` | model.py:17 | `meta` has exactly the ordinals `0..n-1`, one per catalog value, and the i-th catalog value is at ordinal i. |
| `Model.Ordinals` | model.py:17 | The `enumerate` comprehension: ordinal i holds the i-th value. `Model.OrdinalsEnumerate` states it. |
| `Model.CatalogOrdinalsFollowListing` | model.py:14-17 | For a scanned models directory, `meta` has exactly the ordinals `0..n-1`, where n is the number of distinct declared names. Ordinal i holds the descriptor named by the i-th distinct name, in listing order. |
| `Model.LookupIsNamed` | model.py:62 | Looking up a catalog name gives a descriptor with that `model_name`. |
| `Model.ModelController.constructor` | model.py:10-19 | The keyword table is `MORTM4.1-SAX`, then `MORTM4.1Pro-SAX`. The catalog is the scan of the models directory, empty when that is not a directory, and `meta` numbers its values. |
| `Model.ModelController.RegisterRappers` | model.py:21-27 | The two MORTM4 keywords are registered in this order. |
| `Model.ModelController.ScanModelFolders` | model.py:31-55 | With no models directory the catalog is unchanged. Otherwise it becomes the scan of the listing, folder by folder. Keys stay distinct and each descriptor stays under its own name. |
| `Model.ModelController.Generate` | model.py:57-74 | An unknown model type fails before any load or file write. With no matching keyword the run fails with no load or write. Otherwise exactly one load happens and postprocessing gets the unchanged upload path and request. The result is `("success", model_type, save_directory, returned path)`, or postprocessing's error. |
| `App.Replace` | app.py:38 | `str.replace` of one character by another: the length is kept, each occurrence is replaced, and every other character stays. |
| `App.LowerChar` | app.py:39 | `str.lower()` on one character, for ASCII letters. `App.SanitizeAppendsOnlyWhenNeeded` uses it to decide when `.mid` is appended. |
| `App.ReplaceSlashes` | app.py:38 | The length is kept, no `/` or `\` remains, every slash becomes `_`, and every other character is unchanged. |
| `App.OrFallback` | app.py:38 | `midi.filename or "input.mid"`. `App.SanitizeFallsBack` states that a missing or empty name becomes `input.mid`. |
| `App.EndsWithMid` | app.py:39 | `name.lower().endswith(".mid")`. `App.SanitizeAppendsOnlyWhenNeeded` states that `.mid` is appended exactly when it fails. |
| `App.SanitizeUploadName` | app.py:38-40 | The saved name holds no `/` and no `\`, ends with `.mid` ignoring case, and is as long as the name after the `input.mid` fallback, or 4 longer. |
| `App.SanitizeFallsBack` | app.py:38 | A missing or empty file name becomes `input.mid`. |
| `App.SanitizeAppendsOnlyWhenNeeded` | app.py:38-40 | A name that already ends in `.mid` in any case only has its slashes replaced. Any other name gets exactly `.mid` appended. |
| `App.SanitizeIdempotent` | app.py:38-40 | Sanitising a sanitised name gives it back unchanged. |
| `App.PreTrainUpload` | app.py:27-47 | The upload handler's reply: 400 for a bad content type or a failing read, parse or save, otherwise the save path. The two lemmas below state it. |
| `App.UploadRejectedExactly` | app.py:27-47 | An upload is refused exactly when its content type is not one of the four allowed strings, or reading, parsing or saving it fails. The status is then 400. |
| `App.UploadStaysInSaveDir` | app.py:38-43 | A saved upload's path is `data/saves/` followed by a name with no slash that is neither `.` nor `..`. |

## Left out

- Torch model construction, weight loading, device placement and `eval()` (models/mortm/mortm4.py:20-31): these are numeric foreign code. `ModelLoader.Load` only records that one load happened.
- Tokenizer construction, `pre_train_generate`, `task_trained_generate`, `MetaData2Chord.convert` and `tokenizer.mode`: these are library calls. They are the opaque functions in `Mortm4.Collaborators`. Exceptions raised inside them are not modelled.
- The real file system and JSON parsing (`os.listdir`, `os.path.isdir`, `os.path.abspath`, `json.load`, `open`): they are replaced by the `BaseDir` listing and by `FileStore`. A rename onto a directory, or across devices, is not modelled.
- `Fs.FileStore.Write`: a failing `open(path, "w")` or write is not modelled (a missing save directory, a directory at that path, no permission). A write always succeeds, so for task `CHORD_GEM` the model's `RunSft` and `SftOutcome` never fail, while in Python the exception would end the request. The file store has no directories or permissions to fail on.
- `Model.Kept`: `model_name` is modelled as an optional string. JSON values of other types (numbers, lists, null) and their Python truthiness are not modelled.
- `Rapper.ModelInfo`: `tag["model"]` is one optional string. A `tag` that is present but not an object is treated like a missing one (`MissingTag`).
- `App.SanitizeUploadName`: `str.lower()` is modelled on ASCII letters only. Case mappings of non-ASCII characters are not modelled.
- The FastAPI routes, `UploadFile` reading, `mido` parsing and saving, the response dictionaries, uvicorn start-up and the global `CONTROLLER` (app.py): this is HTTP and I/O plumbing. Only the content-type check and the file-name sanitisation are modelled.
- `async` on `generate`: the model is sequential, because nothing inside it suspends.
- `p` and `temperature` are carried as opaque `real` values and are never computed with.
- `print` logging, including the message printed when a folder's metadata fails to load: there is no output channel in the model.
- Chord labels and chord times of different lengths: the code does not compare their lengths, so the model does not either.
- `Rapper.ModelLoader.Load`: a failing `_load_model` is not modelled (missing weights, a bad checkpoint, or the exceptions at models/mortm/mortm4.py:26-29). Every load succeeds and returns a handle.
- `App.PreTrainUpload`: reading the upload, parsing it as MIDI, creating `data/saves` and saving the file are one boolean, `ioSucceeds`. Which of them failed is not modelled, because the handler answers every failure with the same 400.
- `Rapper.ModelInfo`: a `tag["model"]` that is null or not a string cannot be represented. In Python it matches neither `pretrained` nor `sft`, so postprocessing returns `output.mid`. That is the result the model gives for any other tag string (`Mortm4.OtherTagDoesNothing`).
- `Rapper.NameOf` and `Rapper.RapperFactory.CreateRapper`: a descriptor whose `model_name` is null cannot be represented. In Python, `get('model_name', '')` then gives None and `keyword in None` raises TypeError. The model reads a missing name as "". The controller never hits this case, because every catalog entry has a non-empty name (`Model.ScanKeepsNames`, `Model.Kept`).
