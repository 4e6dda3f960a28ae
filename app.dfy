/**
 * The upload checks of the `/pre_train_generate` handler (app.py): the
 * content-type allow-list and the name the upload is saved under.
 */
module App {
  import opened Wrappers

  /** The content types an upload may declare. */
  const AllowedContentTypes: set<string> :=
    {"audio/midi", "audio/x-midi", "application/x-midi", "application/octet-stream"}
  const BadRequest := 400
  const FallbackName := "input.mid"
  const MidSuffix := ".mid"
  const SaveDir := "data/saves"

  /** `s.replace(from, to)` for one-character `from` and `to`. */
  function Replace(s: string, from: char, to: char): (r: string)
    ensures |r| == |s|
    ensures forall i :: 0 <= i < |s| ==> r[i] == (if s[i] == from then to else s[i])
  {
    if s == [] then [] else [if s[0] == from then to else s[0]] + Replace(s[1..], from, to)
  }

  /** `c.lower()` for ASCII letters; every other character is kept. */
  function LowerChar(c: char): char {
    if 'A' <= c <= 'Z' then (c as int - 'A' as int + 'a' as int) as char else c
  }

  /** `s.lower().endswith(".mid")`. */
  predicate EndsWithMid(s: string) {
    && |s| >= 4
    && LowerChar(s[|s| - 4]) == '.'
    && LowerChar(s[|s| - 3]) == 'm'
    && LowerChar(s[|s| - 2]) == 'i'
    && LowerChar(s[|s| - 1]) == 'd'
  }

  /** `filename or "input.mid"`. */
  function OrFallback(filename: Option<string>): string {
    if filename.None? || filename.value == "" then FallbackName else filename.value
  }

  /** Both kinds of slash turned into `_`. */
  function ReplaceSlashes(s: string): (r: string)
    ensures |r| == |s|
    ensures '/' !in r && '\\' !in r
    ensures forall i :: 0 <= i < |s| && s[i] != '/' && s[i] != '\\' ==> r[i] == s[i]
    ensures forall i :: 0 <= i < |s| && (s[i] == '/' || s[i] == '\\') ==> r[i] == '_'
  {
    Replace(Replace(s, '\\', '_'), '/', '_')
  }

  /**
   * The name an upload is saved under: the client's file name (or
   * `input.mid`) with slashes made harmless and `.mid` appended unless it
   * already ends in `.mid` in any case.
   */
  function SanitizeUploadName(filename: Option<string>): (name: string)
    ensures '/' !in name && '\\' !in name
    ensures EndsWithMid(name)
    ensures |name| == |OrFallback(filename)| || |name| == |OrFallback(filename)| + 4
  {
    var orig := ReplaceSlashes(OrFallback(filename));
    if !EndsWithMid(orig) then orig + MidSuffix else orig
  }

  /** A name without slashes is left as it is. */
  lemma ReplaceSlashesKeeps(s: string)
    requires '/' !in s && '\\' !in s
    ensures ReplaceSlashes(s) == s
  {
    var r := ReplaceSlashes(s);
    assert forall i :: 0 <= i < |s| ==> r[i] == s[i];
  }

  /** Replacing slashes does not change whether a name ends in `.mid`. */
  lemma ReplaceSlashesKeepsSuffix(s: string)
    ensures EndsWithMid(ReplaceSlashes(s)) <==> EndsWithMid(s)
  {
    var r := ReplaceSlashes(s);
    if |s| >= 4 {
      forall k | |s| - 4 <= k < |s|
        ensures LowerChar(r[k]) == LowerChar(s[k]) || (LowerChar(r[k]) == '_' && (LowerChar(s[k]) == '/' || LowerChar(s[k]) == '\\'))
      {
      }
    }
  }

  /** A missing or empty file name is saved as `input.mid`. */
  lemma SanitizeFallsBack(filename: Option<string>)
    requires filename.None? || filename.value == ""
    ensures SanitizeUploadName(filename) == FallbackName
  {
    assert OrFallback(filename) == FallbackName;
    assert '/' !in FallbackName && '\\' !in FallbackName;
    assert EndsWithMid(FallbackName);
    ReplaceSlashesKeeps(FallbackName);
    SanitizeAppendsOnlyWhenNeeded(filename);
  }

  /**
   * A name that already ends in `.mid` (any case) only has its slashes
   * replaced; any other name gets exactly `.mid` appended.
   */
  lemma SanitizeAppendsOnlyWhenNeeded(filename: Option<string>)
    ensures var orig := OrFallback(filename);
      && (EndsWithMid(orig) ==> SanitizeUploadName(filename) == ReplaceSlashes(orig))
      && (!EndsWithMid(orig) ==> SanitizeUploadName(filename) == ReplaceSlashes(orig) + MidSuffix)
  {
    ReplaceSlashesKeepsSuffix(OrFallback(filename));
  }

  /** Sanitising a sanitised name gives it back unchanged. */
  lemma SanitizeIdempotent(filename: Option<string>)
    ensures var once := SanitizeUploadName(filename);
      SanitizeUploadName(Some(once)) == once
  {
    var once := SanitizeUploadName(filename);
    assert OrFallback(Some(once)) == once;
    ReplaceSlashesKeeps(once);
    SanitizeAppendsOnlyWhenNeeded(Some(once));
  }

  /** The handler's answer to an upload: an error status, or the path it is saved at. */
  datatype Reply = Rejected(status: int) | Saved(path: string)

  /**
   * The upload part of `pre_train_generate`: the content type is checked
   * first, then the upload is saved under `data/saves/` with the sanitised
   * name. `ioSucceeds` says whether everything in the handler's `try` block
   * succeeds: reading the upload, parsing it as MIDI, creating the save
   * directory and saving the file. Any failure there is also answered 400.
   */
  function PreTrainUpload(contentType: Option<string>, filename: Option<string>, ioSucceeds: bool): Reply {
    if contentType.None? || contentType.value !in AllowedContentTypes then Rejected(BadRequest)
    else if !ioSucceeds then Rejected(BadRequest)
    else Saved(SaveDir + "/" + SanitizeUploadName(filename))
  }

  /** An upload is refused with status 400 exactly when its type is not allowed or reading, parsing or saving it fails. */
  lemma UploadRejectedExactly(contentType: Option<string>, filename: Option<string>, ioSucceeds: bool)
    ensures var reply := PreTrainUpload(contentType, filename, ioSucceeds);
      && (reply.Rejected? <==> contentType.None? || contentType.value !in AllowedContentTypes || !ioSucceeds)
      && (reply.Rejected? ==> reply.status == 400)
  {
  }

  /**
   * A saved upload lands directly inside `data/saves`: the part after the
   * directory holds no slash and is neither `.` nor `..`.
   */
  lemma UploadStaysInSaveDir(contentType: Option<string>, filename: Option<string>, ioSucceeds: bool)
    ensures var reply := PreTrainUpload(contentType, filename, ioSucceeds);
      reply.Saved? ==>
        var n := |SaveDir| + 1;
        && |reply.path| > n
        && reply.path[..n] == SaveDir + "/"
        && '/' !in reply.path[n..] && '\\' !in reply.path[n..]
        && reply.path[n..] != "." && reply.path[n..] != ".."
  {
    var reply := PreTrainUpload(contentType, filename, ioSucceeds);
    if reply.Saved? {
      var name := SanitizeUploadName(filename);
      assert reply.path == SaveDir + "/" + name;
      assert reply.path[|SaveDir| + 1..] == name;
    }
  }
}
