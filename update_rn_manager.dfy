/** The bookkeeping of `UpdateReleaseNotesManager`: the options it normalises on creation, the
    release-notes files it records per pack, which packs it processes and when a pack counts as
    updated. Git, the file system and `UpdateRN` are outside the model; the helpers it calls
    (`get_pack_name`, `get_pack_names_from_files`, `filter_files_by_type`,
    `filter_files_on_pack` and `UpdateRN.execute_update`) are function-valued parameters. */
module UpdateRnManager {
  import Strings
  import opened Wrappers


  /** The two exceptions the manager raises, with their messages. */
  datatype Error = ValueError(message: string) | RuntimeError(message: string)

  datatype Result<T> = Success(value: T) | Failure(error: Error)

  /** Python truthiness of an optional string: present and not empty. */
  predicate Given(s: Option<string>)
  {
    s.Some? && s.value != ""
  }

  /** Python truthiness of an optional boolean. */
  predicate IsSet(b: Option<bool>)
  {
    b == Some(true)
  }

  const GFlagMessage: string := "Please remove the -g flag when specifying only one pack."

  function ExistingRnMessage(pack: string): string
  {
    "New release notes file already found for " + pack + ". Please update manually or run "
    + "`demisto-sdk update-release-notes -i " + pack + "` without specifying the update_type."
  }

  // ---------------------------------------------------------------------------------------
  // Creation

  /** The options as the manager stores them. */
  datatype Options = Options(givenPack: Option<string>, updateType: Option<string>, preRelease: bool,
                             isAll: Option<bool>, text: string, specificVersion: Option<string>,
                             isForce: bool)

  /** The constructor's defaults and its conflict check: with no pack given every pack is
      updated, a missing `pre_release` is false and a missing `text` is empty; a given pack
      together with `is_all` is refused. */
  function NormaliseOptions(userInput: Option<string>, updateType: Option<string>, preRelease: Option<bool>,
                            isAll: Option<bool>, text: Option<string>, specificVersion: Option<string>,
                            isForce: bool): (r: Result<Options>)
    ensures r.Failure? <==> Given(userInput) && IsSet(isAll)
    ensures r.Failure? ==> r.error == ValueError(GFlagMessage)
    ensures r.Success? ==> !Given(userInput) ==> r.value.isAll == Some(true)
    ensures r.Success? ==> Given(userInput) ==> r.value.isAll == isAll
    ensures r.Success? ==> r.value.preRelease == (preRelease == Some(true))
    ensures r.Success? ==> (text.None? ==> r.value.text == "") && (text.Some? ==> r.value.text == text.value)
    ensures r.Success? ==> r.value.givenPack == userInput && r.value.updateType == updateType
                           && r.value.specificVersion == specificVersion && r.value.isForce == isForce
  {
    var all := if !Given(userInput) then Some(true) else isAll;
    if Given(userInput) && IsSet(all) then Failure(ValueError(GFlagMessage))
    else Success(Options(userInput, updateType, if preRelease.None? then false else preRelease.value,
                         all, if text.None? then "" else text.value, specificVersion, isForce))
  }

  /** A created manager works in exactly one mode: on the given pack, or on every changed pack. */
  lemma ExactlyOneMode(userInput: Option<string>, updateType: Option<string>, preRelease: Option<bool>,
                       isAll: Option<bool>, text: Option<string>, specificVersion: Option<string>, isForce: bool)
    requires NormaliseOptions(userInput, updateType, preRelease, isAll, text, specificVersion, isForce).Success?
    ensures var opts := NormaliseOptions(userInput, updateType, preRelease, isAll, text, specificVersion, isForce).value;
            Given(opts.givenPack) <==> !IsSet(opts.isAll)
  {
  }

  // ---------------------------------------------------------------------------------------
  // Recorded release-notes files

  /** Whether an added file is a release-notes file. */
  predicate IsReleaseNotes(path: string)
  {
    Strings.Contains(path, "ReleaseNotes")
  }

  /** The map after recording `files` in order: every release-notes file under its pack's name. */
  function RecordExistingRn(m: map<string, string>, files: seq<string>, packName: string -> string)
    : (r: map<string, string>)
    ensures m.Keys <= r.Keys
    decreases |files|
  {
    if files == [] then m
    else
      var f := files[|files| - 1];
      var before := RecordExistingRn(m, files[..|files| - 1], packName);
      if IsReleaseNotes(f) then before[packName(f) := f] else before
  }

  /** The last release-notes file of `pack` among `files`, the reference the map is checked against. */
  function LastReleaseNotes(files: seq<string>, packName: string -> string, pack: string): (r: Option<string>)
    ensures r.Some? ==> r.value in files && IsReleaseNotes(r.value) && packName(r.value) == pack
    ensures r.None? <==> forall i :: 0 <= i < |files| ==> !(IsReleaseNotes(files[i]) && packName(files[i]) == pack)
    ensures r.Some? ==> exists i :: 0 <= i < |files| && files[i] == r.value
                                    && forall j :: i < j < |files| ==> !(IsReleaseNotes(files[j]) && packName(files[j]) == pack)
    decreases |files|
  {
    if files == [] then None
    else
      var f := files[|files| - 1];
      if IsReleaseNotes(f) && packName(f) == pack then Some(f)
      else
        var r := LastReleaseNotes(files[..|files| - 1], packName, pack);
        assert forall i :: 0 <= i < |files| - 1 ==> files[..|files| - 1][i] == files[i];
        r
  }

  /** After recording, a pack maps to its last release-notes file when `files` holds one, and
      otherwise keeps its entry (or its absence) from before. */
  lemma {:induction false} RecordedIsLastReleaseNotes(m: map<string, string>, files: seq<string>,
                                                    packName: string -> string, pack: string)
    ensures var r := RecordExistingRn(m, files, packName);
            match LastReleaseNotes(files, packName, pack)
            case Some(f) => pack in r && r[pack] == f
            case None => (pack in r <==> pack in m) && (pack in m ==> r[pack] == m[pack])
    decreases |files|
  {
    if files != [] {
      RecordedIsLastReleaseNotes(m, files[..|files| - 1], packName, pack);
    }
  }

  /** Every recorded entry that was not there before is a release-notes file of that pack. */
  lemma {:induction false} NewEntriesAreReleaseNotes(m: map<string, string>, files: seq<string>,
                                                   packName: string -> string, pack: string)
    requires pack in RecordExistingRn(m, files, packName)
    requires pack !in m || RecordExistingRn(m, files, packName)[pack] != m[pack]
    ensures var f := RecordExistingRn(m, files, packName)[pack];
            f in files && IsReleaseNotes(f) && packName(f) == pack
  {
    RecordedIsLastReleaseNotes(m, files, packName, pack);
  }

  // ---------------------------------------------------------------------------------------
  // Processing packs

  /** `get_existing_rn` over the recorded map: "" when the pack has no recorded release notes,
      the recorded path when no update type was asked for, and None (a conflict) otherwise. */
  function GetExistingRn(existingRn: map<string, string>, updateType: Option<string>, pack: string)
    : (r: Option<string>)
    ensures r.None? <==> pack in existingRn && updateType.Some?
    ensures pack !in existingRn ==> r == Some("")
    ensures pack in existingRn && r.Some? ==> r.value == existingRn[pack]
  {
    if pack !in existingRn then Some("")
    else if updateType.None? then Some(existingRn[pack])
    else None
  }

  /** What `UpdateRN` is created with for one pack. */
  datatype UpdateRequest = UpdateRequest(packPath: string, updateType: Option<string>,
                                         modifiedFilesInPack: set<string>, preRelease: bool,
                                         addedFiles: set<string>, specificVersion: Option<string>,
                                         text: string, isForce: bool, existingRnVersionPath: string)

  /** The files of one pack that matter: modified, added and old-format. */
  datatype PackFiles = PackFiles(modified: set<string>, added: set<string>, oldFormat: set<string>)

  /** The changed files, already filtered by type, that `create_release_notes` hands to each pack. */
  datatype ChangedFiles = ChangedFiles(modified: set<string>, added: set<string>, oldFormat: set<string>)

  function FilesOfPack(pack: string, changed: ChangedFiles, filesOnPack: (string, set<string>) -> set<string>)
    : PackFiles
  {
    PackFiles(filesOnPack(pack, changed.modified), filesOnPack(pack, changed.added),
              filesOnPack(pack, changed.oldFormat))
  }

  /** An update is attempted when the pack has any relevant file or the update is forced. */
  predicate NeedsUpdate(files: PackFiles, isForce: bool)
  {
    files.modified != {} || files.added != {} || files.oldFormat != {} || isForce
  }

  /** The request for one pack: its modified and old-format files together, its added files,
      the options of the manager and the path `get_existing_rn` gave. */
  function RequestFor(o: Options, pack: string, files: PackFiles, existing: string): UpdateRequest
  {
    UpdateRequest("Packs/" + pack, o.updateType, files.modified + files.oldFormat, o.preRelease, files.added,
                  o.specificVersion, o.text, o.isForce, existing)
  }

  /** The environment one run of `create_release_notes` works in: the options, the recorded
      release-notes files, the filtered changed files and the two collaborators. */
  datatype Env = Env(o: Options, existingRn: map<string, string>, changed: ChangedFiles,
                     filesOnPack: (string, set<string>) -> set<string>,
                     executeUpdate: UpdateRequest -> (bool, string))

  /** The pack is refused because of its recorded release notes. */
  predicate Refused(e: Env, pack: string)
  {
    GetExistingRn(e.existingRn, e.o.updateType, pack).None?
  }

  /** An update is attempted for the pack. */
  predicate Attempted(e: Env, pack: string)
  {
    !Refused(e, pack) && NeedsUpdate(FilesOfPack(pack, e.changed, e.filesOnPack), e.o.isForce)
  }

  /** What `execute_update` reports for an attempted pack: whether it updated, and the path. */
  function Outcome(e: Env, pack: string): (bool, string)
    requires Attempted(e, pack)
  {
    var existing := GetExistingRn(e.existingRn, e.o.updateType, pack).value;
    e.executeUpdate(RequestFor(e.o, pack, FilesOfPack(pack, e.changed, e.filesOnPack), existing))
  }

  /** The pack counts as updated: its update was attempted and reported success. */
  predicate Updated(e: Env, pack: string)
  {
    Attempted(e, pack) && Outcome(e, pack).0
  }

  /** The release-notes path appended for the pack, if any. */
  function NewRnPath(e: Env, pack: string): (r: seq<string>)
    ensures |r| == if Attempted(e, pack) then 1 else 0
  {
    if Attempted(e, pack) then [Outcome(e, pack).1] else []
  }

  function UpdatedAmong(e: Env, packs: set<string>): set<string>
  {
    set p | p in packs && Updated(e, p)
  }

  function AttemptedAmong(e: Env, packs: set<string>): set<string>
  {
    set p | p in packs && Attempted(e, p)
  }

  /** Adding one pack adds it to the updated packs exactly when it is updated. */
  lemma UpdatedAmongGrows(e: Env, done: set<string>, pack: string)
    ensures UpdatedAmong(e, done + {pack}) == UpdatedAmong(e, done) + (if Updated(e, pack) then {pack} else {})
  {
  }

  /** Adding a pack not seen before adds one attempted update exactly when one is attempted. */
  lemma AttemptedAmongGrows(e: Env, done: set<string>, pack: string)
    requires pack !in done
    ensures |AttemptedAmong(e, done + {pack})| == |AttemptedAmong(e, done)| + (if Attempted(e, pack) then 1 else 0)
  {
    if Attempted(e, pack) {
      assert AttemptedAmong(e, done + {pack}) == AttemptedAmong(e, done) + {pack};
    } else {
      assert AttemptedAmong(e, done + {pack}) == AttemptedAmong(e, done);
    }
  }

  /** More packs, more updated packs. */
  lemma UpdatedAmongMonotonic(e: Env, a: set<string>, b: set<string>)
    requires a <= b
    ensures UpdatedAmong(e, a) <= UpdatedAmong(e, b)
  {
  }

  /** No pack occurs twice. */
  predicate Distinct(packs: seq<string>)
  {
    forall i, j :: 0 <= i < j < |packs| ==> packs[i] != packs[j]
  }

  /** The release-notes paths appended while handling `packs` in that order. */
  function AppendedPaths(e: Env, packs: seq<string>): seq<string>
    decreases |packs|
  {
    if packs == [] then [] else AppendedPaths(e, packs[..|packs| - 1]) + NewRnPath(e, packs[|packs| - 1])
  }

  /** Handling distinct packs appends one path per attempted update among them. */
  lemma {:induction false} AppendedPathsCount(e: Env, packs: seq<string>)
    requires Distinct(packs)
    ensures |AppendedPaths(e, packs)| == |AttemptedAmong(e, set p | p in packs)|
    decreases |packs|
  {
    if packs != [] {
      var front, last := packs[..|packs| - 1], packs[|packs| - 1];
      assert Distinct(front);
      AppendedPathsCount(e, front);
      assert last !in front;
      assert (set p | p in packs) == (set p | p in front) + {last} by {
        assert packs == front + [last];
      }
      AttemptedAmongGrows(e, (set p | p in front), last);
    }
  }

  /** How a run of the loop over `todo` went, given the packs it visited in order: each pack
      at most once and only packs of `todo`; a successful run visits all of them and refuses
      none, a failed one stops right after the first refused pack. */
  predicate LoopRun(e: Env, todo: set<string>, visited: seq<string>, failed: bool)
  {
    Distinct(visited) && (forall i :: 0 <= i < |visited| ==> visited[i] in todo)
    && (if failed then
          visited != [] && Refused(e, visited[|visited| - 1])
          && forall i :: 0 <= i < |visited| - 1 ==> !Refused(e, visited[i])
        else
          (forall p :: p in todo ==> p in visited) && forall i :: 0 <= i < |visited| ==> !Refused(e, visited[i]))
  }

  /** What a run of the loop adds up to: it fails exactly when a pack of `todo` is refused,
      its updated packs are among those of `todo`, and a successful run has visited all of
      `todo` and appended one path per attempted update. */
  lemma LoopRunOutcome(e: Env, todo: set<string>, visited: seq<string>, failed: bool)
    requires LoopRun(e, todo, visited, failed)
    ensures failed <==> exists p :: p in todo && Refused(e, p)
    ensures UpdatedAmong(e, set p | p in visited) <= UpdatedAmong(e, todo)
    ensures !failed ==> (set p | p in visited) == todo
    ensures !failed ==> |AppendedPaths(e, visited)| == |AttemptedAmong(e, todo)|
  {
    if failed {
      assert visited[|visited| - 1] in todo;
    } else {
      assert (set p | p in visited) == todo;
      AppendedPathsCount(e, visited);
      forall p | p in todo
        ensures !Refused(e, p)
      {
        var i :| 0 <= i < |visited| && visited[i] == p;
      }
    }
  }

  /** The loop's bookkeeping after visiting `visited` (whose packs make up `done`, a part of
      `todo`): the updated packs and the release-notes paths grew from `before` and
      `pathsBefore` by what those packs contribute, in visiting order. */
  ghost predicate Progress(e: Env, todo: set<string>, done: set<string>, visited: seq<string>,
                     before: set<string>, after: set<string>, pathsBefore: seq<string>, pathsAfter: seq<string>)
  {
    done <= todo && (forall p :: p in visited <==> p in done) && Distinct(visited)
    && after == before + UpdatedAmong(e, done)
    && pathsAfter == pathsBefore + AppendedPaths(e, visited)
  }

  /** The result of `create_release_notes` over `todo`, given the packs it visited in order:
      it fails exactly when a pack of `todo` is refused; the paths appended are those of the
      visited packs in visiting order and the updated packs those visited whose update reports
      success, all of them among the packs of `todo`; a successful run has updated exactly the
      packs of `todo` whose update reports success and appended one path per attempted update. */
  ghost predicate RunResult(e: Env, todo: set<string>, visited: seq<string>, failed: bool,
                      before: set<string>, after: set<string>, pathsBefore: seq<string>, pathsAfter: seq<string>)
  {
    (failed <==> exists p :: p in todo && Refused(e, p))
    && LoopRun(e, todo, visited, failed)
    && pathsAfter == pathsBefore + AppendedPaths(e, visited)
    && after == before + UpdatedAmong(e, set p | p in visited)
    && before <= after <= before + UpdatedAmong(e, todo)
    && (!failed ==> after == before + UpdatedAmong(e, todo)
                    && |pathsAfter| == |pathsBefore| + |AttemptedAmong(e, todo)|)
  }

  /** A loop that stops after a refusal, or once every pack of `todo` is visited without one,
      has the result `RunResult` describes. */
  lemma RunResultOf(e: Env, todo: set<string>, done: set<string>, visited: seq<string>, failed: bool,
                    before: set<string>, after: set<string>, pathsBefore: seq<string>, pathsAfter: seq<string>)
    requires Progress(e, todo, done, visited, before, after, pathsBefore, pathsAfter)
    requires failed ==> visited != [] && Refused(e, visited[|visited| - 1])
                        && forall i :: 0 <= i < |visited| - 1 ==> !Refused(e, visited[i])
    requires !failed ==> done == todo && forall i :: 0 <= i < |visited| ==> !Refused(e, visited[i])
    ensures RunResult(e, todo, visited, failed, before, after, pathsBefore, pathsAfter)
  {
    assert (set p | p in visited) == done;
    assert forall i :: 0 <= i < |visited| ==> visited[i] in todo;
    LoopRunOutcome(e, todo, visited, failed);
    UpdatedAmongMonotonic(e, done, todo);
  }

  /** The packs `create_release_notes` works on: the given pack alone, or else every changed pack
      whose name does not contain "APIModules". */
  function PacksToProcess(givenPack: Option<string>, changedPacks: set<string>): (r: set<string>)
    ensures Given(givenPack) ==> r == {givenPack.value}
    ensures !Given(givenPack) ==> r <= changedPacks
    ensures !Given(givenPack) ==> forall p :: p in changedPacks ==> (p in r <==> !Strings.Contains(p, "APIModules"))
  {
    if Given(givenPack) then {givenPack.value}
    else set p | p in changedPacks && !Strings.Contains(p, "APIModules")
  }

  class UpdateReleaseNotesManager {
    const givenPack: Option<string>
    const updateType: Option<string>
    const preRelease: bool
    const isAll: Option<bool>
    const text: string
    const specificVersion: Option<string>
    const isForce: bool
    var changedPacksFromGit: set<string>
    var packsExistingRn: map<string, string>
    var totalUpdatedPacks: set<string>
    var rnPath: seq<string>

    /** The options as stored. */
    function Settings(): Options
    {
      Options(givenPack, updateType, preRelease, isAll, text, specificVersion, isForce)
    }

    /** Stores normalised options; the bookkeeping starts empty. */
    constructor (opts: Options)
      ensures Settings() == opts
      ensures changedPacksFromGit == {} && packsExistingRn == map[] && totalUpdatedPacks == {} && rnPath == []
    {
      givenPack := opts.givenPack;
      updateType := opts.updateType;
      preRelease := opts.preRelease;
      isAll := opts.isAll;
      text := opts.text;
      specificVersion := opts.specificVersion;
      isForce := opts.isForce;
      changedPacksFromGit := {};
      packsExistingRn := map[];
      totalUpdatedPacks := {};
      rnPath := [];
    }

    /** `__init__`: the `ValueError` case creates nothing. */
    static method Create(userInput: Option<string>, updateType: Option<string>, preRelease: Option<bool>,
                         isAll: Option<bool>, text: Option<string>, specificVersion: Option<string>,
                         isForce: bool)
      returns (r: Result<UpdateReleaseNotesManager>)
      ensures var opts := NormaliseOptions(userInput, updateType, preRelease, isAll, text, specificVersion, isForce);
              (r.Failure? <==> opts.Failure?) && (r.Failure? ==> r.error == opts.error)
              && (r.Success? ==> fresh(r.value) && r.value.Settings() == opts.value
                                 && r.value.changedPacksFromGit == {} && r.value.packsExistingRn == map[]
                                 && r.value.totalUpdatedPacks == {} && r.value.rnPath == [])
    {
      var opts := NormaliseOptions(userInput, updateType, preRelease, isAll, text, specificVersion, isForce);
      if opts.Failure? {
        return Failure(opts.error);
      }
      var m := new UpdateReleaseNotesManager(opts.value);
      return Success(m);
    }

    /** The changed packs are the pack names of the modified, added and old-format files. */
    method RecordChangedPacks(modified: set<string>, added: set<string>, oldFormat: set<string>,
                              packNamesOf: set<string> -> set<string>)
      modifies this
      ensures changedPacksFromGit == packNamesOf(modified) + packNamesOf(added) + packNamesOf(oldFormat)
      ensures packsExistingRn == old(packsExistingRn) && totalUpdatedPacks == old(totalUpdatedPacks)
      ensures rnPath == old(rnPath)
    {
      changedPacksFromGit := packNamesOf(modified) + packNamesOf(added) + packNamesOf(oldFormat);
    }

    /** `check_existing_rn`: every added release-notes file is recorded under its pack's name, in
        the order the files are visited. */
    method CheckExistingRn(addedFiles: seq<string>, packName: string -> string)
      modifies this
      ensures packsExistingRn == RecordExistingRn(old(packsExistingRn), addedFiles, packName)
      ensures changedPacksFromGit == old(changedPacksFromGit) && totalUpdatedPacks == old(totalUpdatedPacks)
      ensures rnPath == old(rnPath)
    {
      var i := 0;
      while i < |addedFiles|
        invariant 0 <= i <= |addedFiles|
        invariant packsExistingRn == RecordExistingRn(old(packsExistingRn), addedFiles[..i], packName)
        invariant changedPacksFromGit == old(changedPacksFromGit) && totalUpdatedPacks == old(totalUpdatedPacks)
        invariant rnPath == old(rnPath)
      {
        var f := addedFiles[i];
        assert addedFiles[..i + 1][..i] == addedFiles[..i];
        if IsReleaseNotes(f) {
          packsExistingRn := packsExistingRn[packName(f) := f];
        }
        i := i + 1;
      }
      assert addedFiles[..i] == addedFiles;
    }

    /** `create_pack_release_notes`: a recorded release-notes file together with an update type
        is refused before anything changes; otherwise an update is attempted when needed, its
        release-notes path is appended, and the pack counts as updated when the update reports so. */
    method CreatePackReleaseNotes(pack: string, changed: ChangedFiles,
                                  filesOnPack: (string, set<string>) -> set<string>,
                                  executeUpdate: UpdateRequest -> (bool, string))
      returns (r: Result<()>)
      modifies this
      ensures var e := Env(Settings(), old(packsExistingRn), changed, filesOnPack, executeUpdate);
              (r.Failure? <==> Refused(e, pack))
              && totalUpdatedPacks == old(totalUpdatedPacks) + (if Updated(e, pack) then {pack} else {})
              && rnPath == old(rnPath) + NewRnPath(e, pack)
      ensures r.Failure? ==> r.error == RuntimeError(ExistingRnMessage(pack))
      ensures r.Failure? ==> totalUpdatedPacks == old(totalUpdatedPacks) && rnPath == old(rnPath)
      ensures packsExistingRn == old(packsExistingRn) && changedPacksFromGit == old(changedPacksFromGit)
    {
      var existing := GetExistingRn(packsExistingRn, updateType, pack);
      if existing.None? {
        return Failure(RuntimeError(ExistingRnMessage(pack)));
      }
      var files := FilesOfPack(pack, changed, filesOnPack);
      if NeedsUpdate(files, isForce) {
        var outcome := executeUpdate(RequestFor(Settings(), pack, files, existing.value));
        rnPath := rnPath + [outcome.1];
        if outcome.0 {
          totalUpdatedPacks := totalUpdatedPacks + {pack};
        }
      }
      return Success(());
    }

    /** `create_release_notes`: the files are filtered by type, then each pack to process is
        handled in turn, stopping at the first refusal; `visited` lists the packs handled, in
        the order they were handled, and `RunResult` states what the run did. */
    method CreateReleaseNotes(modified: set<string>, added: set<string>, oldFormat: set<string>,
                              filterByType: set<string> -> set<string>,
                              filesOnPack: (string, set<string>) -> set<string>,
                              executeUpdate: UpdateRequest -> (bool, string))
      returns (r: Result<()>, ghost visited: seq<string>)
      modifies this
      ensures RunResult(Env(Settings(), old(packsExistingRn),
                            ChangedFiles(filterByType(modified), filterByType(added), oldFormat),
                            filesOnPack, executeUpdate),
                        PacksToProcess(givenPack, old(changedPacksFromGit)), visited, r.Failure?,
                        old(totalUpdatedPacks), totalUpdatedPacks, old(rnPath), rnPath)
      ensures packsExistingRn == old(packsExistingRn) && changedPacksFromGit == old(changedPacksFromGit)
    {
      var changed := ChangedFiles(filterByType(modified), filterByType(added), oldFormat);
      ghost var e := Env(Settings(), packsExistingRn, changed, filesOnPack, executeUpdate);
      var todo := PacksToProcess(givenPack, changedPacksFromGit);
      if Given(givenPack) {
        var pack := givenPack.value;
        assert UpdatedAmong(e, {}) == {};
        r, visited := CreateNext(pack, changed, filesOnPack, executeUpdate, e, todo, {}, [],
                                 totalUpdatedPacks, rnPath);
        RunResultOf(e, todo, {pack}, visited, r.Failure?, old(totalUpdatedPacks), totalUpdatedPacks,
                    old(rnPath), rnPath);
      } else {
        r, visited := CreateForEach(todo, changed, filesOnPack, executeUpdate);
      }
    }

    /** One round of that loop: `create_pack_release_notes` for `pack`, visited after the packs
        of `visited`; the bookkeeping of `Progress` now counts `pack` too. */
    method CreateNext(pack: string, changed: ChangedFiles,
                      filesOnPack: (string, set<string>) -> set<string>,
                      executeUpdate: UpdateRequest -> (bool, string),
                      ghost e: Env, ghost todo: set<string>, ghost done: set<string>, ghost visited: seq<string>,
                      ghost before: set<string>, ghost pathsBefore: seq<string>)
      returns (r: Result<()>, ghost next: seq<string>)
      modifies this
      requires e == Env(Settings(), packsExistingRn, changed, filesOnPack, executeUpdate)
      requires pack in todo && pack !in done
      requires Progress(e, todo, done, visited, before, totalUpdatedPacks, pathsBefore, rnPath)
      ensures packsExistingRn == old(packsExistingRn) && changedPacksFromGit == old(changedPacksFromGit)
      ensures r.Failure? <==> Refused(e, pack)
      ensures next == visited + [pack]
      ensures Progress(e, todo, done + {pack}, next, before, totalUpdatedPacks, pathsBefore, rnPath)
    {
      UpdatedAmongGrows(e, done, pack);
      r := CreatePackReleaseNotes(pack, changed, filesOnPack, executeUpdate);
      next := visited + [pack];
      assert next[..|visited|] == visited;
    }

    /** The loop of `create_release_notes` over the packs to process. The order comes from a
        Python set and is left open: `visited` reports the one taken. */
    method CreateForEach(todo: set<string>, changed: ChangedFiles,
                         filesOnPack: (string, set<string>) -> set<string>,
                         executeUpdate: UpdateRequest -> (bool, string))
      returns (r: Result<()>, ghost visited: seq<string>)
      modifies this
      ensures RunResult(Env(Settings(), old(packsExistingRn), changed, filesOnPack, executeUpdate),
                        todo, visited, r.Failure?, old(totalUpdatedPacks), totalUpdatedPacks, old(rnPath), rnPath)
      ensures packsExistingRn == old(packsExistingRn) && changedPacksFromGit == old(changedPacksFromGit)
    {
      ghost var e := Env(Settings(), packsExistingRn, changed, filesOnPack, executeUpdate);
      var remaining := todo;
      ghost var done: set<string> := {};
      visited := [];
      assert UpdatedAmong(e, {}) == {};
      while remaining != {}
        invariant done !! remaining && done + remaining == todo
        invariant packsExistingRn == old(packsExistingRn) && changedPacksFromGit == old(changedPacksFromGit)
        invariant Progress(e, todo, done, visited, old(totalUpdatedPacks), totalUpdatedPacks, old(rnPath), rnPath)
        invariant forall i :: 0 <= i < |visited| ==> !Refused(e, visited[i])
        decreases remaining
      {
        var pack :| pack in remaining;
        r, visited := CreateNext(pack, changed, filesOnPack, executeUpdate, e, todo, done, visited,
                                 old(totalUpdatedPacks), old(rnPath));
        remaining := remaining - {pack};
        done := done + {pack};
        if r.Failure? {
          RunResultOf(e, todo, done, visited, true, old(totalUpdatedPacks), totalUpdatedPacks, old(rnPath), rnPath);
          return;
        }
      }
      r := Success(());
      RunResultOf(e, todo, done, visited, false, old(totalUpdatedPacks), totalUpdatedPacks, old(rnPath), rnPath);
    }
  }
}
