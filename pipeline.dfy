/**
 * `process_pack`: download the archive of one pack, unpack it into a
 * scratch directory, move the images of the chosen subtype into
 * `output/<title>`, and remove the scratch directory and the archive.
 * The server and the unpacker are parameters: `server` says what a GET of
 * a URL yields, `unzip` what the archive's bytes unpack to.
 */
module Pipeline {
  import opened Util
  import opened Registry
  import opened Disk
  import opened Organizer

  /** The directory the program is started in; the archive is saved there. */
  const WorkDir: string := "."
  const TempDir: string := "temp_extract_dir"
  const OutputBase: string := "output"

  /** The two content sub-directories of the scratch directory (see ContentDirsFromTable). */
  const PopupDir: string := Join(TempDir, "popup")
  const AnimationDir: string := Join(TempDir, "animation@2x")

  function ZipName(id: string): string {
    id + "_temp.zip"
  }

  function OutDir(title: string): string {
    Join(OutputBase, title)
  }

  /** What the server does with a streamed GET. */
  datatype DownloadOutcome =
    | Downloaded(data: Bytes)
      /** The request or its status check failed: no file was opened. */
    | RefusedBeforeWrite
      /** The stream broke after the file was opened: `partial` was written. */
    | BrokenMidStream(partial: Bytes)

  /** What `ZipFile(...).extractall` makes of the archive's bytes. */
  datatype ExtractOutcome =
    | Unpacked(tree: ArchiveTree)
      /** `BadZipFile` or `OSError`; `partial` is what was written before (nothing for a bad archive). */
    | Unreadable(partial: ArchiveTree)

  // ---------------------------------------------------------------------
  // The steps, as functions of the disk
  // ---------------------------------------------------------------------

  /** `download_zip(url, zipName)` for a server answering `dl`. */
  function AfterDownload(d: Dirs, zipName: string, dl: DownloadOutcome): (r: Dirs)
    requires WorkDir in d
  {
    match dl
    case Downloaded(data) => WriteEntry(d, WorkDir, zipName, data)
    case RefusedBeforeWrite => d
    case BrokenMidStream(partial) => WriteEntry(d, WorkDir, zipName, partial)
  }

  /** A stale scratch directory is removed with everything in it, and an empty one is made. */
  function FreshTemp(d: Dirs): (r: Dirs) {
    (if TempDir in d then WithoutTree(d, TempDir) else d)[TempDir := map[]]
  }

  /** `os.makedirs(output/<title>, exist_ok=True)`. */
  function WithOutputDir(d: Dirs, title: string): (r: Dirs)
    ensures r.Keys == d.Keys + {OutputBase, OutDir(title)}
  {
    EnsureDir(EnsureDir(d, OutputBase), OutDir(title))
  }

  /** The disk just before the images are organised. */
  function Staged(d: Dirs, zipName: string, data: Bytes, t: ArchiveTree, title: string): (r: Dirs)
    requires WorkDir in d
  {
    var scratch := FreshTemp(WriteEntry(d, WorkDir, zipName, data));
    WithOutputDir(ExtractTree(scratch, TempDir, t), title)
  }

  /** `os.remove(zipName)` guarded by `os.path.exists`. */
  function DropZip(d: Dirs, zipName: string): (r: Dirs) {
    if WorkDir in d && zipName in d[WorkDir] then DeleteEntry(d, WorkDir, zipName) else d
  }

  /** The final clean-up: the scratch directory, then the archive. */
  function Cleanup(d: Dirs, zipName: string): (r: Dirs) {
    DropZip(if TempDir in d then WithoutTree(d, TempDir) else d, zipName)
  }

  // ---------------------------------------------------------------------
  // The decision table
  // ---------------------------------------------------------------------

  /** One `organize_files` call: the directory, the pattern's key and the popup flag. */
  datatype OrganizeCall = OrganizeCall(dir: string, key: PatternKey, isPopup: bool)

  /**
   * The pattern key spelled like the subtype, which the last branch looks
   * up; a moving sticker has none of its own.
   */
  function SameNamedKey(s: Subtype): Option<PatternKey> {
    match s
    case StickerNormal => Some(NormalStickerFiles)
    case StickerMessage => Some(MessageStickerFiles)
    case StickerMoving => None
    case EmojiNormal => Some(NormalEmojiFiles)
    case EmojiMoving => Some(MovingEmojiFiles)
  }

  /** The `organize_files` calls of each branch, given whether `popup` is a directory. */
  function Plan(s: Subtype, popupPresent: bool): (r: seq<OrganizeCall>) {
    if s == StickerMoving then
      if popupPresent then
        [OrganizeCall(TempDir, EffectMain, false), OrganizeCall(PopupDir, EffectPopup, true)]
      else
        [OrganizeCall(AnimationDir, AnimationFrames, false)]
    else if s == EmojiMoving then [OrganizeCall(TempDir, MovingEmojiFiles, false)]
    else if s == EmojiNormal then [OrganizeCall(TempDir, NormalEmojiFiles, false)]
    else [OrganizeCall(TempDir, SameNamedKey(s).value, false)]
  }

  /** The calls of a plan carried out in order. */
  function ApplyPlan(d: Dirs, out: string, title: string, plan: seq<OrganizeCall>): (r: Dirs)
    requires out in d && forall c :: c in plan ==> c.dir in d
    ensures r.Keys == d.Keys
    decreases |plan|
  {
    if plan == [] then d
    else
      var c := plan[0];
      ApplyPlan(Organized(d, c.dir, out, title, ContentPattern(c.key), c.isPopup), out, title, plan[1..])
  }

  /** Every directory the plan lists exists (`os.listdir` raises otherwise). */
  predicate CanOrganize(e: Dirs, s: Subtype) {
    forall c :: c in Plan(s, PopupDir in e) ==> c.dir in e
  }

  /** Whether `process_pack` runs to its end or stops at a step the code does not catch. */
  predicate ProcessPackDefined(d: Dirs, id: string, title: string, s: Subtype,
                               server: string -> DownloadOutcome, unzip: Bytes -> ExtractOutcome)
  {
    WorkDir in d
    && (server(DownloadUrl(s, id)).Downloaded? && unzip(server(DownloadUrl(s, id)).data).Unpacked? ==>
          CanOrganize(Staged(d, ZipName(id), server(DownloadUrl(s, id)).data,
                             unzip(server(DownloadUrl(s, id)).data).tree, title), s))
  }

  /** The disk after `process_pack(id, title, s)`. */
  function ProcessPackSpec(d: Dirs, id: string, title: string, s: Subtype,
                           server: string -> DownloadOutcome, unzip: Bytes -> ExtractOutcome): (r: Dirs)
    requires ProcessPackDefined(d, id, title, s, server, unzip)
  {
    var zipName := ZipName(id);
    var dl := server(DownloadUrl(s, id));
    if !dl.Downloaded? then AfterDownload(d, zipName, dl)
    else
      match unzip(dl.data)
      case Unreadable(partial) =>
        DropZip(ExtractTree(FreshTemp(AfterDownload(d, zipName, dl)), TempDir, partial), zipName)
      case Unpacked(t) =>
        var e := Staged(d, zipName, dl.data, t, title);
        Cleanup(ApplyPlan(e, OutDir(title), title, Plan(s, PopupDir in e)), zipName)
  }

  // ---------------------------------------------------------------------
  // The program
  // ---------------------------------------------------------------------

  /** `download_zip(url, zipName)`: true exactly when the whole body was saved. */
  method DownloadZip(fs: FileSystem, url: string, zipName: string, server: string -> DownloadOutcome)
      returns (ok: bool)
    requires WorkDir in fs.dirs
    modifies fs
    ensures ok <==> server(url).Downloaded?
    ensures fs.dirs == AfterDownload(old(fs.dirs), zipName, server(url))
  {
    match server(url)
    case RefusedBeforeWrite =>
      ok := false;
    case BrokenMidStream(partial) =>
      fs.WriteFile(WorkDir, zipName, partial);
      ok := false;
    case Downloaded(data) =>
      fs.WriteFile(WorkDir, zipName, data);
      ok := true;
  }

  method ProcessPack(fs: FileSystem, id: string, title: string, s: Subtype,
                     server: string -> DownloadOutcome, unzip: Bytes -> ExtractOutcome)
    requires ProcessPackDefined(fs.dirs, id, title, s, server, unzip)
    modifies fs
    ensures fs.dirs == ProcessPackSpec(old(fs.dirs), id, title, s, server, unzip)
  {
    ghost var d0 := fs.dirs;
    var zipName := ZipName(id);
    var tempExtractDir := TempDir;

    // download
    var downloadUrl := DownloadUrl(s, id);
    var ok := DownloadZip(fs, downloadUrl, zipName, server);
    if !ok {
      return;
    }

    // unpack
    ResetScratch(fs);
    ScratchKeepsWorkDir(AfterDownload(d0, zipName, server(downloadUrl)));
    var archive := fs.ReadFile(WorkDir, zipName);
    var unpacked := unzip(archive);
    if unpacked.Unreadable? {
      fs.Extract(tempExtractDir, unpacked.partial);
      RemoveArchive(fs, zipName);
      return;
    }
    fs.Extract(tempExtractDir, unpacked.tree);

    // organise
    fs.MakeDirsExistOk(OutputBase, title);
    assert fs.dirs == Staged(d0, zipName, archive, unpacked.tree, title);
    StagedHasScratch(d0, zipName, archive, unpacked.tree, title);
    OrganizeBranch(fs, s, title);

    // clean up
    RemoveLeftovers(fs, zipName);
  }

  /** The scratch directory is removed if it is there and made afresh. */
  method ResetScratch(fs: FileSystem)
    modifies fs
    ensures fs.dirs == FreshTemp(old(fs.dirs))
  {
    var tempExtractDir := TempDir;
    var stale := fs.IsDir(tempExtractDir);
    if stale {
      fs.RemoveTree(tempExtractDir);
    }
    fs.MakeDir(tempExtractDir);
  }

  /** The archive is removed if it exists. */
  method RemoveArchive(fs: FileSystem, zipName: string)
    modifies fs
    ensures fs.dirs == DropZip(old(fs.dirs), zipName)
  {
    var zipExists := fs.FileExists(WorkDir, zipName);
    if zipExists {
      fs.RemoveFile(WorkDir, zipName);
    }
  }

  /** The final clean-up: the scratch directory if it exists, then the archive. */
  method RemoveLeftovers(fs: FileSystem, zipName: string)
    modifies fs
    ensures fs.dirs == Cleanup(old(fs.dirs), zipName)
  {
    var tempExtractDir := TempDir;
    var scratchLeft := fs.IsDir(tempExtractDir);
    if scratchLeft {
      fs.RemoveTree(tempExtractDir);
    }
    RemoveArchive(fs, zipName);
  }

  /** The branch table of `process_pack`, run on the staged disk. */
  method OrganizeBranch(fs: FileSystem, s: Subtype, title: string)
    requires TempDir in fs.dirs && OutDir(title) in fs.dirs && CanOrganize(fs.dirs, s)
    modifies fs
    ensures fs.dirs == ApplyPlan(old(fs.dirs), OutDir(title), title, Plan(s, PopupDir in old(fs.dirs)))
  {
    ghost var e := fs.dirs;
    var tempExtractDir := TempDir;
    var outputDir := OutDir(title);
    if s == StickerMoving {
      var popupDir := PopupDir;
      var hasPopup := fs.IsDir(popupDir);
      if hasPopup {
        OrganizeFiles(fs, tempExtractDir, outputDir, title, ContentPattern(EffectMain), false);
        OrganizeFiles(fs, popupDir, outputDir, title, ContentPattern(EffectPopup), true);
      } else {
        var animationDir := AnimationDir;
        assert OrganizeCall(AnimationDir, AnimationFrames, false) in Plan(s, PopupDir in e);
        OrganizeFiles(fs, animationDir, outputDir, title, ContentPattern(AnimationFrames), false);
      }
    } else if s == EmojiMoving {
      OrganizeFiles(fs, tempExtractDir, outputDir, title, ContentPattern(MovingEmojiFiles), false);
    } else if s == EmojiNormal {
      OrganizeFiles(fs, tempExtractDir, outputDir, title, ContentPattern(NormalEmojiFiles), false);
    } else {
      OrganizeFiles(fs, tempExtractDir, outputDir, title, ContentPattern(SameNamedKey(s).value), false);
    }
    PlanSteps(e, outputDir, title, Plan(s, PopupDir in e));
  }

  // ---------------------------------------------------------------------
  // Path facts
  // ---------------------------------------------------------------------

  /** A path that does not start with `t` is not below the scratch directory. */
  lemma NotUnderScratch(p: string)
    requires p != [] && p[0] != 't'
    ensures !Within(p, TempDir)
  {
    if |p| > |TempDir| {
      assert p[..|TempDir| + 1][0] == p[0];
      assert (TempDir + "/")[0] == 't';
    }
  }

  /** The working directory and the output directories lie outside the scratch directory. */
  lemma OutDirOutsideScratch(title: string)
    ensures !Within(WorkDir, TempDir) && !Within(OutputBase, TempDir) && !Within(OutDir(title), TempDir)
    ensures OutDir(title) != WorkDir && OutDir(title) != OutputBase && OutputBase != WorkDir
  {
    NotUnderScratch(WorkDir);
    NotUnderScratch(OutputBase);
    assert OutDir(title)[0] == 'o';
    NotUnderScratch(OutDir(title));
    assert |OutDir(title)| > |OutputBase|;
  }

  /** The scratch directory's own sub-directories. */
  lemma ContentDirsUnderScratch()
    ensures Within(PopupDir, TempDir) && PopupDir != TempDir
    ensures Within(AnimationDir, TempDir) && AnimationDir != TempDir
    ensures PopupDir != AnimationDir
  {
    JoinIsWithin(TempDir, "popup");
    JoinIsWithin(TempDir, "animation@2x");
    assert PopupDir[|TempDir| + 1] != AnimationDir[|TempDir| + 1];
  }

  /** The content sub-directories are the table's entries, placed under the scratch directory. */
  lemma ContentDirsFromTable()
    ensures PopupDir == Join(TempDir, ContentDir(EffectPopup).value)
    ensures AnimationDir == Join(TempDir, ContentDir(AnimationFrames).value)
  {
  }

  /** Making the scratch directory leaves the archive where it was. */
  lemma ScratchKeepsWorkDir(d: Dirs)
    ensures WorkDir in d ==> WorkDir in FreshTemp(d) && FreshTemp(d)[WorkDir] == d[WorkDir]
  {
    OutDirOutsideScratch("");
  }

  /** After staging, the scratch directory holds the archive's top-level files. */
  lemma StagedHasScratch(d: Dirs, zipName: string, data: Bytes, t: ArchiveTree, title: string)
    requires WorkDir in d
    ensures var e := Staged(d, zipName, data, t, title);
      && TempDir in e && e[TempDir] == t.files && WorkDir in e
      && OutDir(title) in e
  {
    OutDirOutsideScratch(title);
    var w := WriteEntry(d, WorkDir, zipName, data);
    var scratch := FreshTemp(w);
    FreshTempOutside(w, WorkDir);
    ExtractTreeRoot(scratch, TempDir, t);
    ExtractTreeOutside(scratch, TempDir, t, WorkDir);
    var x := ExtractTree(scratch, TempDir, t);
    assert x[TempDir] == t.files by {
      assert scratch[TempDir] + t.files == t.files;
    }
    WithOutputDirBelow(x, title, TempDir);
  }

  /** Renewing the scratch directory leaves a directory outside it alone. */
  lemma FreshTempOutside(w: Dirs, q: string)
    requires !Within(q, TempDir)
    ensures (q in FreshTemp(w) <==> q in w) && (q in w ==> FreshTemp(w)[q] == w[q])
  {
  }

  /** A one- or two-call plan applied step by step is the plan applied. */
  lemma PlanSteps(d: Dirs, out: string, title: string, plan: seq<OrganizeCall>)
    requires out in d && forall c :: c in plan ==> c.dir in d
    ensures |plan| == 1 ==>
      ApplyPlan(d, out, title, plan)
        == Organized(d, plan[0].dir, out, title, ContentPattern(plan[0].key), plan[0].isPopup)
    ensures |plan| == 2 ==>
      var d1 := Organized(d, plan[0].dir, out, title, ContentPattern(plan[0].key), plan[0].isPopup);
      ApplyPlan(d, out, title, plan)
        == Organized(d1, plan[1].dir, out, title, ContentPattern(plan[1].key), plan[1].isPopup)
  {
    if |plan| == 1 {
      assert plan[1..] == [];
    } else if |plan| == 2 {
      assert plan[1..][1..] == [];
    }
  }

  // ---------------------------------------------------------------------
  // Staging, directory by directory
  // ---------------------------------------------------------------------

  /**
   * A real disk has nothing below a directory that does not exist; only the
   * scratch directory's part of that matters here.
   */
  predicate ScratchRooted(d: Dirs) {
    TempDir !in d ==> forall p :: p in d ==> !Within(p, TempDir)
  }

  /** Staging leaves a directory outside the scratch directory as it was, creating the output ones. */
  lemma StagedOutside(d: Dirs, zipName: string, data: Bytes, t: ArchiveTree, title: string, q: string)
    requires WorkDir in d && !Within(q, TempDir) && q != WorkDir
    ensures var e := Staged(d, zipName, data, t, title);
      && (q in e <==> q in d || q == OutputBase || q == OutDir(title))
      && (q in e ==> e[q] == FilesOf(d, q))
  {
    var w := WriteEntry(d, WorkDir, zipName, data);
    FreshTempOutside(w, q);
    var scratch := FreshTemp(w);
    ExtractTreeOutside(scratch, TempDir, t, q);
    WithOutputDirAt(ExtractTree(scratch, TempDir, t), title, q);
  }

  /** Making the output directories, seen from one path. */
  lemma WithOutputDirAt(x: Dirs, title: string, q: string)
    ensures (q in WithOutputDir(x, title) <==> q in x || q == OutputBase || q == OutDir(title))
    ensures q in WithOutputDir(x, title) ==> WithOutputDir(x, title)[q] == FilesOf(x, q)
  {
  }

  /** Staging writes the archive into the working directory. */
  lemma StagedWorkDir(d: Dirs, zipName: string, data: Bytes, t: ArchiveTree, title: string)
    requires WorkDir in d
    ensures var e := Staged(d, zipName, data, t, title);
      WorkDir in e && e[WorkDir] == d[WorkDir][zipName := data]
  {
    OutDirOutsideScratch(title);
    var w := WriteEntry(d, WorkDir, zipName, data);
    FreshTempOutside(w, WorkDir);
    var scratch := FreshTemp(w);
    ExtractTreeOutside(scratch, TempDir, t, WorkDir);
    WithOutputDirAt(ExtractTree(scratch, TempDir, t), title, WorkDir);
  }

  /** On a rooted disk, a sub-directory of the scratch directory exists after staging exactly when the archive has that folder. */
  lemma StagedFolder(d: Dirs, zipName: string, data: Bytes, t: ArchiveTree, title: string, f: string)
    requires WorkDir in d && ScratchRooted(d)
    ensures var e := Staged(d, zipName, data, t, title);
      && (Join(TempDir, f) in e <==> f in t.folders)
      && (f in t.folders ==> e[Join(TempDir, f)] == t.folders[f])
  {
    var p := Join(TempDir, f);
    JoinIsWithin(TempDir, f);
    var w := WriteEntry(d, WorkDir, zipName, data);
    FreshTempBelow(w, p);
    var scratch := FreshTemp(w);
    ExtractTreeAt(scratch, TempDir, t, f);
    WithOutputDirBelow(ExtractTree(scratch, TempDir, t), title, p);
  }

  /** A fresh scratch directory of a rooted disk has no sub-directories. */
  lemma FreshTempBelow(w: Dirs, p: string)
    requires ScratchRooted(w) && Within(p, TempDir) && p != TempDir
    ensures p !in FreshTemp(w)
  {
  }

  /** Making the output directories does not touch the scratch tree. */
  lemma WithOutputDirBelow(x: Dirs, title: string, p: string)
    requires Within(p, TempDir)
    ensures (p in WithOutputDir(x, title) <==> p in x)
    ensures p in x ==> WithOutputDir(x, title)[p] == x[p]
  {
    OutDirOutsideScratch(title);
  }

  // ---------------------------------------------------------------------
  // Carrying out a plan
  // ---------------------------------------------------------------------

  /** What a plan adds to the output directory, later calls winning on a shared name. */
  function PlanYield(d: Dirs, title: string, plan: seq<OrganizeCall>): Listing
    requires forall c :: c in plan ==> c.dir in d
    decreases |plan|
  {
    if plan == [] then map[]
    else
      var c := plan[0];
      Gathered(d[c.dir], title, c.isPopup, ContentPattern(c.key)) + PlanYield(d, title, plan[1..])
  }

  /** The calls of a plan work on distinct directories, none of them the output directory. */
  predicate PlanApart(plan: seq<OrganizeCall>, out: string) {
    && (forall i :: 0 <= i < |plan| ==> plan[i].dir != out)
    && (forall i, j :: 0 <= i < j < |plan| ==> plan[i].dir != plan[j].dir)
  }

  /** A plan's yield depends only on the listings it reads. */
  lemma {:induction false} PlanYieldFrame(d: Dirs, d': Dirs, title: string, plan: seq<OrganizeCall>)
    requires forall c :: c in plan ==> c.dir in d && c.dir in d' && d[c.dir] == d'[c.dir]
    ensures PlanYield(d, title, plan) == PlanYield(d', title, plan)
    decreases |plan|
  {
    if plan != [] {
      assert plan[0] in plan;
      assert forall c :: c in plan[1..] ==> c in plan;
      PlanYieldFrame(d, d', title, plan[1..]);
    }
  }

  /** The calls after the first of a plan that is apart are apart too. */
  lemma PlanApartRest(plan: seq<OrganizeCall>, out: string)
    requires plan != [] && PlanApart(plan, out)
    ensures PlanApart(plan[1..], out)
    ensures forall i :: 0 <= i < |plan| - 1 ==> plan[1..][i].dir != plan[0].dir
  {
    var rest := plan[1..];
    forall i, j | 0 <= i < j < |rest| ensures rest[i].dir != rest[j].dir {
      assert rest[i] == plan[i + 1] && rest[j] == plan[j + 1];
    }
    forall i | 0 <= i < |rest| ensures rest[i].dir != out && rest[i].dir != plan[0].dir {
      assert rest[i] == plan[i + 1];
    }
  }

  /**
   * Carrying out a plan whose calls are apart: the output directory gains
   * the plan's yield over what it had.
   */
  lemma {:induction false} ApplyPlanOutput(d: Dirs, out: string, title: string, plan: seq<OrganizeCall>)
    requires out in d && (forall c :: c in plan ==> c.dir in d) && PlanApart(plan, out)
    ensures ApplyPlan(d, out, title, plan)[out] == d[out] + PlanYield(d, title, plan)
    decreases |plan|
  {
    if plan == [] {
      assert d[out] + map[] == d[out];
    } else {
      var c := plan[0];
      var p := ContentPattern(c.key);
      var d1 := Organized(d, c.dir, out, title, p, c.isPopup);
      var g := Gathered(d[c.dir], title, c.isPopup, p);
      var rest := plan[1..];
      OrganizedAtOutput(d, c.dir, out, title, p, c.isPopup);
      PlanApartRest(plan, out);
      ApplyPlanOutput(d1, out, title, rest);
      forall c' | c' in rest ensures c'.dir in d && d1[c'.dir] == d[c'.dir] {
        var k :| 0 <= k < |rest| && rest[k] == c';
        OrganizedElsewhere(d, c.dir, out, title, p, c.isPopup, c'.dir);
      }
      PlanYieldFrame(d, d1, title, rest);
      UnionAssoc(d[out], g, PlanYield(d, title, rest));
    }
  }

  lemma UnionAssoc(a: Listing, b: Listing, c: Listing)
    ensures (a + b) + c == a + (b + c)
  {
  }

  /** A directory no call of the plan reads, other than the output directory, is left alone. */
  lemma {:induction false} ApplyPlanElsewhere(d: Dirs, out: string, title: string, plan: seq<OrganizeCall>, q: string)
    requires out in d && (forall c :: c in plan ==> c.dir in d)
    requires q in d && q != out && forall c :: c in plan ==> c.dir != q
    ensures ApplyPlan(d, out, title, plan)[q] == d[q]
    decreases |plan|
  {
    if plan != [] {
      var c := plan[0];
      var p := ContentPattern(c.key);
      assert c in plan;
      OrganizedElsewhere(d, c.dir, out, title, p, c.isPopup, q);
      assert forall c' :: c' in plan[1..] ==> c' in plan;
      ApplyPlanElsewhere(Organized(d, c.dir, out, title, p, c.isPopup), out, title, plan[1..], q);
    }
  }

  /** Every plan of the table is apart from the output directory. */
  lemma PlanIsApart(s: Subtype, popupPresent: bool, title: string)
    ensures PlanApart(Plan(s, popupPresent), OutDir(title))
  {
    OutDirOutsideScratch(title);
    ContentDirsUnderScratch();
  }

  /** The clean-up removes the scratch tree and the archive and nothing else. */
  lemma CleanupEffect(a: Dirs, zipName: string)
    requires WorkDir in a && TempDir in a
    ensures var r := Cleanup(a, zipName);
      && (forall q :: q in r <==> q in a && !Within(q, TempDir))
      && r[WorkDir] == a[WorkDir] - {zipName}
      && (forall q :: q in r && q != WorkDir ==> r[q] == a[q])
  {
    OutDirOutsideScratch("");
    if zipName !in a[WorkDir] {
      assert a[WorkDir] - {zipName} == a[WorkDir];
    }
  }

  /**
   * Every subtype but the moving sticker organises the scratch root once with
   * the pattern spelled like the subtype, even where the branch names it itself.
   */
  lemma PlanOwnPattern(s: Subtype, popupPresent: bool)
    requires s != StickerMoving
    ensures Plan(s, popupPresent) == [OrganizeCall(TempDir, SameNamedKey(s).value, false)]
  {
  }

  /** Every directory a plan organises is the scratch root or one of its two content sub-directories. */
  lemma PlanDirs(s: Subtype, popupPresent: bool, c: OrganizeCall)
    requires c in Plan(s, popupPresent)
    ensures c.dir == TempDir || c.dir == PopupDir || c.dir == AnimationDir
  {
  }

  // ---------------------------------------------------------------------
  // What process_pack leaves behind
  // ---------------------------------------------------------------------

  /**
   * When a moving sticker has neither a `popup` nor an `animation@2x`
   * folder, `os.listdir` fails; the other cases always run through.
   */
  predicate ArchiveComplete(t: ArchiveTree, s: Subtype) {
    s == StickerMoving && "popup" !in t.folders ==> "animation@2x" in t.folders
  }

  /**
   * The images a successful run delivers, read off the archive: a moving
   * sticker with a `popup` folder yields its top-level main images and its
   * popup images (the latter marked `popup`), one without yields the frames
   * of `animation@2x`, and every other subtype yields the top-level files
   * that match its own pattern.
   */
  function Delivered(t: ArchiveTree, title: string, s: Subtype): Listing
    requires ArchiveComplete(t, s)
  {
    if s == StickerMoving then
      if "popup" in t.folders then
        Gathered(t.files, title, false, ContentPattern(EffectMain))
          + Gathered(t.folders["popup"], title, true, ContentPattern(EffectPopup))
      else
        Gathered(t.folders["animation@2x"], title, false, ContentPattern(AnimationFrames))
    else
      Gathered(t.files, title, false, ContentPattern(SameNamedKey(s).value))
  }

  /** A staged, rooted disk can be organised exactly when the archive is complete. */
  lemma CanOrganizeIff(d: Dirs, zipName: string, data: Bytes, t: ArchiveTree, title: string, s: Subtype)
    requires WorkDir in d && ScratchRooted(d)
    ensures CanOrganize(Staged(d, zipName, data, t, title), s) <==> ArchiveComplete(t, s)
  {
    StagedHasScratch(d, zipName, data, t, title);
    StagedFolder(d, zipName, data, t, title, "popup");
    StagedFolder(d, zipName, data, t, title, "animation@2x");
    CanOrganizeOn(Staged(d, zipName, data, t, title), t, s);
  }

  /** The scratch tree of `e` mirrors the archive `t`, as far as the table looks. */
  predicate MirrorsArchive(e: Dirs, t: ArchiveTree) {
    && TempDir in e && e[TempDir] == t.files
    && (PopupDir in e <==> "popup" in t.folders)
    && ("popup" in t.folders ==> e[PopupDir] == t.folders["popup"])
    && (AnimationDir in e <==> "animation@2x" in t.folders)
    && ("animation@2x" in t.folders ==> e[AnimationDir] == t.folders["animation@2x"])
  }

  lemma CanOrganizeOn(e: Dirs, t: ArchiveTree, s: Subtype)
    requires MirrorsArchive(e, t)
    ensures CanOrganize(e, s) <==> ArchiveComplete(t, s)
  {
    if s == StickerMoving && PopupDir !in e {
      assert OrganizeCall(AnimationDir, AnimationFrames, false) in Plan(s, PopupDir in e);
    }
  }

  /** The plan run on a disk that mirrors the archive yields what the archive promises. */
  lemma YieldOn(e: Dirs, t: ArchiveTree, title: string, s: Subtype)
    requires MirrorsArchive(e, t) && ArchiveComplete(t, s)
    ensures forall c :: c in Plan(s, PopupDir in e) ==> c.dir in e
    ensures PlanYield(e, title, Plan(s, PopupDir in e)) == Delivered(t, title, s)
  {
    CanOrganizeOn(e, t, s);
    var plan := Plan(s, PopupDir in e);
    if |plan| == 1 {
      PlanYieldOne(e, title, plan[0]);
      assert plan == [plan[0]];
    } else {
      PlanYieldTwo(e, title, plan[0], plan[1]);
      assert plan == [plan[0], plan[1]];
    }
  }

  lemma PlanYieldOne(e: Dirs, title: string, c: OrganizeCall)
    requires c.dir in e
    ensures PlanYield(e, title, [c]) == Gathered(e[c.dir], title, c.isPopup, ContentPattern(c.key))
  {
    assert [c][1..] == [];
    var g := Gathered(e[c.dir], title, c.isPopup, ContentPattern(c.key));
    assert g + map[] == g;
  }

  lemma PlanYieldTwo(e: Dirs, title: string, c0: OrganizeCall, c1: OrganizeCall)
    requires c0.dir in e && c1.dir in e
    ensures PlanYield(e, title, [c0, c1])
         == Gathered(e[c0.dir], title, c0.isPopup, ContentPattern(c0.key))
            + Gathered(e[c1.dir], title, c1.isPopup, ContentPattern(c1.key))
  {
    assert [c0, c1][1..] == [c1];
    PlanYieldOne(e, title, c1);
  }

  /** Staging a rooted disk makes its scratch tree mirror the archive. */
  lemma StagedMirrors(d: Dirs, zipName: string, data: Bytes, t: ArchiveTree, title: string)
    requires WorkDir in d && ScratchRooted(d)
    ensures MirrorsArchive(Staged(d, zipName, data, t, title), t)
  {
    StagedHasScratch(d, zipName, data, t, title);
    StagedFolder(d, zipName, data, t, title, "popup");
    StagedFolder(d, zipName, data, t, title, "animation@2x");
  }

  /**
   * A run that downloads and unpacks the archive leaves `output/<title>`
   * holding what it held before (if anything) overlaid with the images the
   * archive delivers.
   */
  lemma ProcessPackDelivers(d: Dirs, id: string, title: string, s: Subtype,
                            server: string -> DownloadOutcome, unzip: Bytes -> ExtractOutcome,
                            data: Bytes, t: ArchiveTree)
    requires ProcessPackDefined(d, id, title, s, server, unzip) && ScratchRooted(d)
    requires server(DownloadUrl(s, id)) == Downloaded(data) && unzip(data) == Unpacked(t)
    ensures ArchiveComplete(t, s)
    ensures var r := ProcessPackSpec(d, id, title, s, server, unzip);
      OutDir(title) in r && r[OutDir(title)] == FilesOf(d, OutDir(title)) + Delivered(t, title, s)
  {
    var zipName := ZipName(id);
    CanOrganizeIff(d, zipName, data, t, title, s);
    var out := OutDir(title);
    var e := Staged(d, zipName, data, t, title);
    var plan := Plan(s, PopupDir in e);
    StagedMirrors(d, zipName, data, t, title);
    YieldOn(e, t, title, s);
    OutDirOutsideScratch(title);
    StagedOutside(d, zipName, data, t, title, out);
    PlanIsApart(s, PopupDir in e, title);
    ApplyPlanOutput(e, out, title, plan);
    StagedWorkDir(d, zipName, data, t, title);
    CleanupEffect(ApplyPlan(e, out, title, plan), zipName);
  }

  /**
   * A run that downloads and unpacks the archive removes the scratch
   * directory and the archive, creates `output` and `output/<title>`, and
   * leaves every other directory as it was.
   */
  lemma ProcessPackCleansUp(d: Dirs, id: string, title: string, s: Subtype,
                            server: string -> DownloadOutcome, unzip: Bytes -> ExtractOutcome,
                            data: Bytes, t: ArchiveTree)
    requires ProcessPackDefined(d, id, title, s, server, unzip)
    requires server(DownloadUrl(s, id)) == Downloaded(data) && unzip(data) == Unpacked(t)
    ensures var r := ProcessPackSpec(d, id, title, s, server, unzip);
      && (forall q :: q in r <==> (q in d && !Within(q, TempDir)) || q == OutputBase || q == OutDir(title))
      && r[WorkDir] == d[WorkDir] - {ZipName(id)}
      && (forall q :: q in d && !Within(q, TempDir) && q != WorkDir && q != OutDir(title) ==> r[q] == d[q])
  {
    var zipName := ZipName(id);
    var out := OutDir(title);
    var e := Staged(d, zipName, data, t, title);
    var plan := Plan(s, PopupDir in e);
    StagedHasScratch(d, zipName, data, t, title);
    StagedWorkDir(d, zipName, data, t, title);
    OutDirOutsideScratch(title);
    ContentDirsUnderScratch();
    var a := ApplyPlan(e, out, title, plan);
    forall q | !Within(q, TempDir) && q != WorkDir && q != out && q in e
      ensures a[q] == e[q]
    {
      forall c | c in plan ensures c.dir != q {
        PlanDirs(s, PopupDir in e, c);
      }
      ApplyPlanElsewhere(e, out, title, plan, q);
    }
    forall c | c in plan ensures c.dir != WorkDir {
      PlanDirs(s, PopupDir in e, c);
    }
    ApplyPlanElsewhere(e, out, title, plan, WorkDir);
    forall q | !Within(q, TempDir) && q != WorkDir
      ensures (q in e <==> q in d || q == OutputBase || q == out) && (q in e ==> e[q] == FilesOf(d, q))
    {
      StagedOutside(d, zipName, data, t, title, q);
    }
    CleanupAfterStaging(d, e, a, zipName, data, title);
  }

  /** The clean-up step of the lemma above, on any staged disk `e` and organised disk `a`. */
  lemma CleanupAfterStaging(d: Dirs, e: Dirs, a: Dirs, zipName: string, data: Bytes, title: string)
    requires WorkDir in d && WorkDir in e && TempDir in e && a.Keys == e.Keys
    requires forall q :: !Within(q, TempDir) && q != WorkDir ==>
      (q in e <==> q in d || q == OutputBase || q == OutDir(title)) && (q in e ==> e[q] == FilesOf(d, q))
    requires forall q :: !Within(q, TempDir) && q != WorkDir && q != OutDir(title) && q in e ==> a[q] == e[q]
    requires a[WorkDir] == e[WorkDir] && e[WorkDir] == d[WorkDir][zipName := data]
    ensures var r := Cleanup(a, zipName);
      && (forall q :: q in r <==> (q in d && !Within(q, TempDir)) || q == OutputBase || q == OutDir(title))
      && r[WorkDir] == d[WorkDir] - {zipName}
      && (forall q :: q in d && !Within(q, TempDir) && q != WorkDir && q != OutDir(title) ==> r[q] == d[q])
  {
    OutDirOutsideScratch(title);
    CleanupEffect(a, zipName);
    WriteThenDelete(d[WorkDir], zipName, data);
  }

  lemma WriteThenDelete(l: Listing, name: string, data: Bytes)
    ensures l[name := data] - {name} == l - {name}
  {
  }

  /**
   * Running `process_pack` a second time with the same arguments, when the
   * store serves the same archive, can again run to its end and leaves the
   * disk exactly as the first run left it: the same `output/<title>` and
   * nothing else different.
   */
  lemma ProcessPackRerun(d: Dirs, id: string, title: string, s: Subtype,
                         server: string -> DownloadOutcome, unzip: Bytes -> ExtractOutcome,
                         data: Bytes, t: ArchiveTree)
    requires ProcessPackDefined(d, id, title, s, server, unzip) && ScratchRooted(d)
    requires server(DownloadUrl(s, id)) == Downloaded(data) && unzip(data) == Unpacked(t)
    ensures var r := ProcessPackSpec(d, id, title, s, server, unzip);
      ProcessPackDefined(r, id, title, s, server, unzip)
      && ProcessPackSpec(r, id, title, s, server, unzip) == r
  {
    var zipName := ZipName(id);
    var r := ProcessPackSpec(d, id, title, s, server, unzip);
    ProcessPackCleansUp(d, id, title, s, server, unzip, data, t);
    CleanRunRooted(d, r, title);
    CanOrganizeIff(d, zipName, data, t, title, s);
    CanOrganizeIff(r, zipName, data, t, title, s);
    var r2 := ProcessPackSpec(r, id, title, s, server, unzip);
    ProcessPackCleansUp(r, id, title, s, server, unzip, data, t);
    ProcessPackDelivers(d, id, title, s, server, unzip, data, t);
    ProcessPackDelivers(r, id, title, s, server, unzip, data, t);
    RerunSame(d, r, r2, zipName, title, Delivered(t, title, s));
  }

  /** A disk shaped like the end of a successful run is rooted and keeps the working directory. */
  lemma CleanRunRooted(d: Dirs, r: Dirs, title: string)
    requires WorkDir in d
    requires forall q :: q in r <==> (q in d && !Within(q, TempDir)) || q == OutputBase || q == OutDir(title)
    ensures WorkDir in r && ScratchRooted(r)
  {
    OutDirOutsideScratch(title);
  }

  /** The map reasoning of `ProcessPackRerun`: the second run's clean-up and overlay change nothing. */
  lemma RerunSame(d: Dirs, r: Dirs, r2: Dirs, zipName: string, title: string, delivered: Listing)
    requires forall q :: q in r <==> (q in d && !Within(q, TempDir)) || q == OutputBase || q == OutDir(title)
    requires WorkDir in d && WorkDir in r && r[WorkDir] == d[WorkDir] - {zipName}
    requires OutDir(title) in r && r[OutDir(title)] == FilesOf(d, OutDir(title)) + delivered
    requires forall q :: q in r2 <==> (q in r && !Within(q, TempDir)) || q == OutputBase || q == OutDir(title)
    requires WorkDir in r2 && r2[WorkDir] == r[WorkDir] - {zipName}
    requires OutDir(title) in r2 && r2[OutDir(title)] == FilesOf(r, OutDir(title)) + delivered
    requires forall q :: q in r && !Within(q, TempDir) && q != WorkDir && q != OutDir(title) ==> r2[q] == r[q]
    ensures r2 == r
  {
    OutDirOutsideScratch(title);
    OverlayTwice(FilesOf(d, OutDir(title)), delivered);
    assert r2.Keys == r.Keys;
    forall q | q in r ensures r2[q] == r[q] {
      if q == WorkDir {
        assert r2[q] == (d[WorkDir] - {zipName}) - {zipName};
      }
    }
  }

  /** Overlaying the same files twice is overlaying them once. */
  lemma OverlayTwice(l: Listing, m: Listing)
    ensures (l + m) + m == l + m
  {
  }

  /** A failed download stops the run; a broken stream leaves the partial archive behind. */
  lemma ProcessPackDownloadFails(d: Dirs, id: string, title: string, s: Subtype,
                                 server: string -> DownloadOutcome, unzip: Bytes -> ExtractOutcome)
    requires ProcessPackDefined(d, id, title, s, server, unzip)
    requires !server(DownloadUrl(s, id)).Downloaded?
    ensures var r := ProcessPackSpec(d, id, title, s, server, unzip);
      && (server(DownloadUrl(s, id)).RefusedBeforeWrite? ==> r == d)
      && (server(DownloadUrl(s, id)).BrokenMidStream? ==>
            r == d[WorkDir := d[WorkDir][ZipName(id) := server(DownloadUrl(s, id)).partial]])
  {
  }

  /**
   * An archive that cannot be unpacked stops the run after the archive is
   * deleted; the scratch directory, with whatever was written into it, stays.
   */
  lemma ProcessPackUnpackFails(d: Dirs, id: string, title: string, s: Subtype,
                               server: string -> DownloadOutcome, unzip: Bytes -> ExtractOutcome,
                               data: Bytes, partial: ArchiveTree)
    requires ProcessPackDefined(d, id, title, s, server, unzip)
    requires server(DownloadUrl(s, id)) == Downloaded(data) && unzip(data) == Unreadable(partial)
    ensures var r := ProcessPackSpec(d, id, title, s, server, unzip);
      && WorkDir in r && r[WorkDir] == d[WorkDir] - {ZipName(id)}
      && TempDir in r && r[TempDir] == partial.files
      && (forall q :: q in d && !Within(q, TempDir) && q != WorkDir ==> q in r && r[q] == d[q])
  {
    var zipName := ZipName(id);
    var w := WriteEntry(d, WorkDir, zipName, data);
    var scratch := FreshTemp(w);
    OutDirOutsideScratch(title);
    FreshTempOutside(w, WorkDir);
    ExtractTreeRoot(scratch, TempDir, partial);
    ExtractTreeOutside(scratch, TempDir, partial, WorkDir);
    var x := ExtractTree(scratch, TempDir, partial);
    assert x[TempDir] == partial.files by {
      assert scratch[TempDir] + partial.files == partial.files;
    }
    assert x[WorkDir] == d[WorkDir][zipName := data];
    forall q | q in d && !Within(q, TempDir) && q != WorkDir ensures q in x && x[q] == d[q] {
      FreshTempOutside(w, q);
      ExtractTreeOutside(scratch, TempDir, partial, q);
    }
    DropZipAfterWrite(d, x, zipName, data);
  }

  /** Deleting the archive just written takes the working directory back to its old files less that name. */
  lemma DropZipAfterWrite(d: Dirs, x: Dirs, zipName: string, data: Bytes)
    requires WorkDir in d && WorkDir in x && x[WorkDir] == d[WorkDir][zipName := data]
    ensures var r := DropZip(x, zipName);
      && r.Keys == x.Keys && r[WorkDir] == d[WorkDir] - {zipName}
      && (forall q :: q in x && q != WorkDir ==> r[q] == x[q])
  {
    WriteThenDelete(d[WorkDir], zipName, data);
  }
}
