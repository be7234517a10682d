# LINE sticker and emoji downloader: a Dafny model of its core

`main.py` takes a LINE Store product URL and works out which pack the URL
names: its id, its cleaned display title, and whether it is a sticker or an
emoji pack. It then asks the user which subtype of that kind to fetch and
downloads the subtype's archive. The archive is unpacked into a scratch
directory. The images of the chosen subtype are moved into
`output/<title>` and renamed `<title>_<name>`, or `<title>_popup_<name>` for
popup overlays. Finally the scratch directory and the archive are removed.

This project models that core and proves what it does:

- `registry.dfy` (module `Registry`): the three tables. `DOWNLOAD_URLS` is
  split at its one `{id}` slot. `CONTENT_PATTERNS` is modelled as "digits,
  then a fixed suffix". `CONTENT_DIRS` is looked up through `ContentDir`.
  The module also has `str.format` reduced to filling `{id}`.
- `identity.dfy` (module `PageIdentifier`): the pure part of
  `get_pack_info`. It covers `str.strip`, the removal of the nine
  characters `\ / * ? : " > < |`, and the substring tests on the URL. It
  also covers the leftmost `/product/<digits>` or `/product/<hex>` search
  and the all-or-nothing result.
- `disk.dfy` (module `Disk`): the disk as a map from directory path to the
  files directly in it. A `FileSystem` class holds that map and has one
  method for each `os`, `shutil` and `zipfile` primitive the script calls.
- `organizer.dfy` (module `Organizer`): `organize_files` as a method with a
  loop over `os.listdir`. It is proved against the function `Organized`,
  which says that every match is moved and renamed and nothing else changes.
- `pipeline.dfy` (module `Pipeline`): `process_pack` as a method. It
  downloads, clears and re-creates the scratch directory, unpacks, runs the
  subtype branch table, then cleans up. It is proved against the function
  `ProcessPackSpec`. Lemmas then state what a run delivers into
  `output/<title>`, what it leaves behind, and what happens when the
  download or the unpacking fails.
- `cli.dfy` (module `Cli`): `main`. The URL comes from the argument or the
  first console line. The menu loops map answers to subtypes.
  `process_pack` is called only once a subtype is resolved.

Some behaviour comes from calls this model cannot see. Each is a parameter:

- the store page request becomes `PageFetch`: either the fetch failed, or
  it says what each of the two title selectors found;
- the archive download becomes `server: string -> DownloadOutcome`;
- unpacking becomes `unzip: Bytes -> ExtractOutcome`, which is applied to
  the bytes read back from the saved archive;
- the console becomes the sequence of lines the user types.

Points where the code's behaviour is easy to miss:

- **A download that breaks mid-stream leaves a file behind.** The archive
  file is opened before the body is streamed. When the stream breaks, the
  partial `<id>_temp.zip` stays on disk (`ProcessPackDownloadFails`).
- **An unreadable archive leaves the scratch directory behind.**
  `temp_extract_dir` has already been created when `zipfile` fails. It
  stays, holding whatever was written before the failure
  (`ProcessPackUnpackFails`). Only the archive is removed.
- **Clean-up is not guaranteed.** It is not in a `finally` block. An error
  while organising, such as `os.listdir` on a missing `animation@2x`,
  escapes `process_pack` before any clean-up runs. The model makes such
  runs a precondition (`ProcessPackDefined`): it describes only the runs
  the code completes.
- **End of input ends the program.** When console input runs out,
  `input()` raises and nothing is downloaded.

## Model

| member | source | states |
|---|---|---|
| `Registry.DownloadTemplate` | main.py:11-17 | The five `DOWNLOAD_URLS` templates. Their shape (one `{id}` slot between brace-free parts) is stated by `Registry.TemplateHasOneSlot`, `Registry.HeadBraceFree` and `Registry.TailBraceFree`. |
| `Registry.FillId` | main.py:129 | `str.format` with the one keyword `id`. Its meaning is stated by `Registry.FillOneSlot`, `Registry.FillBraceFree` and `Registry.FillAfterBraceFree`. |
| `Registry.DownloadUrl` | main.py:129 | The URL `process_pack` downloads from. `Registry.TemplateHasOneSlot` states it is the template with the id in its slot, and `Registry.DownloadUrlInjective` that different ids give different URLs. |
| `Registry.TemplateHasOneSlot` | main.py:11-17 | Every download template is a brace-free head, one `{id}` slot and a brace-free tail. The formatted URL is that head, then the id, then that tail. |
| `Registry.FillOneSlot` | main.py:129 | Filling `{id}` in `head + "{id}" + tail`, both free of braces, puts the id in the slot and changes nothing else. |
| `Registry.FillBraceFree` | main.py:129 | Formatting a string with no `{` leaves it unchanged. |
| `Registry.FillAfterBraceFree` | main.py:129 | Formatting passes a brace-free prefix through unchanged. |
| `Registry.HeadBraceFree` | main.py:11-17 | The part of each template before `{id}` has no brace. |
| `Registry.TailBraceFree` | main.py:11-17 | The part of each template after `{id}` has no brace. |
| `Registry.DownloadUrlInjective` | main.py:129 | Different pack ids give different download URLs for the same subtype. |
| `Registry.Matches` | main.py:109 | `re.match` of a `^\d+<suffix>$` pattern. Its meaning is stated by `Registry.MatchesIff`. |
| `Registry.MatchesIff` | main.py:20-28 | A name matches a pattern exactly when it is a non-empty run of decimal digits followed by the pattern's suffix. |
| `Registry.ContentPattern` | main.py:20-28 | Every pattern's literal part is non-empty and starts with a non-digit. What a match is is stated by `Registry.MatchesIff`, and how the entries relate by the three lemmas below. |
| `Registry.MatchStartsWithDigit` | main.py:20-28 | A matching name starts with a digit. |
| `Registry.EmojiPatternsDisjoint` | main.py:26-27 | No name matches both the `emoji_moving` and the `emoji_normal` pattern. |
| `Registry.EffectPatternsDisjoint` | main.py:24-25 | No name matches both the effect-main and the effect-popup pattern. |
| `Registry.StickerPatternsIdentical` | main.py:21-24 | The four sticker-side `@2x` patterns are the same pattern. |
| `Registry.ContentDir` | main.py:31-34 | `CONTENT_DIRS`. `Pipeline.ContentDirsFromTable` states that the popup and animation directories are built from it, and `Registry.ContentDirsMatchNoPattern` that its names match no pattern. |
| `Registry.ContentDirsMatchNoPattern` | main.py:20-34 | Neither name in `CONTENT_DIRS` (`animation@2x`, `popup`) matches any pattern. |
| `PageIdentifier.TrimStart` | main.py:56 | The result is a suffix of the input. Everything cut off is whitespace, and the result does not start with whitespace. |
| `PageIdentifier.TrimEnd` | main.py:56 | The result is a prefix of the input. Everything cut off is whitespace, and the result does not end with whitespace. |
| `PageIdentifier.TrimmedSlice` | main.py:56 | Cutting whitespace from the front and then from the back leaves a contiguous slice of the text with only whitespace outside it. |
| `PageIdentifier.StripIsTrimmedSlice` | main.py:56 | `strip()` returns a contiguous slice of the text with only whitespace outside it. |
| `PageIdentifier.StripEndsClean` | main.py:56 | The stripped text neither starts nor ends with whitespace. |
| `PageIdentifier.StripIdempotent` | main.py:56 | Stripping twice equals stripping once. |
| `PageIdentifier.Strip` | main.py:56 | `str.strip()`. Its meaning is stated by `PageIdentifier.StripIsTrimmedSlice`, `PageIdentifier.StripEndsClean` and `PageIdentifier.StripIdempotent`. |
| `PageIdentifier.CleanTitle` | main.py:56-58 | The kept title contains none of the nine forbidden characters and is no longer than the element's text. |
| `PageIdentifier.Sanitize` | main.py:58 | The result contains none of the nine forbidden characters and is no longer than the input. |
| `PageIdentifier.SanitizeAppend` | main.py:58 | Sanitising distributes over concatenation, so the kept characters stay in their original order. |
| `PageIdentifier.SanitizeSingle` | main.py:58 | One character is dropped exactly when it is forbidden. Otherwise it is kept. |
| `PageIdentifier.SanitizeKeepsClean` | main.py:58 | A text with no forbidden character is unchanged. |
| `PageIdentifier.SanitizeIdempotent` | main.py:58 | Sanitising twice equals sanitising once. |
| `PageIdentifier.IdRun` | main.py:64 | The id run is a slice of the URL made only of alphabet characters, and it ends at the end of the URL or before a non-alphabet character. |
| `PageIdentifier.FindProduct` | main.py:64 | It finds the leftmost `/product/` followed by at least one alphabet character, or proves there is none. |
| `PageIdentifier.ProductId` | main.py:64-72 | An id is found exactly when some `/product/<alphabet char>` occurs. The id is non-empty and made only of that alphabet. |
| `PageIdentifier.ProductIdIsLeftmostMaximalRun` | main.py:64-72 | The id is the longest alphabet run after the leftmost `/product/` match, as `re.search` with a greedy `+` returns. |
| `PageIdentifier.Classify` | main.py:63-72 | A classified URL has a non-empty id. It is a sticker exactly when it contains `stickershop`, and it contains one of the two shop names. |
| `PageIdentifier.ClassifyStickerShop` | main.py:63-67 | When the URL contains `stickershop`, only the decimal search decides. The result is (decimal id, sticker) and the id is all digits. |
| `PageIdentifier.ClassifyEmojiShop` | main.py:68-72 | When the URL contains `emojishop` but not `stickershop`, only the hex search decides. The result is (hex id, emoji). |
| `PageIdentifier.BothShopsMeansSticker` | main.py:63-72 | A URL naming both shops is never classified as emoji. |
| `PageIdentifier.TitleText` | main.py:48-50 | The text of the current-layout title element when there is one, otherwise that of the legacy one. `PageIdentifier.GetPackInfoSucceedsIff` states which of the two the returned title comes from. |
| `PageIdentifier.GetPackInfo` | main.py:48-79 | Id, title and kind are all set or all None. A set title is non-empty and clean, and a set id is non-empty. |
| `PageIdentifier.GetPackInfoSucceedsIff` | main.py:48-79 | It succeeds exactly when all of these hold: the page was fetched, a title selector matched, the cleaned title is non-empty, and the URL classifies. It then returns that title and the URL's id and kind. |
| `Disk.ExtractTreeAt` | main.py:140-141 | After `extractall`, a folder's directory exists exactly when it existed or the archive has the folder, and it holds the old files plus the folder's. |
| `Disk.ExtractTreeRoot` | main.py:140-141 | `extractall` adds the archive's top-level files to the target directory. |
| `Disk.ExtractTreeOutside` | main.py:140-141 | `extractall` leaves every directory outside the target alone. |
| `Disk.FileSystem.ListDir` | main.py:108 | `os.listdir` returns each file of the directory once. |
| `Disk.FileSystem.IsDir` | main.py:135 | `os.path.isdir`/`os.path.exists` on a directory: true exactly when the directory exists. Used at main.py:158 and 179 too. |
| `Disk.FileSystem.FileExists` | main.py:145 | `os.path.exists` on a file: true exactly when its directory exists and holds it. Used at main.py:181 too. |
| `Disk.FileSystem.ReadFile` | main.py:140 | Opening the saved archive yields exactly the bytes stored under its name. |
| `Disk.FileSystem.Move` | main.py:117 | `shutil.move`: the file leaves the source under its old name and is in the target under its new name, replacing any file of that name. No directory is created or removed. |
| `Disk.FileSystem.RemoveTree` | main.py:136 | `shutil.rmtree`: the disk becomes `WithoutTree`. `Disk.WithoutTreeAt` states that exactly the directories outside the root remain, with their files. Used at main.py:180 too. |
| `Disk.WithoutTreeAt` | main.py:136 | After removing a tree, a directory remains exactly when it existed and is outside the root, and it keeps its files. |
| `Disk.FileSystem.MakeDir` | main.py:137 | `os.makedirs` without `exist_ok`: the new directory exists and is empty, and nothing else changes. An existing directory is an error the caller must exclude. |
| `Disk.FileSystem.MakeDirsExistOk` | main.py:152 | `os.makedirs(..., exist_ok=True)`: the parent and the leaf exist afterwards. `Disk.EnsureDirAt` states that only missing ones are added, empty, and no existing directory changes. |
| `Disk.EnsureDirAt` | main.py:152 | Making sure a directory exists adds it, empty, when it is missing, and leaves every existing directory as it was. |
| `Disk.FileSystem.WriteFile` | main.py:94-96 | The chunked write: the file holds the given bytes, replacing any file of that name, and no directory is created. |
| `Disk.FileSystem.RemoveFile` | main.py:146 | `os.remove`: the file is gone from its directory. Used at main.py:182 too. |
| `Disk.FileSystem.Extract` | main.py:140-141 | `extractall`: the disk becomes `ExtractTree`, whose effect is stated by `Disk.ExtractTreeAt`, `Disk.ExtractTreeRoot` and `Disk.ExtractTreeOutside`. |
| `Organizer.OutNamesInjective` | main.py:113-114 | For a fixed title and popup flag, different names get different new names. So no two moves collide. |
| `Organizer.OutPrefix` | main.py:113 | `title_popup_` for popup images, `title_` otherwise. |
| `Organizer.OutName` | main.py:113-114 | The prefix followed by the original name. `Organizer.OutNamesInjective`, `Organizer.MainAndPopupNamesDiffer` and `Organizer.OutNameNeverMatches` state what the scheme guarantees. |
| `Organizer.MainAndPopupNamesDiffer` | main.py:113-114 | A main image (its name starts with a digit) and a popup image never get the same new name. |
| `Organizer.OutNameNeverMatches` | main.py:109-114 | A renamed file no longer matches the pattern. |
| `Organizer.Renamed` | main.py:113-117 | Every moved file appears under its new name with its contents, and nothing else appears. |
| `Organizer.Organized` | main.py:104-117 | `organize_files` as a function of the disk. It creates and removes no directory. What it moves is stated by `Organizer.OrganizedEffect` and the lemmas after it, and `Organizer.OrganizeFiles` is proved to compute it. |
| `Organizer.OrganizeFiles` | main.py:104-117 | After the loop over `os.listdir`, the disk is `Organized` of the old disk. |
| `Organizer.OrganizeStepMove` | main.py:109-117 | Handling one more matching name is exactly one `shutil.move` of it to its new name. |
| `Organizer.OrganizeStepSkip` | main.py:109 | Handling one more non-matching name changes nothing. |
| `Organizer.OrganizeOverNoMatch` | main.py:108-109 | When no listed name matches, the disk is unchanged. |
| `Organizer.OrganizedEffect` | main.py:104-117 | Non-matches stay in the source with their contents, and matches leave it. The output gains exactly the renamed matches. Every other directory is unchanged. |
| `Organizer.OrganizedAtOutput` | main.py:116-117 | The output directory holds its old files plus the renamed matches. |
| `Organizer.OrganizedElsewhere` | main.py:104-117 | Directories other than source and output are unchanged. |
| `Organizer.OrganizedMovesMatches` | main.py:109-117 | Each match leaves the source and is in the output under `title_` or `title_popup_` plus its name, with the same contents. |
| `Organizer.OrganizedKeepsOtherOutputs` | main.py:116-117 | An output file that no renamed match overwrites keeps its contents. |
| `Organizer.OrganizeTwiceIsOnce` | main.py:104-117 | Organising the same directory again changes nothing. |
| `Pipeline.DownloadZip` | main.py:86-101 | It returns true exactly when the whole body arrived. A refused request writes nothing. A broken stream leaves the partial file. |
| `Pipeline.ResetScratch` | main.py:135-137 | A stale scratch directory goes with everything below it, and an empty one is made. |
| `Pipeline.RemoveArchive` | main.py:145-146 | The archive is removed when it exists. |
| `Pipeline.RemoveLeftovers` | main.py:178-182 | The scratch directory is removed when it exists, then the archive. |
| `Pipeline.ZipName` | main.py:124 | The archive is saved as `<id>_temp.zip` in the working directory. `Pipeline.ProcessPackCleansUp` states it is gone after a successful run. |
| `Pipeline.OutDir` | main.py:151 | `output/<title>`. `Pipeline.OutDirOutsideScratch` states it lies outside the scratch tree and differs from `output` and the working directory. |
| `Pipeline.OutDirOutsideScratch` | main.py:124-151 | The working directory, `output` and `output/<title>` are outside `temp_extract_dir` and are three different paths. |
| `Pipeline.ProcessPackSpec` | main.py:120-184 | `process_pack` as a function of the disk, with its three ways to end. They are characterised by `Pipeline.ProcessPackDownloadFails`, `Pipeline.ProcessPackUnpackFails`, `Pipeline.ProcessPackDelivers`, `Pipeline.ProcessPackCleansUp` and `Pipeline.ProcessPackRerun`. |
| `Pipeline.ProcessPack` | main.py:120-184 | The steps change the disk to `ProcessPackSpec` of the old disk. |
| `Pipeline.OrganizeBranch` | main.py:155-173 | The branch table runs the `organize_files` calls of `Plan` in order. For a moving sticker, `Plan` picks the popup case when `popup` is a directory of the scratch root. |
| `Pipeline.Plan` | main.py:155-173 | The `organize_files` calls of the branch table. Their properties are stated by `Pipeline.PlanOwnPattern`, `Pipeline.PlanIsApart` and `Pipeline.CanOrganizeIff`, and `Pipeline.OrganizeBranch` is proved to make them. |
| `Pipeline.PlanOwnPattern` | main.py:168-173 | Every subtype except the moving sticker organises the scratch root once, with its own `CONTENT_PATTERNS` entry and no popup infix. |
| `Pipeline.ContentDirsFromTable` | main.py:31-34 | The popup and animation directories are the scratch root joined with the `CONTENT_DIRS` entries. |
| `Pipeline.StagedHasScratch` | main.py:135-152 | Just before organising, the scratch root holds exactly the archive's top-level files. The working directory and `output/<title>` exist. |
| `Pipeline.StagedFolder` | main.py:135-141 | On a disk with nothing below an absent `temp_extract_dir` (`ScratchRooted`), just before organising, a sub-directory of the scratch root exists exactly when the archive has that folder, and it holds that folder's files. |
| `Pipeline.StagedOutside` | main.py:135-152 | Staging leaves every directory outside the scratch root and the working directory as it was, adding only `output` and `output/<title>`. |
| `Pipeline.StagedWorkDir` | main.py:124-141 | Just before organising, the working directory holds the saved archive in addition to its old files. |
| `Pipeline.ApplyPlanOutput` | main.py:155-173 | Running a plan adds to the output directory exactly what its calls gather. |
| `Pipeline.ApplyPlanElsewhere` | main.py:155-173 | Running a plan leaves every directory it does not name unchanged. |
| `Pipeline.PlanIsApart` | main.py:155-173 | No plan organises the output directory, and no plan organises one directory twice. |
| `Pipeline.CanOrganizeIff` | main.py:155-167 | On a staged disk that was `ScratchRooted` before the run, every directory the plan lists exists exactly when the archive is complete. An archive is incomplete only when it is a moving sticker with neither `popup` nor `animation@2x`. |
| `Pipeline.YieldOn` | main.py:155-173 | On a staged disk the plan gathers exactly `Delivered`, read off the archive. |
| `Pipeline.ProcessPackDelivers` | main.py:151-173 | After a successful run, `output/<title>` holds its old files plus `Delivered`. For a moving sticker with `popup` that is the renamed main and popup images. Without `popup` it is the renamed `animation@2x` frames. Otherwise it is the renamed root files matching the subtype's pattern. |
| `Pipeline.ProcessPackCleansUp` | main.py:178-182 | After a successful run, the scratch tree and the archive are gone. Only `output` and `output/<title>` are new, and every other directory is as it was. |
| `Pipeline.ProcessPackRerun` | main.py:120-184 | After a run that downloads and unpacks the archive on a `ScratchRooted` disk, and when the store serves the same archive again, a second run with the same arguments also runs to its end and leaves the disk exactly as the first run left it, `output/<title>` included. |
| `Pipeline.CleanupEffect` | main.py:179-182 | The clean-up removes the scratch tree and the archive and touches nothing else. |
| `Pipeline.ProcessPackDownloadFails` | main.py:129-131 | A refused download leaves the disk as it was. A broken stream leaves only the partial archive. |
| `Pipeline.ProcessPackUnpackFails` | main.py:137-147 | An unreadable archive is deleted. The scratch directory stays with what was written into it. Every other directory is unchanged. |
| `Cli.Choice` | main.py:205-229 | A resolved answer selects a subtype of the menu's kind, and it is that subtype's answer. An unresolved answer belongs to no subtype of that kind. |
| `Cli.ChoiceAccepts` | main.py:205-229 | The sticker menu resolves exactly "1", "2" and "3". The emoji menu resolves exactly "1" and "2". |
| `Cli.ChoiceRoundTrip` | main.py:205-229 | Each subtype is selected on its own kind's menu by its answer and by no other. |
| `Cli.MenuAnswerInjective` | main.py:205-229 | On one menu, two subtypes never share an answer. |
| `Cli.FirstChoice` | main.py:205-229 | The loop stops at the first valid answer and reports how many lines it read. Without a valid answer, every line was invalid. |
| `Cli.FirstChoiceUnique` | main.py:205-229 | The first valid answer is the only place the loop can stop. |
| `Cli.SelectSubtype` | main.py:205-229 | The `while True` loop returns what `FirstChoice` describes. Without a valid answer it reads to the end of input. |
| `Cli.UrlAndRest` | main.py:196-199 | The argument is used when given, otherwise the first console line. Without either there is no URL. |
| `Cli.Identified` | main.py:202 | `all([pack_id, title, pack_type])`: all three are set and the two strings are non-empty. `Cli.CallForIff` uses it to state when a call is made. |
| `Cli.MainCall` | main.py:196-233 | The `process_pack` call `main` makes, if any. It is characterised by `Cli.MainCallIff` and `Cli.MainCallNeedsUrl`, and `Cli.RunMain` is proved to make it. |
| `Cli.MainCallNeedsUrl` | main.py:196-199 | Without an argument and without console input, `process_pack` is never reached. |
| `Cli.CallForIff` | main.py:201-233 | For any result `get_pack_info` can give, a call is made exactly when the pack is identified and an answer is valid. The call carries the pack's id and clean title and a subtype of the pack's kind. |
| `Cli.MainCallIff` | main.py:201-233 | `process_pack` runs exactly when the pack is identified and a later answer is valid. It gets the pack's id and clean title and a subtype of the pack's own kind. |
| `Cli.MainSpec` | main.py:186-233 | `main` as a function of the disk: the disk after the `process_pack` call `Cli.MainCall` describes, or the old disk when there is none. `Cli.RunMain` is proved to produce it. |
| `Cli.RunMain` | main.py:186-233 | `main` changes the disk exactly as the `process_pack` call it makes, or leaves it alone when it makes none. |

## Left out

- Network: `requests.get`, `raise_for_status` and the chunked write loop (main.py:43-44, 92-101) are I/O. The page request is the `PageFetch` input and the archive request is the `server` parameter. Only `RequestException` is caught there, and other exceptions are not modelled.
- HTML parsing: the BeautifulSoup selectors (main.py:45-50) are a foreign library. Each selector's outcome is an optional text in `PageFetch`.
- Zip internals: `zipfile` decoding is the `unzip` parameter. An archive is modelled as top-level files plus top-level folders, one level deep. Deeper nesting plays no part in what is organised.
- Real file-system semantics: paths are plain strings joined with `/` and never normalised. A title of `.` or `..`, or an empty title, is not treated specially. A directory's own sub-directories are not among its listed files, so `os.listdir` would list more than the model shows. The model therefore assumes that no archive folder is named like an image (digits, then a pattern's suffix, such as `1@2x.png`); the source would move such a folder into `output/<title>`, and `Pipeline.Delivered` does not include it. `Registry.ContentDirsMatchNoPattern` proves the assumption only for the two `CONTENT_DIRS` names. A plain file named `temp_extract_dir`, `popup` or `output` is not modelled.
- Python regular-expression quirks: `\d` in Python 3 also matches non-ASCII decimal digits, and `$` also matches before a final newline. The model accepts ASCII digits only and no trailing newline.
- Console and messages: argparse, `print` and the prompt texts.
- Failure while organising: a `shutil.move` or `os.makedirs` error (permissions, a full disk) is not modelled. `os.listdir` on a missing directory is a precondition (`ProcessPackDefined`) rather than a modelled crash.
- Pipeline.ProcessPackDelivers: states the delivered files only when the disk has nothing below `temp_extract_dir` while that directory is absent (`ScratchRooted`), which real disks satisfy.
