/**
 * `organize_files`: every file of one directory whose name matches a
 * pattern is moved into the output directory, renamed `<title>_<name>`,
 * or `<title>_popup_<name>` for popup images. The result is stated as a
 * function of the disk before the call, independent of the listing order.
 */
module Organizer {
  import opened Util
  import opened Registry
  import opened Disk

  function OutPrefix(title: string, isPopup: bool): string {
    if isPopup then title + "_popup_" else title + "_"
  }

  /** The name a moved file gets in the output directory. */
  function OutName(title: string, isPopup: bool, name: string): string {
    OutPrefix(title, isPopup) + name
  }

  /** Distinct source names give distinct output names. */
  lemma OutNamesInjective(title: string, isPopup: bool)
    ensures forall a, b :: OutName(title, isPopup, a) == OutName(title, isPopup, b) ==> a == b
  {
    var p := OutPrefix(title, isPopup);
    forall a, b | OutName(title, isPopup, a) == OutName(title, isPopup, b) ensures a == b {
      assert a == (p + a)[|p|..];
      assert b == (p + b)[|p|..];
    }
  }

  /**
   * A main image and a popup image never land on the same output name, as
   * a main name that matches a pattern starts with a digit where the popup
   * name has `p`.
   */
  lemma MainAndPopupNamesDiffer(title: string, main: string, popup: string)
    requires main != [] && IsDigit(main[0])
    ensures OutName(title, false, main) != OutName(title, true, popup)
  {
    var i := |title| + 1;
    assert OutName(title, false, main)[i] == main[0];
    assert OutName(title, true, popup)[i] == 'p';
  }

  /**
   * A renamed file no longer matches the pattern it was moved for (its
   * prefix puts `_` among the leading digits), so organising the output
   * directory again would not pick it up.
   */
  lemma OutNameNeverMatches(p: FilePattern, title: string, isPopup: bool, name: string)
    requires Matches(p, name)
    ensures !Matches(p, OutName(title, isPopup, name))
  {
    var pre := OutPrefix(title, isPopup);
    var o := pre + name;
    var cut := |o| - |p.suffix|;
    assert o[|pre| - 1] == '_';
    assert |pre| - 1 < cut;
    assert o[..cut][|pre| - 1] == '_';
  }

  /** The names among `names` that are files of `l` matching `p`. */
  function MatchingNames(l: Listing, p: FilePattern, names: set<string>): set<string> {
    set n | n in names && n in l && Matches(p, n)
  }

  /** The output-directory entries the files `moved` of `l` become. */
  function Renamed(l: Listing, title: string, isPopup: bool, moved: set<string>): (r: Listing)
    requires moved <= l.Keys
    ensures forall n :: n in moved ==> OutName(title, isPopup, n) in r && r[OutName(title, isPopup, n)] == l[n]
    ensures forall k :: k in r ==> exists n :: n in moved && k == OutName(title, isPopup, n)
  {
    OutNamesInjective(title, isPopup);
    map n | n in moved :: OutName(title, isPopup, n) := l[n]
  }

  /**
   * The disk after the files among `names` have been dealt with: those
   * that match have left `src` and joined `out` under their new names.
   */
  function OrganizeOver(d: Dirs, src: string, out: string, title: string, p: FilePattern, isPopup: bool, names: set<string>): (r: Dirs)
    requires src in d && out in d
    ensures r.Keys == d.Keys
  {
    var l := d[src];
    var moved := MatchingNames(l, p, names);
    var d1 := d[src := l - moved];
    d1[out := d1[out] + Renamed(l, title, isPopup, moved)]
  }

  /** The disk after `organize_files(src, out, title, p, isPopup)`. */
  function Organized(d: Dirs, src: string, out: string, title: string, p: FilePattern, isPopup: bool): (r: Dirs)
    requires src in d && out in d
    ensures r.Keys == d.Keys
  {
    OrganizeOver(d, src, out, title, p, isPopup, d[src].Keys)
  }

  /** What `organize_files` adds to the output directory from a source listing. */
  function Gathered(l: Listing, title: string, isPopup: bool, p: FilePattern): Listing {
    Renamed(l, title, isPopup, MatchingNames(l, p, l.Keys))
  }

  /** Dealing with names of which none matches changes nothing. */
  lemma OrganizeOverNoMatch(d: Dirs, src: string, out: string, title: string, p: FilePattern, isPopup: bool,
                            names: set<string>)
    requires src in d && out in d && MatchingNames(d[src], p, names) == {}
    ensures OrganizeOver(d, src, out, title, p, isPopup, names) == d
  {
    RenamedNothing(d[src], title, isPopup);
    MoveNothing(d, src, out);
  }

  lemma RenamedNothing(l: Listing, title: string, isPopup: bool)
    ensures Renamed(l, title, isPopup, {}) == map[]
  {
  }

  lemma MoveNothing(d: Dirs, src: string, out: string)
    requires src in d && out in d
    ensures var d1 := d[src := d[src] - {}]; d1[out := d1[out] + map[]] == d
  {
    assert d[src] - {} == d[src];
    var d1 := d[src := d[src]];
    assert d1 == d;
    assert d[out] + map[] == d[out];
  }

  /** Renaming one more file adds exactly its entry. */
  lemma RenamedAddOne(l: Listing, title: string, isPopup: bool, moved: set<string>, n: string)
    requires moved <= l.Keys && n in l && n !in moved
    ensures Renamed(l, title, isPopup, moved + {n}) == Renamed(l, title, isPopup, moved)[OutName(title, isPopup, n) := l[n]]
  {
    OutNamesInjective(title, isPopup);
  }

  /** A matching name is never one of the renamed names. */
  lemma MatchIsNotRenamed(l: Listing, title: string, isPopup: bool, p: FilePattern, moved: set<string>, n: string)
    requires moved <= l.Keys && Matches(p, n)
    requires forall m :: m in moved ==> Matches(p, m)
    ensures n !in Renamed(l, title, isPopup, moved)
  {
    if n in Renamed(l, title, isPopup, moved) {
      var m :| m in moved && n == OutName(title, isPopup, m);
      OutNameNeverMatches(p, title, isPopup, m);
    }
  }

  /** One more matching name dealt with is one more move. */
  lemma OrganizeStepMove(d: Dirs, src: string, out: string, title: string, p: FilePattern, isPopup: bool,
                         done: set<string>, n: string)
    requires src in d && out in d && n in d[src] && n !in done && Matches(p, n)
    ensures var cur := OrganizeOver(d, src, out, title, p, isPopup, done);
            && n in cur[src] && cur[src][n] == d[src][n]
            && OrganizeOver(d, src, out, title, p, isPopup, done + {n})
               == MoveEntry(cur, src, n, out, OutName(title, isPopup, n))
  {
    var l := d[src];
    var moved := MatchingNames(l, p, done);
    assert MatchingNames(l, p, done + {n}) == moved + {n};
    var on := OutName(title, isPopup, n);
    var rn := Renamed(l, title, isPopup, moved);
    RenamedAddOne(l, title, isPopup, moved, n);
    MatchIsNotRenamed(l, title, isPopup, p, moved, n);
    if src == out {
      MoveWithinOneDir(d, src, l, moved, rn, n, on);
    } else {
      MoveBetweenDirs(d, src, out, l, moved, rn, n, on);
    }
  }

  /** The map algebra of one move from `src` to a different `out`. */
  lemma MoveBetweenDirs(d: Dirs, src: string, out: string, l: Listing, moved: set<string>, rn: Listing, n: string, on: string)
    requires src in d && out in d && src != out && n in l && n !in moved
    ensures var cur := d[src := l - moved][out := d[out] + rn];
            && n in cur[src] && cur[src][n] == l[n]
            && MoveEntry(cur, src, n, out, on) == d[src := l - (moved + {n})][out := d[out] + rn[on := l[n]]]
  {
    assert (l - moved) - {n} == l - (moved + {n});
    assert (d[out] + rn)[on := l[n]] == d[out] + rn[on := l[n]];
  }

  /** The map algebra of one move inside a single directory. */
  lemma MoveWithinOneDir(d: Dirs, src: string, l: Listing, moved: set<string>, rn: Listing, n: string, on: string)
    requires src in d && n in l && n !in moved && n !in rn
    ensures var cur := d[src := l - moved][src := (l - moved) + rn];
            && n in cur[src] && cur[src][n] == l[n]
            && MoveEntry(cur, src, n, src, on) == d[src := l - (moved + {n})][src := (l - (moved + {n})) + rn[on := l[n]]]
  {
    var c := (l - moved) + rn;
    var e := (l - (moved + {n})) + rn[on := l[n]];
    assert (c - {n})[on := l[n]] == e;
  }

  /** One more non-matching name dealt with changes nothing. */
  lemma OrganizeStepSkip(d: Dirs, src: string, out: string, title: string, p: FilePattern, isPopup: bool,
                         done: set<string>, n: string)
    requires src in d && out in d && !Matches(p, n)
    ensures OrganizeOver(d, src, out, title, p, isPopup, done + {n}) == OrganizeOver(d, src, out, title, p, isPopup, done)
  {
    assert MatchingNames(d[src], p, done + {n}) == MatchingNames(d[src], p, done);
  }

  /**
   * `organize_files`: the listing is walked in whatever order `os.listdir`
   * gives it, and each matching file is moved and renamed.
   */
  method OrganizeFiles(fs: FileSystem, sourceDir: string, outputDir: string, title: string,
                       pattern: FilePattern, isPopup: bool)
    requires sourceDir in fs.dirs && outputDir in fs.dirs
    modifies fs
    ensures fs.dirs == Organized(old(fs.dirs), sourceDir, outputDir, title, pattern, isPopup)
  {
    ghost var d0 := fs.dirs;
    var names := fs.ListDir(sourceDir);
    ghost var done: set<string> := {};
    OrganizeOverNoMatch(d0, sourceDir, outputDir, title, pattern, isPopup, done);
    for i := 0 to |names|
      invariant done == set k | 0 <= k < i :: names[k]
      invariant fs.dirs == OrganizeOver(d0, sourceDir, outputDir, title, pattern, isPopup, done)
    {
      var filename := names[i];
      assert filename !in done;
      if Matches(pattern, filename) {
        OrganizeStepMove(d0, sourceDir, outputDir, title, pattern, isPopup, done, filename);
        var newFilename := OutName(title, isPopup, filename);
        fs.Move(sourceDir, filename, outputDir, newFilename);
      } else {
        OrganizeStepSkip(d0, sourceDir, outputDir, title, pattern, isPopup, done, filename);
      }
      done := done + {filename};
      assert done == set k | 0 <= k < i + 1 :: names[k];
    }
    assert done == d0[sourceDir].Keys;
  }

  // ---------------------------------------------------------------------
  // What the call does, directory by directory
  // ---------------------------------------------------------------------

  /**
   * With distinct source and output directories: the source keeps exactly
   * its non-matching files, unchanged; the output directory gains every
   * match under its new name (replacing a file of that name) and keeps
   * everything else; every other directory is untouched.
   */
  lemma OrganizedEffect(d: Dirs, src: string, out: string, title: string, p: FilePattern, isPopup: bool)
    requires src in d && out in d && src != out
    ensures var r := Organized(d, src, out, title, p, isPopup);
      && (forall n :: n in r[src] <==> n in d[src] && !Matches(p, n))
      && (forall n :: n in r[src] ==> r[src][n] == d[src][n])
      && r[out] == d[out] + Gathered(d[src], title, isPopup, p)
      && (forall q :: q in d && q != src && q != out ==> r[q] == d[q])
  {
  }

  /** The output directory gains exactly the gathered files. */
  lemma OrganizedAtOutput(d: Dirs, src: string, out: string, title: string, p: FilePattern, isPopup: bool)
    requires src in d && out in d && src != out
    ensures Organized(d, src, out, title, p, isPopup)[out] == d[out] + Gathered(d[src], title, isPopup, p)
  {
    OrganizedEffect(d, src, out, title, p, isPopup);
  }

  /** A directory that is neither the source nor the output is untouched. */
  lemma OrganizedElsewhere(d: Dirs, src: string, out: string, title: string, p: FilePattern, isPopup: bool, q: string)
    requires src in d && out in d && q in d && q != src && q != out
    ensures Organized(d, src, out, title, p, isPopup)[q] == d[q]
  {
  }

  /** Every matching file of the source reaches the output under its new name, contents intact. */
  lemma OrganizedMovesMatches(d: Dirs, src: string, out: string, title: string, p: FilePattern, isPopup: bool, n: string)
    requires src in d && out in d && src != out
    requires n in d[src] && Matches(p, n)
    ensures var r := Organized(d, src, out, title, p, isPopup);
      n !in r[src] && OutName(title, isPopup, n) in r[out] && r[out][OutName(title, isPopup, n)] == d[src][n]
  {
    OrganizedEffect(d, src, out, title, p, isPopup);
  }

  /** An output entry that no match was renamed to keeps its contents. */
  lemma OrganizedKeepsOtherOutputs(d: Dirs, src: string, out: string, title: string, p: FilePattern, isPopup: bool, k: string)
    requires src in d && out in d && src != out
    requires k in d[out]
    requires forall n :: n in d[src] && Matches(p, n) ==> k != OutName(title, isPopup, n)
    ensures var r := Organized(d, src, out, title, p, isPopup);
      k in r[out] && r[out][k] == d[out][k]
  {
    OrganizedEffect(d, src, out, title, p, isPopup);
  }

  /** Organising a second time with the same arguments changes nothing more. */
  lemma OrganizeTwiceIsOnce(d: Dirs, src: string, out: string, title: string, p: FilePattern, isPopup: bool)
    requires src in d && out in d && src != out
    ensures var r := Organized(d, src, out, title, p, isPopup);
      Organized(r, src, out, title, p, isPopup) == r
  {
    var r := Organized(d, src, out, title, p, isPopup);
    OrganizedEffect(d, src, out, title, p, isPopup);
    assert MatchingNames(r[src], p, r[src].Keys) == {};
    OrganizeOverNoMatch(r, src, out, title, p, isPopup, r[src].Keys);
  }
}
