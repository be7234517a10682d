/**
 * `main`: the product URL comes from the command line or, failing that,
 * from the first console line; `get_pack_info` identifies the pack; a menu
 * loop reads answers until one names a subtype of the pack's kind; then
 * `process_pack` runs. The console is the sequence of lines the user
 * types; running out of lines (end of input) ends the program before
 * anything is downloaded.
 */
module Cli {
  import opened Util
  import opened Registry
  import opened PageIdentifier
  import opened Disk
  import opened Pipeline

  /** The kind of pack a subtype belongs to. */
  function KindOf(s: Subtype): PackType {
    match s
    case StickerNormal | StickerMessage | StickerMoving => Sticker
    case EmojiNormal | EmojiMoving => Emoji
  }

  /** The menu answer that selects `s` on its kind's menu. */
  function MenuAnswer(s: Subtype): string {
    match s
    case StickerNormal => "1"
    case StickerMessage => "2"
    case StickerMoving => "3"
    case EmojiNormal => "1"
    case EmojiMoving => "2"
  }

  /** The answers each menu accepts. */
  function MenuAnswers(kind: PackType): set<string> {
    match kind
    case Sticker => {"1", "2", "3"}
    case Emoji => {"1", "2"}
  }

  /** One pass of a menu loop: the subtype an answer selects, or none (the loop asks again). */
  function Choice(kind: PackType, answer: string): (r: Option<Subtype>)
    ensures r.Some? ==> KindOf(r.value) == kind && MenuAnswer(r.value) == answer
    ensures r.None? ==> forall s :: KindOf(s) == kind ==> MenuAnswer(s) != answer
  {
    match kind
    case Sticker =>
      if answer == "1" then Some(StickerNormal)
      else if answer == "2" then Some(StickerMessage)
      else if answer == "3" then Some(StickerMoving)
      else None
    case Emoji =>
      if answer == "1" then Some(EmojiNormal)
      else if answer == "2" then Some(EmojiMoving)
      else None
  }

  /** A menu resolves an answer exactly when it is one of the listed choices. */
  lemma ChoiceAccepts(kind: PackType, answer: string)
    ensures Choice(kind, answer).Some? <==> answer in MenuAnswers(kind)
  {
  }

  /** Every subtype is reached from its own kind's menu, and by one answer only. */
  lemma ChoiceRoundTrip(s: Subtype, answer: string)
    ensures Choice(KindOf(s), answer) == Some(s) <==> answer == MenuAnswer(s)
  {
    if answer == MenuAnswer(s) {
      assert Choice(KindOf(s), answer).Some?;
    }
  }

  /** On one menu, different subtypes have different answers. */
  lemma MenuAnswerInjective(s: Subtype, t: Subtype)
    requires KindOf(s) == KindOf(t) && MenuAnswer(s) == MenuAnswer(t)
    ensures s == t
  {
  }

  /**
   * The menu loop over the answers typed: the subtype of the first valid
   * answer and how many answers were read up to and including it.
   */
  function FirstChoice(kind: PackType, answers: seq<string>): (r: Option<(Subtype, nat)>)
    ensures r.Some? ==>
      && 0 < r.value.1 <= |answers|
      && Choice(kind, answers[r.value.1 - 1]) == Some(r.value.0)
      && forall k :: 0 <= k < r.value.1 - 1 ==> Choice(kind, answers[k]).None?
    ensures r.None? ==> forall k :: 0 <= k < |answers| ==> Choice(kind, answers[k]).None?
    decreases |answers|
  {
    if answers == [] then None
    else
      match Choice(kind, answers[0])
      case Some(s) => Some((s, 1))
      case None =>
        match FirstChoice(kind, answers[1..])
        case None => None
        case Some((s, n)) => Some((s, n + 1))
  }

  /** The first valid answer is the only one the loop can stop at. */
  lemma FirstChoiceUnique(kind: PackType, answers: seq<string>, s: Subtype, n: nat)
    requires 0 < n <= |answers| && Choice(kind, answers[n - 1]) == Some(s)
    requires forall k :: 0 <= k < n - 1 ==> Choice(kind, answers[k]).None?
    ensures FirstChoice(kind, answers) == Some((s, n))
  {
  }

  /**
   * The `while True` menu loop: reads answers one by one and stops at the
   * first valid one; with no valid answer it reads every line there is.
   */
  method SelectSubtype(kind: PackType, answers: seq<string>) returns (choice: Option<Subtype>, used: nat)
    ensures used <= |answers|
    ensures choice.Some? ==> FirstChoice(kind, answers) == Some((choice.value, used))
    ensures choice.None? ==> FirstChoice(kind, answers).None? && used == |answers|
  {
    choice := None;
    used := 0;
    while used < |answers|
      invariant used <= |answers| && choice.None?
      invariant forall k :: 0 <= k < used ==> Choice(kind, answers[k]).None?
    {
      var answer := answers[used];
      used := used + 1;
      choice := Choice(kind, answer);
      if choice.Some? {
        FirstChoiceUnique(kind, answers, choice.value, used);
        return;
      }
    }
  }

  /** The URL `main` works on and the console lines left after it. */
  function UrlAndRest(urlArg: Option<string>, console: seq<string>): (r: Option<(string, seq<string>)>)
    ensures urlArg.Some? ==> r == Some((urlArg.value, console))
    ensures urlArg.None? ==> (r.Some? <==> console != [])
    ensures urlArg.None? && r.Some? ==> [r.value.0] + r.value.1 == console
  {
    if urlArg.Some? then Some((urlArg.value, console))
    else if console == [] then None
    else Some((console[0], console[1..]))
  }

  /** `all([pack_id, title, pack_type])`. */
  predicate Identified(info: PackInfo) {
    && info.id.Some? && info.id.value != []
    && info.title.Some? && info.title.value != []
    && info.kind.Some?
  }

  /** The arguments `main` passes to `process_pack`. */
  datatype PackCall = PackCall(id: string, title: string, subtype: Subtype)

  /** The `process_pack` call for an identified pack and the console lines after the URL. */
  function CallFor(info: PackInfo, rest: seq<string>): (r: Option<PackCall>)
  {
    if !Identified(info) then None
    else
      match FirstChoice(info.kind.value, rest)
      case None => None
      case Some((s, _)) => Some(PackCall(info.id.value, info.title.value, s))
  }

  /**
   * The `process_pack` call `main` makes, if any, when the store answers a
   * page request for a URL with `pages(url)`.
   */
  function MainCall(urlArg: Option<string>, console: seq<string>, pages: string -> PageFetch): (r: Option<PackCall>)
  {
    match UrlAndRest(urlArg, console)
    case None => None
    case Some((url, rest)) => CallFor(GetPackInfo(url, pages(url)), rest)
  }

  /**
   * For what `get_pack_info` can return, a call is made exactly when the pack
   * is identified and some answer is valid on its kind's menu, and it
   * carries the pack's id and title and a subtype of the pack's kind.
   */
  lemma CallForIff(info: PackInfo, rest: seq<string>)
    requires AllOrNothing(info)
    requires info.title.Some? ==> info.title.value != [] && IsClean(info.title.value)
    requires info.id.Some? ==> info.id.value != []
    ensures CallFor(info, rest).Some? <==> info.id.Some? && FirstChoice(info.kind.value, rest).Some?
    ensures CallFor(info, rest).Some? ==>
      && info.id == Some(CallFor(info, rest).value.id)
      && info.title == Some(CallFor(info, rest).value.title)
      && info.kind == Some(KindOf(CallFor(info, rest).value.subtype))
      && IsClean(CallFor(info, rest).value.title)
  {
    if info.id.Some? {
      assert Identified(info);
      var f := FirstChoice(info.kind.value, rest);
      if f.Some? {
        assert Choice(info.kind.value, rest[f.value.1 - 1]) == Some(f.value.0);
      }
    }
  }

  /** Without a URL (no argument, no console line) nothing is identified or downloaded. */
  lemma MainCallNeedsUrl(urlArg: Option<string>, console: seq<string>, pages: string -> PageFetch)
    requires urlArg.None? && console == []
    ensures MainCall(urlArg, console, pages).None?
  {
  }

  /**
   * Once the URL is known, `process_pack` runs exactly when the pack is
   * identified and some later answer is valid on its kind's menu; it then
   * gets the pack's id and cleaned title and a subtype of the pack's own
   * kind.
   */
  lemma MainCallIff(urlArg: Option<string>, console: seq<string>, pages: string -> PageFetch,
                    url: string, rest: seq<string>)
    requires UrlAndRest(urlArg, console) == Some((url, rest))
    ensures var info := GetPackInfo(url, pages(url));
      MainCall(urlArg, console, pages).Some? <==>
        info.id.Some? && FirstChoice(info.kind.value, rest).Some?
    ensures var info := GetPackInfo(url, pages(url));
      MainCall(urlArg, console, pages).Some? ==>
        var call := MainCall(urlArg, console, pages).value;
        && info.id == Some(call.id)
        && info.title == Some(call.title)
        && info.kind == Some(KindOf(call.subtype))
        && IsClean(call.title)
  {
    CallForIff(GetPackInfo(url, pages(url)), rest);
  }

  /** The disk after `main`. */
  function MainSpec(d: Dirs, urlArg: Option<string>, console: seq<string>, pages: string -> PageFetch,
                    server: string -> DownloadOutcome, unzip: Bytes -> ExtractOutcome): (r: Dirs)
    requires MainCall(urlArg, console, pages).Some? ==>
      var c := MainCall(urlArg, console, pages).value;
      ProcessPackDefined(d, c.id, c.title, c.subtype, server, unzip)
  {
    match MainCall(urlArg, console, pages)
    case None => d
    case Some(c) => ProcessPackSpec(d, c.id, c.title, c.subtype, server, unzip)
  }

  /** `main()`, with `urlArg` the optional command-line argument. */
  method RunMain(fs: FileSystem, urlArg: Option<string>, console: seq<string>, pages: string -> PageFetch,
                 server: string -> DownloadOutcome, unzip: Bytes -> ExtractOutcome)
    requires MainCall(urlArg, console, pages).Some? ==>
      var c := MainCall(urlArg, console, pages).value;
      ProcessPackDefined(fs.dirs, c.id, c.title, c.subtype, server, unzip)
    modifies fs
    ensures fs.dirs == MainSpec(old(fs.dirs), urlArg, console, pages, server, unzip)
  {
    var url: string;
    var rest: seq<string>;
    if urlArg.Some? {
      url, rest := urlArg.value, console;
    } else if console == [] {
      return;
    } else {
      url, rest := console[0], console[1..];
    }

    var info := GetPackInfo(url, pages(url));
    if !Identified(info) {
      return;
    }

    var subtype, _ := SelectSubtype(info.kind.value, rest);
    if subtype.Some? {
      ProcessPack(fs, info.id.value, info.title.value, subtype.value, server, unzip);
    }
  }
}
