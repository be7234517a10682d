/**
 * The static registry: per pack subtype a download URL template, per
 * content key a file-name pattern, and for two keys a sub-directory of the
 * unpacked archive.
 */
module Registry {
  import opened Util

  /** The five pack variants a user can choose. */
  datatype Subtype = StickerNormal | StickerMessage | StickerMoving | EmojiNormal | EmojiMoving

  /** The keys of the file-name pattern table. */
  datatype PatternKey =
    | NormalStickerFiles
    | MessageStickerFiles
    | AnimationFrames
    | EffectMain
    | EffectPopup
    | NormalEmojiFiles
    | MovingEmojiFiles

  /**
   * Every pattern of the table has the shape `^\d+<suffix>$`: one or more
   * digits followed by a fixed literal suffix and nothing else.
   */
  datatype FilePattern = DigitsThen(suffix: string)

  // ---------------------------------------------------------------------
  // Download URL templates
  // ---------------------------------------------------------------------

  /** The two content-delivery hosts the templates point at. */
  const LegacyHost: string := "http://dl.stickershop.line.naver.jp"
  const CdnHost: string := "https://stickershop.line-scdn.net"

  /** The part of each template in front of its identifier slot. */
  function TemplateHead(s: Subtype): string {
    match s
    case StickerNormal => LegacyHost + "/products/0/0/1/"
    case StickerMessage => CdnHost + "/stickershop/v1/product/"
    case StickerMoving => LegacyHost + "/products/0/0/1/"
    case EmojiNormal => LegacyHost + "/sticonshop/v1/"
    case EmojiMoving => CdnHost + "/sticonshop/v1/"
  }

  /** The part of each template behind its identifier slot. */
  function TemplateTail(s: Subtype): string {
    match s
    case StickerNormal => "/iphone/" + "stickers@2x.zip"
    case StickerMessage => "/iphone/" + "sticker_name_base@2x.zip"
    case StickerMoving => "/iphone/" + "stickerpack@2x.zip"
    case EmojiNormal => "/sticon/iphone/" + "package.zip?v=1"
    case EmojiMoving => "/sticon/iphone/" + "package_animation.zip"
  }

  /**
   * The URL template of each subtype. For StickerNormal this is
   * `http://dl.stickershop.line.naver.jp/products/0/0/1/{id}/iphone/stickers@2x.zip`;
   * the others are assembled the same way from the pieces above.
   */
  function DownloadTemplate(s: Subtype): string {
    TemplateHead(s) + Slot + TemplateTail(s)
  }

  const Slot: string := "{id}"

  predicate BraceFree(s: string) {
    '{' !in s && '}' !in s
  }

  /**
   * `template.format(id=id)` for a template whose only replacement fields
   * are `{id}`: every `{id}` is replaced by `id`, every other character is
   * kept.
   */
  function FillId(t: string, id: string): string
    decreases |t|
  {
    if t == [] then []
    else if OccursAt(t, 0, Slot) then id + FillId(t[|Slot|..], id)
    else [t[0]] + FillId(t[1..], id)
  }

  /** The URL `process_pack` downloads from. */
  function DownloadUrl(s: Subtype, id: string): string {
    FillId(DownloadTemplate(s), id)
  }

  /** A string that does not start with a brace does not start with the slot. */
  lemma NoSlotWithoutBrace(t: string)
    requires t != [] && t[0] != '{'
    ensures !OccursAt(t, 0, Slot)
  {
    if |t| >= |Slot| {
      assert t[..|Slot|][0] == t[0];
      assert Slot[0] == '{';
    }
  }

  lemma {:induction false} FillBraceFree(t: string, id: string)
    requires BraceFree(t)
    ensures FillId(t, id) == t
    decreases |t|
  {
    if t != [] {
      assert t[0] in t;
      NoSlotWithoutBrace(t);
      assert forall c :: c in t[1..] ==> c in t;
      FillBraceFree(t[1..], id);
      assert [t[0]] + t[1..] == t;
    }
  }

  lemma {:induction false} FillAfterBraceFree(h: string, rest: string, id: string)
    requires BraceFree(h)
    ensures FillId(h + rest, id) == h + FillId(rest, id)
    decreases |h|
  {
    if h == [] {
      assert h + rest == rest;
    } else {
      var t := h + rest;
      assert h[0] in h;
      assert t[0] == h[0];
      NoSlotWithoutBrace(t);
      assert t[1..] == h[1..] + rest;
      assert forall c :: c in h[1..] ==> c in h;
      FillAfterBraceFree(h[1..], rest, id);
      assert FillId(t, id) == [h[0]] + (h[1..] + FillId(rest, id));
      assert h == [h[0]] + h[1..];
    }
  }

  lemma BraceFreeConcat(a: string, b: string)
    requires BraceFree(a) && BraceFree(b)
    ensures BraceFree(a + b)
  {
  }

  lemma LegacyHostBraceFree()
    ensures BraceFree(LegacyHost)
  {
  }

  lemma CdnHostBraceFree()
    ensures BraceFree(CdnHost)
  {
  }

  lemma HeadBraceFree(s: Subtype)
    ensures BraceFree(TemplateHead(s))
  {
    LegacyHostBraceFree();
    CdnHostBraceFree();
    match s
    case StickerNormal => BraceFreeConcat(LegacyHost, "/products/0/0/1/");
    case StickerMessage => BraceFreeConcat(CdnHost, "/stickershop/v1/product/");
    case StickerMoving => BraceFreeConcat(LegacyHost, "/products/0/0/1/");
    case EmojiNormal => BraceFreeConcat(LegacyHost, "/sticonshop/v1/");
    case EmojiMoving => BraceFreeConcat(CdnHost, "/sticonshop/v1/");
  }

  lemma StickerArchivesBraceFree()
    ensures BraceFree("/iphone/") && BraceFree("stickers@2x.zip") && BraceFree("stickerpack@2x.zip")
  {
  }

  lemma MessageArchiveBraceFree()
    ensures BraceFree("sticker_name_base@2x.zip")
  {
  }

  lemma EmojiArchivesBraceFree()
    ensures BraceFree("/sticon/iphone/") && BraceFree("package.zip?v=1")
  {
  }

  lemma AnimatedEmojiArchiveBraceFree()
    ensures BraceFree("package_animation.zip")
  {
  }

  lemma TailBraceFree(s: Subtype)
    ensures BraceFree(TemplateTail(s))
  {
    StickerArchivesBraceFree();
    MessageArchiveBraceFree();
    EmojiArchivesBraceFree();
    AnimatedEmojiArchiveBraceFree();
    match s
    case StickerNormal => BraceFreeConcat("/iphone/", "stickers@2x.zip");
    case StickerMessage => BraceFreeConcat("/iphone/", "sticker_name_base@2x.zip");
    case StickerMoving => BraceFreeConcat("/iphone/", "stickerpack@2x.zip");
    case EmojiNormal => BraceFreeConcat("/sticon/iphone/", "package.zip?v=1");
    case EmojiMoving => BraceFreeConcat("/sticon/iphone/", "package_animation.zip");
  }

  /** Filling head + slot + tail, with brace-free head and tail, puts the id in the slot. */
  lemma FillOneSlot(h: string, tl: string, id: string)
    requires BraceFree(h) && BraceFree(tl)
    ensures FillId(h + Slot + tl, id) == h + id + tl
  {
    assert h + Slot + tl == h + (Slot + tl);
    FillAfterBraceFree(h, Slot + tl, id);
    assert (Slot + tl)[|Slot|..] == tl;
    assert OccursAt(Slot + tl, 0, Slot);
    FillBraceFree(tl, id);
    assert h + (id + tl) == h + id + tl;
  }

  /**
   * Neither the head nor the tail of a template holds a brace, so `{id}` is
   * the template's one and only replacement field, and the URL is the head,
   * the id and the tail.
   */
  lemma TemplateHasOneSlot(s: Subtype, id: string)
    ensures BraceFree(TemplateHead(s)) && BraceFree(TemplateTail(s))
    ensures DownloadUrl(s, id) == TemplateHead(s) + id + TemplateTail(s)
  {
    HeadBraceFree(s);
    TailBraceFree(s);
    FillOneSlot(TemplateHead(s), TemplateTail(s), id);
  }

  /** Distinct pack ids give distinct download URLs for the same subtype. */
  lemma DownloadUrlInjective(s: Subtype, a: string, b: string)
    requires DownloadUrl(s, a) == DownloadUrl(s, b)
    ensures a == b
  {
    TemplateHasOneSlot(s, a);
    TemplateHasOneSlot(s, b);
    var h, tl := TemplateHead(s), TemplateTail(s);
    assert |a| == |b|;
    assert a == (h + a + tl)[|h|..|h| + |a|];
    assert b == (h + b + tl)[|h|..|h| + |b|];
  }

  // ---------------------------------------------------------------------
  // File-name patterns and content directories
  // ---------------------------------------------------------------------

  /**
   * `CONTENT_PATTERNS`: every entry is "digits, then a literal suffix", and
   * the suffix starts with a non-digit, so where the digit run stops is
   * never in doubt.
   */
  function ContentPattern(k: PatternKey): (r: FilePattern)
    ensures |r.suffix| > 0 && !IsDigit(r.suffix[0])
  {
    match k
    case NormalStickerFiles => DigitsThen("@2x.png")
    case MessageStickerFiles => DigitsThen("@2x.png")
    case AnimationFrames => DigitsThen("@2x.png")
    case EffectMain => DigitsThen("@2x.png")
    case EffectPopup => DigitsThen(".png")
    case NormalEmojiFiles => DigitsThen(".png")
    case MovingEmojiFiles => DigitsThen("_animation.png")
  }

  /** The sub-directory a key's files live in; None for keys without one. */
  function ContentDir(k: PatternKey): Option<string> {
    match k
    case AnimationFrames => Some("animation@2x")
    case EffectPopup => Some("popup")
    case _ => None
  }

  /**
   * `re.match(p, name)` for `p == ^\d+<suffix>$`: the name is a non-empty
   * run of digits followed by the suffix and nothing more.
   */
  predicate Matches(p: FilePattern, name: string) {
    |name| > |p.suffix|
    && AllDigits(name[..|name| - |p.suffix|])
    && name[|name| - |p.suffix|..] == p.suffix
  }

  /** Matching is exactly "digits, then the suffix". */
  lemma MatchesIff(p: FilePattern, name: string)
    ensures Matches(p, name) <==> exists d :: d != [] && AllDigits(d) && name == d + p.suffix
  {
    if Matches(p, name) {
      var d := name[..|name| - |p.suffix|];
      assert name == d + p.suffix;
    }
    if d :| d != [] && AllDigits(d) && name == d + p.suffix {
      assert name[..|name| - |p.suffix|] == d;
      assert name[|name| - |p.suffix|..] == p.suffix;
    }
  }

  /** A name that matches any pattern of the table starts with a digit. */
  lemma MatchStartsWithDigit(k: PatternKey, name: string)
    requires Matches(ContentPattern(k), name)
    ensures |name| > 0 && IsDigit(name[0])
  {
    var n := |name| - |ContentPattern(k).suffix|;
    assert name[..n][0] == name[0];
  }

  /** The still-emoji and animated-emoji patterns accept no common name. */
  lemma EmojiPatternsDisjoint(name: string)
    ensures Matches(ContentPattern(MovingEmojiFiles), name) ==> !Matches(ContentPattern(NormalEmojiFiles), name)
  {
    if Matches(ContentPattern(MovingEmojiFiles), name) {
      var n := |name|;
      assert name[n - 14..][0] == '_';
      assert name[..n - 4][n - 14] == name[n - 14];
    }
  }

  /** The effect-main and popup patterns accept no common name. */
  lemma EffectPatternsDisjoint(name: string)
    ensures Matches(ContentPattern(EffectMain), name) ==> !Matches(ContentPattern(EffectPopup), name)
  {
    if Matches(ContentPattern(EffectMain), name) {
      var n := |name|;
      assert name[n - 7..][0] == '@';
      assert name[..n - 4][n - 7] == name[n - 7];
    }
  }

  /** The four sticker-side `@2x` patterns are one and the same. */
  lemma StickerPatternsIdentical()
    ensures ContentPattern(NormalStickerFiles) == ContentPattern(MessageStickerFiles)
    ensures ContentPattern(MessageStickerFiles) == ContentPattern(AnimationFrames)
    ensures ContentPattern(AnimationFrames) == ContentPattern(EffectMain)
  {
  }

  /** The two content sub-directory names match no pattern of the table. */
  lemma ContentDirsMatchNoPattern(k: PatternKey, j: PatternKey)
    requires ContentDir(j).Some?
    ensures !Matches(ContentPattern(k), ContentDir(j).value)
  {
    var d := ContentDir(j).value;
    assert !IsDigit(d[0]);
    if Matches(ContentPattern(k), d) {
      MatchStartsWithDigit(k, d);
    }
  }
}
