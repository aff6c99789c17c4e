/** The platform rule table: the `Platform` enum and the immutable
    `PLATFORM_CONFIG` record per platform, with the well-formedness facts the
    rest of the program relies on. */
module Constants {
  import opened Wrappers

  /** The supported platforms; `Id` is the enum's string value. */
  datatype Platform = TikTok | Shorts | YouTube | Reels | Shopee {
    function Id(): string {
      match this
      case TikTok => "tiktok"
      case Shorts => "shorts"
      case YouTube => "youtube"
      case Reels => "reels"
      case Shopee => "shopee"
    }
  }

  datatype SeoConfig = SeoConfig(
    titleMaxChars: int,
    hashtagMin: int,
    hashtagMax: int,
    requiredHashtags: seq<string>)

  /** One platform's constraints. `extraFields` is absent on every platform
      that does not declare it. */
  datatype PlatformConfig = PlatformConfig(
    displayLabel: string,
    aspectRatio: string,
    minSec: int,
    maxSec: int,
    cutPaceSec: real,
    voiceoverStyle: seq<string>,
    musicGuideline: string,
    captionsRequired: bool,
    captionStyles: seq<string>,
    hookGuideline: string,
    ctaGuideline: string,
    seo: SeoConfig,
    extraFields: Option<seq<string>>)

  /** The voice tones offered by the form. */
  const VOICE_TONES: seq<string> := [
    "Thân thiện & Gần gũi",
    "Chuyên nghiệp & Tin cậy",
    "Năng động & Hào hứng",
    "Kể chuyện & Lôi cuốn",
    "Hài hước & Dí dỏm",
    "Nghiêm túc & Sâu sắc"
  ]

  function TikTokConfig(): PlatformConfig {
    PlatformConfig(
      "TikTok", "9:16", 5, 60, 1.5,
      ["Nhanh, năng lượng cao"],
      "Nhạc trend BPM 100-140, drop <3s",
      true, ["Sub lớn, tương phản cao"],
      "Hook <2s: lợi ích cực rõ",
      "Nhắc follow/like/lưu",
      SeoConfig(80, 3, 5, []),
      None)
  }

  function ShortsConfig(): PlatformConfig {
    PlatformConfig(
      "YouTube Shorts", "9:16", 6, 60, 1.8,
      ["Rõ, nhịp nhanh"],
      "Nhạc thư viện Shorts, intro <1s",
      true, ["Auto-caption kiểu YT"],
      "Hook <1s: câu hỏi/so sánh",
      "Subscribe/Comment ở 90-100%",
      SeoConfig(70, 3, 6, ["#shorts"]),
      None)
  }

  function YouTubeConfig(): PlatformConfig {
    PlatformConfig(
      "YouTube (thường)", "16:9", 120, 3600, 3.5,
      ["Storytelling, chuyên gia"],
      "Nhạc nền nhẹ, đổi motif theo chương",
      true, ["Sub nhỏ gọn"],
      "Opening 5-10s: vấn đề + promise + preview",
      "CTA mềm rải rác + cuối video",
      SeoConfig(70, 3, 10, []),
      None)
  }

  function ReelsConfig(): PlatformConfig {
    PlatformConfig(
      "Facebook Reels", "9:16", 5, 90, 1.7,
      ["Tươi vui"],
      "Nhạc thư viện Meta",
      true, ["Sub lớn, đậm"],
      "Hook thị giác mạnh <1.5s",
      "Nhắc follow/DM ở 80%",
      SeoConfig(80, 2, 5, []),
      None)
  }

  function ShopeeConfig(): PlatformConfig {
    PlatformConfig(
      "Shopee", "9:16", 5, 60, 1.4,
      ["Bán hàng thuyết phục"],
      "Nhạc rộn, giữ rõ thoại",
      true, ["Price tag", "Sticker mã giảm"],
      "Mở đầu nêu DEAL/PAINPOINT",
      "Mua ngay/Thêm vào giỏ/Dùng mã",
      SeoConfig(80, 2, 6, ["#Shopee", "#Deal"]),
      Some(["productId", "price", "voucher"]))
  }

  /** `PLATFORM_CONFIG`: one row per platform. */
  const PLATFORM_CONFIG: map<Platform, PlatformConfig> := map[
    TikTok := TikTokConfig(), Shorts := ShortsConfig(), YouTube := YouTubeConfig(),
    Reels := ReelsConfig(), Shopee := ShopeeConfig()]

  /** What the program relies on about every row: duration bounds are a
      non-empty positive interval, hashtag bounds are ordered, and the style
      lists indexed with `[0]` have a non-empty first entry. */
  ghost predicate WellFormed(c: PlatformConfig) {
    0 < c.minSec <= c.maxSec
    && 0 < c.seo.hashtagMin <= c.seo.hashtagMax
    && |c.captionStyles| > 0 && c.captionStyles[0] != ""
    && |c.voiceoverStyle| > 0 && c.voiceoverStyle[0] != ""
  }

  /** `PLATFORM_CONFIG[platform]`: every platform has a well-formed row. */
  function Config(p: Platform): (c: PlatformConfig)
    ensures WellFormed(c)
  {
    match p
    case TikTok => TikTokConfig()
    case Shorts => ShortsConfig()
    case YouTube => YouTubeConfig()
    case Reels => ReelsConfig()
    case Shopee => ShopeeConfig()
  }

  /** The table is total: it has a row for each platform and nothing else,
      and `Config` reads that row. */
  lemma TableIsTotal()
    ensures forall p: Platform :: p in PLATFORM_CONFIG && PLATFORM_CONFIG[p] == Config(p)
    ensures |PLATFORM_CONFIG.Keys| == 5
  {
    assert PLATFORM_CONFIG.Keys == {TikTok, Shorts, YouTube, Reels, Shopee};
    forall p: Platform ensures p in PLATFORM_CONFIG && PLATFORM_CONFIG[p] == Config(p) {
      assert p.TikTok? || p.Shorts? || p.YouTube? || p.Reels? || p.Shopee?;
    }
  }

  /** Only Shopee declares extra fields, and they are product id, price and voucher. */
  lemma ExtraFieldsOnlyShopee(p: Platform)
    ensures Config(p).extraFields.Some? <==> p == Shopee
    ensures p == Shopee ==> Config(p).extraFields == Some(["productId", "price", "voucher"])
  {
  }

  /** Mandatory hashtags: `#shorts` on Shorts, `#Shopee #Deal` on Shopee, none elsewhere. */
  lemma RequiredHashtagsPerPlatform(p: Platform)
    ensures Config(p).seo.requiredHashtags ==
      match p
      case Shorts => ["#shorts"]
      case Shopee => ["#Shopee", "#Deal"]
      case _ => []
  {
    match p
    case TikTok => assert Config(p) == TikTokConfig();
    case Shorts => assert Config(p) == ShortsConfig();
    case YouTube => assert Config(p) == YouTubeConfig();
    case Reels => assert Config(p) == ReelsConfig();
    case Shopee => assert Config(p) == ShopeeConfig();
  }
}
