/**
 * The static link registry: the configuration `load_config` returns,
 * a map whose "socials" entry sends each social-network category to
 * the ordered list of accounts shown for it.
 */
module Registry {
  import opened Wrappers

  /** One account link: the text shown on its button and the URL it opens. */
  datatype LinkEntry = LinkEntry(name: string, url: string)

  /** The whole configuration: section name to (category key to links). */
  type Config = map<string, map<string, seq<LinkEntry>>>

  /** The section of the configuration that holds the social links. */
  const SocialsSection: string := "socials"

  /** The categories the bot ships with, in the order the configuration lists them. */
  const Categories: seq<string> := ["instagram", "tiktok", "telegram", "discord", "whatsapp", "email"]

  /** `load_config`: a literal, so every call yields the same configuration. */
  function LoadConfig(): (cfg: Config)
    ensures SocialsSection in cfg
  {
    map[SocialsSection := map[
      "instagram" := [LinkEntry("Instagram @Kaydarap", "https://instagram.com/Kaydarap")],
      "tiktok" := [LinkEntry("TikTok @Kaydarap", "https://www.tiktok.com/@Kaydarap")],
      "telegram" := [LinkEntry("Telegram @Kaydarap", "https://t.me/Kaydarap")],
      "discord" := [LinkEntry("Discord", "https://discord.gg/YOUR_INVITE_CODE")],
      "whatsapp" := [LinkEntry("WhatsApp", "https://wa.me/16025662108")],
      "email" := [LinkEntry("Email", "mailto:Kaydarap@gmail.com")]
    ]]
  }

  /** Python `cfg.get("socials", {})`. */
  function Socials(cfg: Config): map<string, seq<LinkEntry>> {
    if SocialsSection in cfg then cfg[SocialsSection] else map[]
  }

  /** Python `socials.get(key)`: the links of a category, or `None` when it is absent. */
  function Lookup(socials: map<string, seq<LinkEntry>>, key: string): Option<seq<LinkEntry>> {
    if key in socials then Some(socials[key]) else None
  }

  /** Python truthiness of `items`: present and non-empty. */
  predicate Registered(items: Option<seq<LinkEntry>>) {
    items.Some? && |items.value| > 0
  }

  /**
   * The shipped registry holds exactly the six listed categories, and
   * each of them exactly one account.
   */
  lemma ShippedRegistryShape()
    ensures Socials(LoadConfig()).Keys == set k | k in Categories
    ensures forall k :: k in Socials(LoadConfig()) ==> |Socials(LoadConfig())[k]| == 1
  {
  }

  /** A category is registered exactly when it is one of the six shipped ones. */
  lemma RegisteredIffShipped(key: string)
    ensures Registered(Lookup(Socials(LoadConfig()), key)) <==> key in Categories
  {
    ShippedRegistryShape();
  }
}
