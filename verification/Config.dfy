/** The configuration fields the modelled code reads, and what New refuses (config.go). */
module Config {
  import opened Clock

  datatype Config = Config(
    cookieName: string,
    sessionTTL: Duration,
    retainTokens: bool,
    revalidateInterval: Duration,
    reresolveOnRevalidate: bool,
    requireEmailVerified: bool,
    hasUserResolver: bool)

  /** The revalidation refusals of Config.validate. */
  predicate Accepted(cfg: Config) {
    && (cfg.revalidateInterval > 0 ==> cfg.retainTokens && cfg.revalidateInterval < cfg.sessionTTL)
    && (cfg.reresolveOnRevalidate ==> cfg.revalidateInterval > 0 && cfg.hasUserResolver)
  }
}
