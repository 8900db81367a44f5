/**
 * The settings the core reads from config/FeaturePilotProperties.java, as
 * plain values. A Java field that may be null is an Option.
 */
module Properties {
  import opened Wrappers
  import opened Common

  /** API authentication; the key may be unset. */
  datatype Auth = Auth(apiKey: Option<string>)

  /** The remote server section: base URL, credentials, project, polling
      interval in milliseconds and whether a failed poll clears the cache. */
  datatype ServerConfig = ServerConfig(
    url: Option<string>,
    auth: Auth,
    project: Option<string>,
    refresh: int,
    fallback: bool)

  /** Where flags come from: the provider name and the server section. */
  datatype SourceProperties = SourceProperties(provider: string, server: ServerConfig)

  /** The whole featurepilot settings tree. */
  datatype FeaturePilotProperties = FeaturePilotProperties(
    source: SourceProperties,
    flags: map<string, string>)

  /** Polling interval used when none is configured. */
  const DEFAULT_REFRESH_MS: int := 10000

  /** A server section that sets none of its fields: only the field initialisers apply. */
  const DefaultServerConfig: ServerConfig :=
    ServerConfig(None, Auth(None), None, DEFAULT_REFRESH_MS, false)

  /** Settings whose source section sets no provider (so "local"), with
      no flags. A missing source section is null in the source and is not
      one of these settings. */
  const DefaultProperties: FeaturePilotProperties :=
    FeaturePilotProperties(SourceProperties(LOCAL, DefaultServerConfig), map[])
}
