/** The records and error enums the engine and the remote client share. */
module Types {
  import opened Package

  /** A plugin's `UUID` identity. */
  type Uuid = nat

  /**
   * A loaded plugin, reduced to what the engine inspects: its `id` and its
   * manifest's bundle identifier.
   */
  datatype Plugin = Plugin(id: Uuid, bundleId: string)

  /** `PluginRepo`: where the fetched library lies, its readme and its version. */
  datatype PluginRepo = PluginRepo(localPosition: string, readme: string, version: Version)

  /** `PluginErrors`, with the `pluginNotFoundWithBundleId` case the engine throws. */
  datatype PluginError =
    | PluginNotFoundWithId(id: Uuid)
    | PluginNotFoundWithName(name: string)
    | PluginNotFoundWithBundleId(bundleId: string)

  /** `RemotePluginLoadingErrors`, with the `invalidURL` case the engine throws. */
  datatype RemoteError =
    | DownloadError
    | InvalidRepoName
    | InvalidUrl(url: string)

  /** Anything a throwing call of the core can throw. */
  datatype Error =
    | PluginFailure(plugin: PluginError)
    | RemoteFailure(remote: RemoteError)
    | TransportFailure  // an error thrown by the network client itself
}
