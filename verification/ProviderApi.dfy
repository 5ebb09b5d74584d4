/** The provider-agnostic volume description every cloud provider returns. */
module ProviderApi {
  import opened Basics

  datatype VolumeInfo = VolumeInfo(
    volumeID: string,
    path: string,
    sizeBytes: int,
    provider: string,
    metadata: Params)
}
