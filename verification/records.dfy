/**
 * The video record the crawler produces and the staging buffer persists.
 * The repository imports `VideoData` from structs.py without defining it there;
 * its fields are the keyword arguments the crawler builds it with.
 */
module Records {
  import opened Common

  /** One video; `createdAt` is the catalog's publication timestamp, kept as an opaque string. */
  datatype VideoData = VideoData(
    channelId: string,
    channelTitle: string,
    id: string,
    title: string,
    description: string,
    thumbnail: Option<string>,
    createdAt: string)
}
