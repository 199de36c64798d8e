/**
 * `parseMediaItem`: the shape of one media entry of a post, for a single post
 * and for each child of a carousel alike.
 */
module MediaItems {
  import opened Wrappers
  import opened Js

  /** The audio record of a video: the upstream has no separate audio track, so it repeats the video's URL and duration. */
  datatype Audio = Audio(audioUrl: Value, audioDuration: Value)

  /**
   * An image entry has four properties; a video entry has two more,
   * `video_duration` and `audio` (an audio record, or null when the video has
   * no sound).
   */
  datatype MediaItem =
    | Image(url: Value, thumbnail: Value, dimensions: Value)
    | Video(url: Value, thumbnail: Value, dimensions: Value, videoDuration: Value, audio: Option<Audio>)
  {
    /** The `type` property. */
    function Type(): string {
      if Video? then "video" else "image"
    }
  }

  /**
   * `parseMediaItem(node)`. Reading `node.is_video` throws when the node is
   * undefined or null; every later read is on the same node and cannot.
   */
  function ParseMediaItem(node: Value): (r: Result<MediaItem, Exception>)
    ensures r.Failure? <==> Nullish(node)
    ensures r.Failure? ==> r.error == TypeError
    ensures r.Success? ==> (r.value.Video? <==> Truthy(Field(node, "is_video")))
    ensures r.Success? ==>
      r.value.url == (if r.value.Video? then Field(node, "video_url") else Field(node, "display_url"))
    ensures r.Success? ==>
      r.value.thumbnail == Field(node, "thumbnail_src") && r.value.dimensions == Field(node, "dimensions")
    ensures r.Success? && r.value.Video? ==> r.value.videoDuration == Field(node, "video_duration")
    ensures r.Success? && r.value.Video? ==> (r.value.audio.Some? <==> Truthy(Field(node, "has_audio")))
    ensures r.Success? && r.value.Video? && r.value.audio.Some? ==>
      r.value.audio.value == Audio(r.value.url, r.value.videoDuration)
  {
    var isVideo :- Get(node, "is_video");
    var url := if Truthy(isVideo) then Field(node, "video_url") else Field(node, "display_url");
    var thumbnail := Field(node, "thumbnail_src");
    var dimensions := Field(node, "dimensions");
    if Truthy(isVideo) then
      var duration := Field(node, "video_duration");
      var audio := if Truthy(Field(node, "has_audio")) then Some(Audio(Field(node, "video_url"), duration)) else None;
      Success(Video(url, thumbnail, dimensions, duration, audio))
    else
      Success(Image(url, thumbnail, dimensions))
  }

  /** The object `res.json` writes for an audio record. */
  function AudioJson(a: Option<Audio>): Value {
    match a
    case None => Null
    case Some(Audio(u, d)) => Obj(Put(Put(map[], "audio_url", u), "audio_duration", d))
  }

  /** The object `res.json` writes for a media entry: properties that are undefined do not appear. */
  function ToJson(item: MediaItem): Value {
    var common := Put(Put(Put(map["type" := Str(item.Type())], "url", item.url),
                          "thumbnail", item.thumbnail), "dimensions", item.dimensions);
    match item
    case Image(_, _, _) => Obj(common)
    case Video(_, _, _, d, a) => Obj(Put(common, "video_duration", d)["audio" := AudioJson(a)])
  }

  /**
   * What a client sees of a parsed node: the type and, for an image, no
   * `video_duration` or `audio` key at all; for a video, an `audio` key that
   * is null exactly when `has_audio` is falsy, and otherwise carries the
   * video's own URL.
   */
  lemma ParsedJsonKeys(node: Value)
    requires !Nullish(node)
    ensures var j := ToJson(ParseMediaItem(node).value).fields;
      && j["type"] == Str(if Truthy(Field(node, "is_video")) then "video" else "image")
      && (!Truthy(Field(node, "is_video")) ==> "video_duration" !in j && "audio" !in j)
      && (Truthy(Field(node, "is_video")) ==>
            && "audio" in j
            && (j["audio"] == Null <==> !Truthy(Field(node, "has_audio")))
            && ("video_duration" in j <==> !Field(node, "video_duration").Undefined?))
      && ("thumbnail" in j <==> !Field(node, "thumbnail_src").Undefined?)
      && (Truthy(Field(node, "is_video")) && Truthy(Field(node, "has_audio")) ==>
            j["audio"] == AudioJson(Some(Audio(Field(node, "video_url"), Field(node, "video_duration")))))
  {
  }
}
