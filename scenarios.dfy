/** Concrete requests and upstream records, and what the handler makes of them. */
module Scenarios {
  import opened Wrappers
  import opened Js
  import opened Shortcode
  import opened MediaItems
  import opened Download

  /** A post URL with a query string: the shortcode stops at the "/". */
  lemma ShortcodeOfPostUrl()
    ensures ExtractShortcode("https://www.instagram.com/p/Cx9/?igsh=1") == Some("Cx9")
  {
    var url := "https://www.instagram.com/p/Cx9/?igsh=1";
    forall j: nat | j < 25
      ensures !MarkerAt(url, j)
    {
    }
    assert MarkerAt(url, 25);
    CaptureIsUnique(url, Span(28, 31));
    assert url[28..31] == "Cx9";
  }

  /** A "/p/" followed directly by "/" does not match; the regular expression moves on to the next one. */
  lemma ShortcodeSkipsEmptySegment()
    ensures ExtractShortcode("x/p//p/ab?c") == Some("ab")
  {
    var url := "x/p//p/ab?c";
    assert !MarkerAt(url, 0) && !MarkerAt(url, 1) && !MarkerAt(url, 2) && !MarkerAt(url, 3);
    assert MarkerAt(url, 4);
    CaptureIsUnique(url, Span(7, 9));
    assert url[7..9] == "ab";
  }

  /** A URL without "/p/" is rejected as invalid, and nothing is fetched. */
  lemma NotAPostIsInvalid(fetch: string -> Option<Value>, isoInstant: Value -> Result<string, Exception>)
    ensures Handle(Str("https://instagram.com/notapost"), fetch, isoInstant) == BadRequest(InvalidUrlMessage)
  {
    var url := "https://instagram.com/notapost";
    assert FindMarker(url, 0) == None;
  }

  /** A missing or empty `url` is a 400 "required". */
  lemma MissingUrlIsRequired(fetch: string -> Option<Value>, isoInstant: Value -> Result<string, Exception>)
    ensures Handle(Undefined, fetch, isoInstant) == BadRequest(UrlRequiredMessage)
    ensures Handle(Str(""), fetch, isoInstant) == BadRequest(UrlRequiredMessage)
  {
  }

  const SampleDimensions := Obj(map["width" := Number(100.0), "height" := Number(100.0)])
  const SampleOwner := Obj(map["id" := Str("7"), "username" := Str("u")])

  /** An upstream record for a single image post without a thumbnail, caption or counters. */
  const SampleImageRecord := Obj(map[
    "id" := Str("1"), "shortcode" := Str("abc"), "media_type" := Number(1.0),
    "is_video" := Bool(false), "display_url" := Str("https://img/x.jpg"),
    "owner" := SampleOwner, "dimensions" := SampleDimensions,
    "taken_at_timestamp" := Number(1700000000.0)])

  lemma SampleImageFields()
    ensures Field(SampleImageRecord, "owner") == SampleOwner
    ensures Field(SampleImageRecord, "taken_at_timestamp") == Number(1700000000.0)
    ensures Field(SampleImageRecord, "edge_media_to_caption") == Undefined
    ensures Field(SampleImageRecord, "media_type") == Number(1.0)
    ensures Field(SampleImageRecord, "is_video") == Bool(false)
    ensures Field(SampleImageRecord, "display_url") == Str("https://img/x.jpg")
    ensures Field(SampleImageRecord, "thumbnail_src") == Undefined
    ensures Field(SampleImageRecord, "dimensions") == SampleDimensions
    ensures Field(SampleImageRecord, "video_view_count") == Undefined
    ensures Field(SampleImageRecord, "edge_media_preview_like") == Undefined
  {
  }

  /** A single image post: one image entry, defaults for caption, likes and views. */
  lemma SingleImagePost(isoInstant: Value -> Result<string, Exception>)
    requires isoInstant(Number(1700000000.0)).Success?
    ensures Normalize(SampleImageRecord, isoInstant).Success?
    ensures Normalize(SampleImageRecord, isoInstant).value.media ==
      [Image(Str("https://img/x.jpg"), Undefined, SampleDimensions)]
    ensures !Normalize(SampleImageRecord, isoInstant).value.isCarousel
    ensures Normalize(SampleImageRecord, isoInstant).value.caption == Str("")
    ensures Normalize(SampleImageRecord, isoInstant).value.likes == Number(0.0)
    ensures Normalize(SampleImageRecord, isoInstant).value.views == Null
  {
    SampleImageFields();
    assert ParseMediaItem(SampleImageRecord) == Success(Image(Str("https://img/x.jpg"), Undefined, SampleDimensions));
  }

  /** An image entry without a thumbnail is written without a `thumbnail` key. */
  lemma ImageWithoutThumbnailJson()
    ensures ToJson(Image(Str("https://img/x.jpg"), Undefined, SampleDimensions)) ==
      Obj(map["type" := Str("image"), "url" := Str("https://img/x.jpg"), "dimensions" := SampleDimensions])
  {
  }
}
