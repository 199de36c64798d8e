/**
 * The `/api/download` handler: validate the `url` query parameter, build the
 * upstream API URL, and turn the upstream `shortcode_media` record into the
 * response object.
 */
module Download {
  import opened Wrappers
  import opened Js
  import opened Shortcode
  import opened MediaItems

  /** The upstream `media_type` of a carousel ("sidecar") post: a value fixed by the platform, not derived from the data. */
  const CarouselMediaType: real := 8.0

  const UrlRequiredMessage := "Instagram URL is required as query parameter"
  const InvalidUrlMessage := "Invalid Instagram URL"

  datatype Author = Author(id: Value, username: Value, fullName: Value, profilePic: Value, isVerified: Value)

  /** The `result` object the handler sends. `timestamp` is the ISO-8601 text of the post's instant. */
  datatype Post = Post(
    id: Value,
    shortcode: Value,
    caption: Value,
    author: Author,
    dimensions: Value,
    likes: Value,
    comments: Value,
    views: Value,
    timestamp: string,
    isVideo: Value,
    isCarousel: bool,
    media: seq<MediaItem>)

  /** What the handler answers. A 500 carries the exception that caused it. */
  datatype Response =
    | BadRequest(error: string)
    | ServerError(cause: Exception)
    | Ok(post: Post)
  {
    function Status(): nat {
      match this
      case BadRequest(_) => 400
      case ServerError(_) => 500
      case Ok(_) => 200
    }
  }

  // ---------------------------------------------------------------------
  // Request validation

  /** The handler either answers at once or goes on to fetch one URL. */
  datatype Step = Respond(response: Response) | Fetch(apiUrl: string)

  /**
   * The part of the handler before the fetch. A falsy `url` is a 400
   * "required"; a string without a "/p/<shortcode>" is a 400 "invalid"; a
   * parameter given as an array or an object has no `match` method, which
   * throws.
   */
  function Route(query: Value): (r: Step)
    ensures !Truthy(query) ==> r == Respond(BadRequest(UrlRequiredMessage))
    ensures Truthy(query) && !query.Str? ==> r == Respond(ServerError(TypeError))
    ensures query.Str? && query.s != "" && (forall j: nat :: !MarkerAt(query.s, j)) ==>
      r == Respond(BadRequest(InvalidUrlMessage))
    ensures r.Fetch? <==> query.Str? && exists j: nat :: MarkerAt(query.s, j)
    ensures r.Fetch? ==> r.apiUrl == ApiPrefix + ExtractShortcode(query.s).value + ApiSuffix
  {
    if !Truthy(query) then Respond(BadRequest(UrlRequiredMessage))
    else if !query.Str? then Respond(ServerError(TypeError))
    else
      match ExtractShortcode(query.s)
      case None => Respond(BadRequest(InvalidUrlMessage))
      case Some(shortcode) => Fetch(ApiUrl(shortcode))
  }

  // ---------------------------------------------------------------------
  // The result object

  /** `mediaData.edge_media_to_caption?.edges[0]?.node?.text`: only `edges[0]` is not guarded, and throws when `edges` is undefined or null. */
  function CaptionText(media: Value): (r: Result<Value, Exception>)
    ensures r.Failure? <==> Nullish(media) || CaptionEdgesMissing(media)
  {
    var captions :- Get(media, "edge_media_to_caption");
    if Nullish(captions) then Success(Undefined)
    else
      var first :- At0(Field(captions, "edges"));
      Success(Field(Field(first, "node"), "text"))
  }

  /** The caption container is there but its `edges` is undefined or null, so `edges[0]` throws. */
  predicate CaptionEdgesMissing(media: Value) {
    var captions := Field(media, "edge_media_to_caption");
    !Nullish(captions) && Nullish(Field(captions, "edges"))
  }

  /** The first caption text the upstream gives, or undefined. */
  function FirstCaption(media: Value): Value {
    Field(Field(Index0(Field(Field(media, "edge_media_to_caption"), "edges")), "node"), "text")
  }

  /** `mediaData.owner.id` etc.: copying the owner throws when there is no owner. */
  function AuthorOf(owner: Value): (r: Result<Author, Exception>)
    ensures r.Failure? <==> Nullish(owner)
    ensures r.Success? ==> r.value == Author(Field(owner, "id"), Field(owner, "username"),
      Field(owner, "full_name"), Field(owner, "profile_pic_url"), Field(owner, "is_verified"))
  {
    var id :- Get(owner, "id");
    Success(Author(id, Field(owner, "username"), Field(owner, "full_name"),
                   Field(owner, "profile_pic_url"), Field(owner, "is_verified")))
  }

  /** The upstream record lacks something the object literal reads without a guard. */
  predicate ShapeBroken(media: Value) {
    Nullish(media) || CaptionEdgesMissing(media) || Nullish(Field(media, "owner"))
  }

  /**
   * The object literal `result`, evaluated property by property, with `media`
   * still empty. `isoInstant` stands for `new Date(s * 1000).toISOString()`:
   * its Failure is the exception that expression throws, a TypeError when
   * `s * 1000` cannot convert an object to a primitive or a RangeError for
   * an invalid date.
   */
  function Header(media: Value, isoInstant: Value -> Result<string, Exception>): (r: Result<Post, Exception>)
    ensures r.Failure? <==> ShapeBroken(media) || isoInstant(Field(media, "taken_at_timestamp")).Failure?
    // a broken shape throws first; otherwise the date conversion's exception escapes
    ensures r.Failure? && ShapeBroken(media) ==> r.error == TypeError
    ensures r.Failure? && !ShapeBroken(media) ==> r.error == isoInstant(Field(media, "taken_at_timestamp")).error
    ensures r.Success? ==> r.value.media == []
    // copied unchanged
    ensures r.Success? ==>
      && r.value.id == Field(media, "id")
      && r.value.shortcode == Field(media, "shortcode")
      && r.value.dimensions == Field(media, "dimensions")
      && r.value.isVideo == Field(media, "is_video")
      && r.value.author.id == Field(Field(media, "owner"), "id")
      && r.value.author.username == Field(Field(media, "owner"), "username")
      && r.value.author.fullName == Field(Field(media, "owner"), "full_name")
      && r.value.author.profilePic == Field(Field(media, "owner"), "profile_pic_url")
      && r.value.author.isVerified == Field(Field(media, "owner"), "is_verified")
    // the caption is the first caption's text when that is truthy, and never null or absent
    ensures r.Success? ==> Truthy(r.value.caption) || r.value.caption == Str("")
    ensures r.Success? ==> r.value.caption == if Truthy(FirstCaption(media)) then FirstCaption(media) else Str("")
    // the counters are the upstream ones when truthy, 0 otherwise
    ensures r.Success? ==> Truthy(r.value.likes) || r.value.likes == Number(0.0)
    ensures r.Success? ==> var c := Field(Field(media, "edge_media_preview_like"), "count");
      r.value.likes == if Truthy(c) then c else Number(0.0)
    ensures r.Success? ==> Truthy(r.value.comments) || r.value.comments == Number(0.0)
    ensures r.Success? ==> var c := Field(Field(media, "edge_media_to_comment"), "count");
      r.value.comments == if Truthy(c) then c else Number(0.0)
    // the view count is the upstream one when truthy, null otherwise, whatever is_video says
    ensures r.Success? ==> Truthy(r.value.views) || r.value.views == Null
    ensures r.Success? ==> var v := Field(media, "video_view_count");
      r.value.views == if Truthy(v) then v else Null
    ensures r.Success? ==> r.value.timestamp == isoInstant(Field(media, "taken_at_timestamp")).value
    ensures r.Success? ==> (r.value.isCarousel <==> Field(media, "media_type") == Number(CarouselMediaType))
  {
    var id :- Get(media, "id");
    var text :- CaptionText(media);
    var author :- AuthorOf(Field(media, "owner"));
    var stamp :- isoInstant(Field(media, "taken_at_timestamp"));
    Success(Post(
      id := id,
      shortcode := Field(media, "shortcode"),
      caption := Or(text, Str("")),
      author := author,
      dimensions := Field(media, "dimensions"),
      likes := Or(Field(Field(media, "edge_media_preview_like"), "count"), Number(0.0)),
      comments := Or(Field(Field(media, "edge_media_to_comment"), "count"), Number(0.0)),
      views := Or(Field(media, "video_view_count"), Null),
      timestamp := stamp,
      isVideo := Field(media, "is_video"),
      isCarousel := Field(media, "media_type") == Number(CarouselMediaType),
      media := []))
  }

  // ---------------------------------------------------------------------
  // The media list

  /** The callback `({ node }) => parseMediaItem(node)`: destructuring throws on an undefined or null edge. */
  function ParseEdge(edge: Value): (r: Result<MediaItem, Exception>)
    ensures r.Failure? <==> Nullish(edge) || Nullish(Field(edge, "node"))
    ensures r.Failure? ==> r.error == TypeError
    ensures r.Success? ==> r == ParseMediaItem(Field(edge, "node"))
  {
    var node :- Get(edge, "node");
    ParseMediaItem(node)
  }

  /**
   * `edges.forEach(...)` pushing each parsed edge: the first edge that throws
   * ends the loop; otherwise one entry per edge, in the edges' order.
   */
  function ParseEdges(edges: seq<Value>): (r: Result<seq<MediaItem>, Exception>)
    ensures r.Failure? <==> exists i :: 0 <= i < |edges| && ParseEdge(edges[i]).Failure?
    ensures r.Failure? ==> r.error == TypeError
    ensures r.Success? ==> |r.value| == |edges|
    ensures r.Success? ==> forall i :: 0 <= i < |edges| ==> r.value[i] == ParseEdge(edges[i]).value
  {
    if edges == [] then Success([])
    else
      var init :- ParseEdges(edges[..|edges| - 1]);
      var item :- ParseEdge(edges[|edges| - 1]);
      Success(init + [item])
  }

  /** `mediaData.edge_sidecar_to_children.edges`, read only for a carousel. */
  function SidecarEdges(media: Value): Value {
    Field(Field(media, "edge_sidecar_to_children"), "edges")
  }

  /** `mediaData.edge_sidecar_to_children.edges.forEach(...)`: `forEach` exists on arrays only. */
  function CarouselMedia(media: Value): (r: Result<seq<MediaItem>, Exception>)
    requires !Nullish(media)
    ensures r.Failure? <==> SidecarBroken(media)
    ensures r.Failure? ==> r.error == TypeError
    ensures r.Success? ==> SidecarEdges(media).Arr? && r == ParseEdges(SidecarEdges(media).items)
  {
    var edges :- Get(Field(media, "edge_sidecar_to_children"), "edges");
    if !edges.Arr? then Failure(TypeError) else ParseEdges(edges.items)
  }

  /** A carousel's children cannot be walked: no sidecar, edges that are not an array, or an edge without a node. */
  predicate SidecarBroken(media: Value) {
    var edges := SidecarEdges(media);
    || Nullish(Field(media, "edge_sidecar_to_children"))
    || !edges.Arr?
    || exists i :: 0 <= i < |edges.items| && ParseEdge(edges.items[i]).Failure?
  }

  /**
   * The whole result: the object literal, then the media list. A carousel has
   * one entry per child in the children's order; any other post has exactly
   * one entry, parsed from the post record itself.
   */
  function Normalize(media: Value, isoInstant: Value -> Result<string, Exception>): (r: Result<Post, Exception>)
    ensures r.Failure? <==>
      || Header(media, isoInstant).Failure?
      || (Header(media, isoInstant).value.isCarousel && SidecarBroken(media))
    ensures r.Failure? ==>
      r.error == if Header(media, isoInstant).Failure? then Header(media, isoInstant).error else TypeError
    ensures r.Success? ==> r.value == Header(media, isoInstant).value.(media := r.value.media)
    ensures r.Success? ==> (r.value.isCarousel <==> Field(media, "media_type") == Number(CarouselMediaType))
    ensures r.Success? && r.value.isCarousel ==>
      && SidecarEdges(media).Arr?
      && |r.value.media| == |SidecarEdges(media).items|
      && forall i :: 0 <= i < |r.value.media| ==>
           r.value.media[i] == ParseMediaItem(Field(SidecarEdges(media).items[i], "node")).value
    ensures r.Success? && !r.value.isCarousel ==> r.value.media == [ParseMediaItem(media).value]
  {
    var result :- Header(media, isoInstant);
    if result.isCarousel then
      var items :- CarouselMedia(media);
      Success(result.(media := items))
    else
      Success(result.(media := [ParseMediaItem(media).value]))
  }

  /**
   * The handler's own steps from the object literal on: `media` starts empty
   * and every child's entry is pushed onto it in turn.
   */
  method BuildResult(media: Value, isoInstant: Value -> Result<string, Exception>) returns (r: Result<Post, Exception>)
    ensures r == Normalize(media, isoInstant)
  {
    var header := Header(media, isoInstant);
    if header.Failure? {
      assert Normalize(media, isoInstant) == Failure(header.error);
      return Failure(header.error);
    }
    var result := header.value;
    if result.isCarousel {
      var sidecar := Field(media, "edge_sidecar_to_children");
      if Nullish(sidecar) {
        assert Normalize(media, isoInstant) == Failure(TypeError);
        return Failure(TypeError);
      }
      var edges := Field(sidecar, "edges");
      if !edges.Arr? {
        assert Normalize(media, isoInstant) == Failure(TypeError);
        return Failure(TypeError);
      }
      var i := 0;
      while i < |edges.items|
        invariant 0 <= i <= |edges.items|
        invariant ParseEdges(edges.items[..i]).Success?
        invariant result == header.value.(media := ParseEdges(edges.items[..i]).value)
      {
        var item := ParseEdge(edges.items[i]);
        if item.Failure? {
          assert ParseEdges(edges.items).Failure?;
          assert Normalize(media, isoInstant) == Failure(TypeError);
          return Failure(item.error);
        }
        assert edges.items[..i + 1][..i] == edges.items[..i];
        result := result.(media := result.media + [item.value]);
        i := i + 1;
      }
      assert edges.items[..i] == edges.items;
      assert CarouselMedia(media) == Success(result.media);
      assert Normalize(media, isoInstant) == Success(header.value.(media := result.media));
    } else {
      assert !Nullish(media) && result.media == [];
      result := result.(media := result.media + [ParseMediaItem(media).value]);
      assert result.media == [ParseMediaItem(media).value];
      assert Normalize(media, isoInstant) == Success(header.value.(media := result.media));
    }
    r := Success(result);
  }

  // ---------------------------------------------------------------------
  // What `res.json(result)` writes

  function AuthorJson(a: Author): Value {
    var m := Put(map[], "id", a.id);
    var m := Put(m, "username", a.username);
    var m := Put(m, "full_name", a.fullName);
    var m := Put(m, "profile_pic", a.profilePic);
    Obj(Put(m, "is_verified", a.isVerified))
  }

  function MediaJson(items: seq<MediaItem>): seq<Value> {
    seq(|items|, i requires 0 <= i < |items| => ToJson(items[i]))
  }

  /** The response body, property by property in the order of the object literal; undefined ones are left out. */
  function PostJson(p: Post): Value {
    var m := Put(map[], "id", p.id);
    var m := Put(m, "shortcode", p.shortcode);
    var m := Put(m, "caption", p.caption);
    var m := m["author" := AuthorJson(p.author)];
    var m := Put(m, "dimensions", p.dimensions);
    var m := Put(m, "likes", p.likes);
    var m := Put(m, "comments", p.comments);
    var m := Put(m, "views", p.views);
    var m := m["timestamp" := Str(p.timestamp)];
    var m := Put(m, "is_video", p.isVideo);
    var m := m["is_carousel" := Bool(p.isCarousel)];
    Obj(m["media" := Arr(MediaJson(p.media))])
  }

  /**
   * The written body keeps the caption, the counters and `views` as they are,
   * and always has the author, the timestamp, the carousel flag and the media
   * list.
   */
  predicate BodyKeepsDefaults(post: Post) {
    var body := PostJson(post).fields;
    && "caption" in body && body["caption"] == post.caption
    && "likes" in body && body["likes"] == post.likes
    && "comments" in body && body["comments"] == post.comments
    && "views" in body && body["views"] == post.views
    && "author" in body && "timestamp" in body && "is_carousel" in body
    && "media" in body && body["media"] == Arr(MediaJson(post.media))
  }

  /** Caption, counters and `views` are written whenever they are defined. */
  lemma PostJsonKeys(post: Post)
    requires !post.caption.Undefined? && !post.likes.Undefined?
    requires !post.comments.Undefined? && !post.views.Undefined?
    ensures BodyKeepsDefaults(post)
  {
  }

  /**
   * The defaults make some properties always appear in the body: the caption
   * (at worst ""), the counters (at worst 0), `views` (at worst null), the
   * author, the timestamp, the carousel flag and the media list.
   */
  lemma BodyAlwaysHas(media: Value, isoInstant: Value -> Result<string, Exception>, post: Post)
    requires Normalize(media, isoInstant) == Success(post)
    ensures BodyKeepsDefaults(post)
  {
    assert !post.caption.Undefined? && !post.likes.Undefined?;
    assert !post.comments.Undefined? && !post.views.Undefined?;
    PostJsonKeys(post);
  }

  /** The body's `media` property is the written media list, whichever other properties are present. */
  lemma PostJsonMedia(post: Post)
    ensures "media" in PostJson(post).fields && PostJson(post).fields["media"] == Arr(MediaJson(post.media))
  {
  }

  /**
   * The written `media` list: for a carousel, entry i is child i's node as
   * `parseMediaItem` writes it, so an image child carries no `video_duration`
   * or `audio` key; for any other post, the single entry written from the
   * record itself.
   */
  lemma WrittenMedia(media: Value, isoInstant: Value -> Result<string, Exception>, post: Post)
    requires Normalize(media, isoInstant) == Success(post)
    ensures "media" in PostJson(post).fields
    ensures var written := PostJson(post).fields["media"];
      && written.Arr?
      && (post.isCarousel ==>
            && |written.items| == |SidecarEdges(media).items|
            && forall i :: 0 <= i < |written.items| ==>
                 written.items[i] == ToJson(ParseMediaItem(Field(SidecarEdges(media).items[i], "node")).value))
      && (!post.isCarousel ==> written.items == [ToJson(ParseMediaItem(media).value)])
    ensures var written := PostJson(post).fields["media"];
      post.isCarousel ==>
        forall i :: 0 <= i < |written.items| && !Truthy(Field(Field(SidecarEdges(media).items[i], "node"), "is_video")) ==>
          written.items[i].Obj? && "video_duration" !in written.items[i].fields && "audio" !in written.items[i].fields
  {
    PostJsonMedia(post);
    var written := PostJson(post).fields["media"];
    if post.isCarousel {
      var edges := SidecarEdges(media).items;
      forall i | 0 <= i < |written.items|
        ensures written.items[i] == ToJson(ParseMediaItem(Field(edges[i], "node")).value)
      {
        assert written.items[i] == ToJson(post.media[i]);
      }
      forall i | 0 <= i < |written.items| && !Truthy(Field(Field(edges[i], "node"), "is_video"))
        ensures written.items[i].Obj? && "video_duration" !in written.items[i].fields && "audio" !in written.items[i].fields
      {
        ParsedJsonKeys(Field(edges[i], "node"));
      }
    } else {
      assert written.items[0] == ToJson(post.media[0]);
    }
  }

  // ---------------------------------------------------------------------
  // The handler

  /** `response.data.graphql.shortcode_media`. */
  function MediaData(data: Value): (r: Result<Value, Exception>)
    ensures r.Failure? <==> Nullish(data) || Nullish(Field(data, "graphql"))
    ensures r.Success? ==> r.value == Field(Field(data, "graphql"), "shortcode_media")
  {
    var graphql :- Get(data, "graphql");
    Get(graphql, "shortcode_media")
  }

  /** What the upstream body turns into: `data.graphql.shortcode_media`, normalised. */
  function Upstream(data: Value, isoInstant: Value -> Result<string, Exception>): (r: Result<Post, Exception>)
    ensures r.Failure? <==> MediaData(data).Failure? || Normalize(MediaData(data).value, isoInstant).Failure?
    ensures r.Success? ==> r == Normalize(Field(Field(data, "graphql"), "shortcode_media"), isoInstant)
  {
    var media :- MediaData(data);
    Normalize(media, isoInstant)
  }

  /**
   * The handler as a whole. `fetch` stands for the HTTP GET of the API URL:
   * the parsed body, or None when the request is rejected. Every exception
   * becomes a 500, and a successful normalisation is sent as it is.
   */
  function Handle(query: Value, fetch: string -> Option<Value>, isoInstant: Value -> Result<string, Exception>): (r: Response)
    ensures r.BadRequest? <==> !Truthy(query) || (query.Str? && forall j: nat :: !MarkerAt(query.s, j))
    ensures Route(query).Respond? ==> r == Route(query).response
    ensures Route(query).Fetch? && fetch(Route(query).apiUrl).None? ==> r == ServerError(RequestFailed)
    ensures Route(query).Fetch? && fetch(Route(query).apiUrl).Some? ==>
      var outcome := Upstream(fetch(Route(query).apiUrl).value, isoInstant);
      && (outcome.Success? ==> r == Ok(outcome.value))
      && (outcome.Failure? ==> r == ServerError(outcome.error))
    ensures r.Ok? <==>
      && Route(query).Fetch?
      && fetch(Route(query).apiUrl).Some?
      && Upstream(fetch(Route(query).apiUrl).value, isoInstant).Success?
    ensures r.Status() in {200, 400, 500}
  {
    match Route(query)
    case Respond(response) => response
    case Fetch(apiUrl) =>
      match fetch(apiUrl)
      case None => ServerError(RequestFailed)
      case Some(data) =>
        match Upstream(data, isoInstant)
        case Failure(e) => ServerError(e)
        case Success(post) => Ok(post)
  }

  /** A 400 is decided before the fetch: whatever the upstream would have answered, the response is the same. */
  lemma BadRequestWithoutFetch(query: Value, fetch1: string -> Option<Value>, fetch2: string -> Option<Value>,
                               isoInstant: Value -> Result<string, Exception>)
    requires Handle(query, fetch1, isoInstant).BadRequest?
    ensures Handle(query, fetch2, isoInstant) == Handle(query, fetch1, isoInstant)
  {
  }
}
