/** The tolerant decoders of the three service responses: the upload acknowledgement, the
    tag list and the colour list. Each one is total; a response of the wrong shape gives
    an absent id or an empty list, and a list entry lacking a usable field is skipped. */
module Decoders {
  import opened Wrappers
  import opened Json
  import opened IntParse

  /** `response.result`: a transport failure, or the JSON body of a successful response. */
  datatype Response = Failure | Success(value: Json)

  /** The four values handed to `PhotoColor`: the channels are the optional results of
      `Int(r)`, `Int(g)`, `Int(b)`; no range check is made on them. */
  datatype PhotoColor = PhotoColor(
    red: Option<int>,
    green: Option<int>,
    blue: Option<int>,
    colorName: string)

  // ---------------------------------------------------------------------------
  // Swift's `flatMap` over a list of dictionaries, with a transform returning an optional

  /** Each entry contributes the transform's value, if it has one, in list order. */
  function FlatMap<T>(entries: seq<Json>, transform: map<string, Json> -> Option<T>): (r: seq<T>)
    requires AllObjects(entries)
    ensures |r| <= |entries|
  {
    if |entries| == 0 then []
    else OptionToSeq(transform(entries[0].fields)) + FlatMap(entries[1..], transform)
  }

  /** The flatMap works entry by entry: order is kept and no entry affects another. */
  lemma {:induction false} FlatMapAppend<T>(a: seq<Json>, b: seq<Json>,
                                            transform: map<string, Json> -> Option<T>)
    requires AllObjects(a) && AllObjects(b)
    ensures AllObjects(a + b)
    ensures FlatMap(a + b, transform) == FlatMap(a, transform) + FlatMap(b, transform)
  {
    if |a| > 0 {
      var ab := a + b;
      assert ab[0] == a[0] && ab[1..] == a[1..] + b;
      FlatMapAppend(a[1..], b, transform);
    } else {
      assert a + b == b;
    }
  }

  /** A value is returned exactly when some entry transforms to it. */
  lemma {:induction false} FlatMapMembership<T>(entries: seq<Json>,
                                                transform: map<string, Json> -> Option<T>, x: T)
    requires AllObjects(entries)
    ensures x in FlatMap(entries, transform) <==>
              exists i :: 0 <= i < |entries| && transform(entries[i].fields) == Some(x)
  {
    if |entries| > 0 {
      FlatMapMembership(entries[1..], transform, x);
      if x in FlatMap(entries[1..], transform) {
        var i :| 0 <= i < |entries[1..]| && transform(entries[1..][i].fields) == Some(x);
        assert transform(entries[i + 1].fields) == Some(x);
      }
      if exists i :: 0 <= i < |entries| && transform(entries[i].fields) == Some(x) {
        var i :| 0 <= i < |entries| && transform(entries[i].fields) == Some(x);
        if i > 0 {
          assert transform(entries[1..][i - 1].fields) == Some(x);
        }
      }
    }
  }

  /** When every entry transforms to a value, nothing is skipped. */
  lemma {:induction false} FlatMapComplete<T>(entries: seq<Json>,
                                              transform: map<string, Json> -> Option<T>)
    requires AllObjects(entries)
    requires forall i :: 0 <= i < |entries| ==> transform(entries[i].fields).Some?
    ensures |FlatMap(entries, transform)| == |entries|
    ensures forall i :: 0 <= i < |entries| ==>
              FlatMap(entries, transform)[i] == transform(entries[i].fields).value
  {
    if |entries| > 0 {
      FlatMapComplete(entries[1..], transform);
    }
  }

  // ---------------------------------------------------------------------------
  // Upload acknowledgement: `{"uploaded": [{"id": "<string>", ...}, ...]}`

  /** The id of the first uploaded file. It is present exactly when the top level is an
      object whose `uploaded` is a non-empty array whose first element is an object with a
      string `id`; later elements are never consulted. */
  function DecodeUploadAck(j: Json): (id: Option<string>)
    ensures id.Some? <==>
              j.JObject? && "uploaded" in j.fields && j.fields["uploaded"].JArray?
              && |j.fields["uploaded"].items| > 0
              && j.fields["uploaded"].items[0].JObject?
              && "id" in j.fields["uploaded"].items[0].fields
              && j.fields["uploaded"].items[0].fields["id"].JString?
    ensures id.Some? ==> id.value == j.fields["uploaded"].items[0].fields["id"].s
  {
    var responseJSON :- AsObject(j);
    var uploaded :- Lookup(responseJSON, "uploaded");
    var uploadedFiles :- AsArray(uploaded);
    var first :- First(uploadedFiles);
    var firstFile :- AsObject(first);
    var firstFileID :- Lookup(firstFile, "id");
    AsString(firstFileID)
  }

  /** The acknowledgement the service sends, its first file carrying `id`. */
  function AckResponse(id: string, moreFiles: seq<Json>): Json {
    JObject(map["uploaded" := JArray([JObject(map["id" := JString(id)])] + moreFiles)])
  }

  lemma AckRoundTrip(id: string, moreFiles: seq<Json>)
    ensures DecodeUploadAck(AckResponse(id, moreFiles)) == Some(id)
  {
  }

  // ---------------------------------------------------------------------------
  // Tag list: `{"results": [{"tags": [{"tag": "<string>", ...}, ...]}, ...]}`

  /** The shape the tag decoder demands: `results` is a non-empty array whose first
      element is an object holding a `tags` array of objects only. */
  predicate TagsShaped(j: Json) {
    j.JObject? && "results" in j.fields && j.fields["results"].JArray?
    && |j.fields["results"].items| > 0
    && j.fields["results"].items[0].JObject?
    && "tags" in j.fields["results"].items[0].fields
    && j.fields["results"].items[0].fields["tags"].JArray?
    && AllObjects(j.fields["results"].items[0].fields["tags"].items)
  }

  function TagList(j: Json): seq<Json>
    requires TagsShaped(j)
  {
    j.fields["results"].items[0].fields["tags"].items
  }

  /** The guard chain of the tag handler; `results.first` is not cast, and the `tags`
      subscript on it answers only when it is a dictionary. */
  function TagEntries(j: Json): (entries: Option<seq<Json>>)
    ensures entries.Some? <==> TagsShaped(j)
    ensures entries.Some? ==> entries.value == TagList(j)
  {
    var responseJSON :- AsObject(j);
    var resultsValue :- Lookup(responseJSON, "results");
    var results :- AsArray(resultsValue);
    var firstResult :- First(results);
    var tagsValue :- KeyedSubscript(firstResult, "tags");
    AsObjectArray(tagsValue)
  }

  /** `dict[key] as? String` succeeds. */
  predicate HasString(dict: map<string, Json>, key: string) {
    key in dict && dict[key].JString?
  }

  /** `dict["tag"] as? String` */
  function TagOf(dict: map<string, Json>): (tag: Option<string>)
    ensures tag.Some? <==> HasString(dict, "tag")
    ensures tag.Some? ==> tag.value == dict["tag"].s
  {
    var tagValue :- Lookup(dict, "tag");
    AsString(tagValue)
  }

  /** The tags passed to the tag handler's completion: empty on a transport failure or on
      any break in the expected shape, otherwise the string `tag` of each entry in order. */
  function DownloadTags(response: Response): (tags: seq<string>)
    ensures response.Failure? ==> tags == []
    ensures response.Success? && !TagsShaped(response.value) ==> tags == []
    ensures response.Success? && TagsShaped(response.value) ==>
              tags == FlatMap(TagList(response.value), TagOf)
  {
    match response
    case Failure => []
    case Success(j) =>
      match TagEntries(j)
      case None => []
      case Some(entries) => FlatMap(entries, TagOf)
  }

  /** The tag list the service sends: one entry per tag, in the service's order. */
  function TagsResponse(tags: seq<string>): (j: Json)
    ensures TagsShaped(j) && |TagList(j)| == |tags|
  {
    var entries := seq(|tags|, i requires 0 <= i < |tags| => JObject(map["tag" := JString(tags[i])]));
    JObject(map["results" := JArray([JObject(map["tags" := JArray(entries)])])])
  }

  lemma TagsRoundTrip(tags: seq<string>)
    ensures DownloadTags(Success(TagsResponse(tags))) == tags
  {
    var entries := TagList(TagsResponse(tags));
    assert forall i :: 0 <= i < |entries| ==> TagOf(entries[i].fields) == Some(tags[i]);
    FlatMapComplete(entries, TagOf);
  }

  // ---------------------------------------------------------------------------
  // Colour list:
  // `{"results": [{"info": {"image_colors": [{"r": "<int>", "g": .., "b": ..,
  //   "closest_palette_color": "<string>"}, ...]}}, ...]}`

  /** The shape the colour decoder demands along `results[0].info.image_colors`, with
      every element of `image_colors` an object. */
  predicate ColorsShaped(j: Json) {
    j.JObject? && "results" in j.fields && j.fields["results"].JArray?
    && |j.fields["results"].items| > 0
    && j.fields["results"].items[0].JObject?
    && "info" in j.fields["results"].items[0].fields
    && j.fields["results"].items[0].fields["info"].JObject?
    && "image_colors" in j.fields["results"].items[0].fields["info"].fields
    && j.fields["results"].items[0].fields["info"].fields["image_colors"].JArray?
    && AllObjects(j.fields["results"].items[0].fields["info"].fields["image_colors"].items)
  }

  function ColorList(j: Json): seq<Json>
    requires ColorsShaped(j)
  {
    j.fields["results"].items[0].fields["info"].fields["image_colors"].items
  }

  /** The guard chain of the colour handler. */
  function ColorEntries(j: Json): (entries: Option<seq<Json>>)
    ensures entries.Some? <==> ColorsShaped(j)
    ensures entries.Some? ==> entries.value == ColorList(j)
  {
    var responseJSON :- AsObject(j);
    var resultsValue :- Lookup(responseJSON, "results");
    var results :- AsArray(resultsValue);
    var first :- First(results);
    var firstResult :- AsObject(first);
    var infoValue :- Lookup(firstResult, "info");
    var info :- AsObject(infoValue);
    var imageColors :- Lookup(info, "image_colors");
    AsObjectArray(imageColors)
  }

  /** One colour entry: kept exactly when `r`, `g`, `b` and `closest_palette_color` are all
      strings; the channels are then the integer parses of those strings (absent where the
      text is not a numeral) and the name is the palette colour, unchanged. */
  function ColorOf(dict: map<string, Json>): (c: Option<PhotoColor>)
    ensures c.Some? <==>
              HasString(dict, "r") && HasString(dict, "g") && HasString(dict, "b")
              && HasString(dict, "closest_palette_color")
    ensures c.Some? ==>
              c.value.red == ParseInt(dict["r"].s) && c.value.green == ParseInt(dict["g"].s)
              && c.value.blue == ParseInt(dict["b"].s)
              && c.value.colorName == dict["closest_palette_color"].s
  {
    var rValue :- Lookup(dict, "r");
    var r :- AsString(rValue);
    var gValue :- Lookup(dict, "g");
    var g :- AsString(gValue);
    var bValue :- Lookup(dict, "b");
    var b :- AsString(bValue);
    var nameValue :- Lookup(dict, "closest_palette_color");
    var closestPaletteColor :- AsString(nameValue);
    Some(PhotoColor(ParseInt(r), ParseInt(g), ParseInt(b), closestPaletteColor))
  }

  /** The colours passed to the colour handler's completion: empty on a transport failure
      or on any break in the expected shape, otherwise one colour per complete entry. */
  function DownloadColors(response: Response): (colors: seq<PhotoColor>)
    ensures response.Failure? ==> colors == []
    ensures response.Success? && !ColorsShaped(response.value) ==> colors == []
    ensures response.Success? && ColorsShaped(response.value) ==>
              colors == FlatMap(ColorList(response.value), ColorOf)
  {
    match response
    case Failure => []
    case Success(j) =>
      match ColorEntries(j)
      case None => []
      case Some(entries) => FlatMap(entries, ColorOf)
  }

  /** A colour as the service describes it. */
  datatype PaletteColor = PaletteColor(r: int, g: int, b: int, name: string)

  function ColorEntry(p: PaletteColor): Json {
    JObject(map[
      "r" := JString(FormatInt(p.r)),
      "g" := JString(FormatInt(p.g)),
      "b" := JString(FormatInt(p.b)),
      "closest_palette_color" := JString(p.name)])
  }

  /** The colour list the service sends, one entry per colour, in the service's order. */
  function ColorsResponse(palette: seq<PaletteColor>): (j: Json)
    ensures ColorsShaped(j) && |ColorList(j)| == |palette|
  {
    var entries := seq(|palette|, i requires 0 <= i < |palette| => ColorEntry(palette[i]));
    JObject(map["results" := JArray([
      JObject(map["info" := JObject(map["image_colors" := JArray(entries)])])])])
  }

  predicate InIntRange(p: PaletteColor) {
    IntMin <= p.r <= IntMax && IntMin <= p.g <= IntMax && IntMin <= p.b <= IntMax
  }

  lemma ColorEntryDecodes(p: PaletteColor)
    requires InIntRange(p)
    ensures ColorOf(ColorEntry(p).fields) == Some(PhotoColor(Some(p.r), Some(p.g), Some(p.b), p.name))
  {
    ParseFormatRoundTrip(p.r);
    ParseFormatRoundTrip(p.g);
    ParseFormatRoundTrip(p.b);
  }

  /** Every colour the service sends comes back, in order, with its channels read back
      exactly and its palette name unchanged. */
  lemma ColorsRoundTrip(palette: seq<PaletteColor>)
    requires forall i :: 0 <= i < |palette| ==> InIntRange(palette[i])
    ensures var colors := DownloadColors(Success(ColorsResponse(palette)));
            |colors| == |palette|
            && forall i :: 0 <= i < |palette| ==>
                 colors[i] == PhotoColor(Some(palette[i].r), Some(palette[i].g),
                                         Some(palette[i].b), palette[i].name)
  {
    var entries := ColorList(ColorsResponse(palette));
    forall i | 0 <= i < |entries|
      ensures ColorOf(entries[i].fields) == Some(PhotoColor(Some(palette[i].r),
                Some(palette[i].g), Some(palette[i].b), palette[i].name))
    {
      assert entries[i] == ColorEntry(palette[i]);
      ColorEntryDecodes(palette[i]);
    }
    FlatMapComplete(entries, ColorOf);
  }

  // ---------------------------------------------------------------------------
  // A worked example

  function ExampleTags(): Json {
    JObject(map["results" := JArray([JObject(map["tags" := JArray([
      JObject(map["tag" := JString("cat")]),
      JObject(map["tag" := JString("grass")]),
      JObject(map["bogus" := JNumber(1.0)])])])])])
  }

  function ExampleColors(): Json {
    JObject(map["results" := JArray([JObject(map["info" := JObject(map["image_colors" := JArray([
      JObject(map["r" := JString("10"), "g" := JString("20"), "b" := JString("30"),
                  "closest_palette_color" := JString("forest")]),
      JObject(map["r" := JString("x"), "g" := JString("1"), "b" := JString("2"),
                  "closest_palette_color" := JString("bad")])])])])])])
  }

  /** The entry without a `tag` is skipped. */
  lemma ExampleTagsDecode()
    ensures DownloadTags(Success(ExampleTags())) == ["cat", "grass"]
  {
    var entries := TagList(ExampleTags());
    FlatMapAppend(entries[..2], entries[2..], TagOf);
    assert entries[..2] + entries[2..] == entries;
    FlatMapComplete(entries[..2], TagOf);
    assert entries[2..][1..] == [];
  }

  /** The entry whose red channel is not a numeral is kept, with no red value. */
  lemma ExampleColorsDecode()
    ensures DownloadColors(Success(ExampleColors()))
            == [PhotoColor(Some(10), Some(20), Some(30), "forest"),
                PhotoColor(None, Some(1), Some(2), "bad")]
  {
    var entries := ColorList(ExampleColors());
    SmallNumerals();
    assert ParseInt("x") == None by {
      ParseRejectsNonDigit("x", 0);
    }
    assert ColorOf(entries[0].fields) == Some(PhotoColor(Some(10), Some(20), Some(30), "forest"));
    assert ColorOf(entries[1].fields) == Some(PhotoColor(None, Some(1), Some(2), "bad"));
    FlatMapComplete(entries, ColorOf);
  }
}
