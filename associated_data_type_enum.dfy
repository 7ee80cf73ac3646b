/** The payload records of the polymorphic feed, the tag that distinguishes
    them, and the closed sum type they are gathered into. */
module AssociatedDataTypeEnum {
  import opened Wrappers
  import opened Json
  import opened JsonDecoder

  datatype DataImage = DataImage(url: string, caption: Option<string>)
  datatype DataVideo = DataVideo(url: string, title: Option<string>, length: Option<string>)
  datatype DataArticle = DataArticle(url: string, title: Option<string>, content: Option<string>)
  datatype DataOpinion = DataOpinion(url: string, title: Option<string>, content: Option<string>)

  // ---------------------------------------------------------------- payload decoders
  // The synthesised `init(from:)`: `url` is a required string, the other
  // fields optional strings, and unknown keys (such as "type") are ignored.

  function DecodeDataImage(path: CodingPath, j: Json): (r: Decoded<DataImage>)
    ensures r.Success? <==> j.Obj? && IsStringAt(j.fields, "url") && IsOptionalStringAt(j.fields, "caption")
    ensures r.Success? ==>
              r.value == DataImage(Lookup(j.fields, "url").value.s, OptionalStringAt(j.fields, "caption"))
    ensures j.Obj? && Lookup(j.fields, "url").None? ==>
              r == Failure(MissingKey(KeyedContainer(path, j.fields), "url"))
  {
    var c :- Container(path, j);
    var url :- DecodeStringKey(c, "url");
    var caption :- DecodeOptionalStringKey(c, "caption");
    Success(DataImage(url, caption))
  }

  function DecodeDataVideo(path: CodingPath, j: Json): (r: Decoded<DataVideo>)
    ensures r.Success? <==> j.Obj? && IsStringAt(j.fields, "url") &&
                            IsOptionalStringAt(j.fields, "title") && IsOptionalStringAt(j.fields, "length")
    ensures r.Success? ==>
              r.value == DataVideo(Lookup(j.fields, "url").value.s,
                                   OptionalStringAt(j.fields, "title"), OptionalStringAt(j.fields, "length"))
    ensures j.Obj? && Lookup(j.fields, "url").None? ==>
              r == Failure(MissingKey(KeyedContainer(path, j.fields), "url"))
  {
    var c :- Container(path, j);
    var url :- DecodeStringKey(c, "url");
    var title :- DecodeOptionalStringKey(c, "title");
    var length :- DecodeOptionalStringKey(c, "length");
    Success(DataVideo(url, title, length))
  }

  function DecodeDataArticle(path: CodingPath, j: Json): (r: Decoded<DataArticle>)
    ensures r.Success? <==> j.Obj? && IsStringAt(j.fields, "url") &&
                            IsOptionalStringAt(j.fields, "title") && IsOptionalStringAt(j.fields, "content")
    ensures r.Success? ==>
              r.value == DataArticle(Lookup(j.fields, "url").value.s,
                                     OptionalStringAt(j.fields, "title"), OptionalStringAt(j.fields, "content"))
    ensures j.Obj? && Lookup(j.fields, "url").None? ==>
              r == Failure(MissingKey(KeyedContainer(path, j.fields), "url"))
  {
    var c :- Container(path, j);
    var url :- DecodeStringKey(c, "url");
    var title :- DecodeOptionalStringKey(c, "title");
    var content :- DecodeOptionalStringKey(c, "content");
    Success(DataArticle(url, title, content))
  }

  function DecodeDataOpinion(path: CodingPath, j: Json): (r: Decoded<DataOpinion>)
    ensures r.Success? <==> j.Obj? && IsStringAt(j.fields, "url") &&
                            IsOptionalStringAt(j.fields, "title") && IsOptionalStringAt(j.fields, "content")
    ensures r.Success? ==>
              r.value == DataOpinion(Lookup(j.fields, "url").value.s,
                                     OptionalStringAt(j.fields, "title"), OptionalStringAt(j.fields, "content"))
    ensures j.Obj? && Lookup(j.fields, "url").None? ==>
              r == Failure(MissingKey(KeyedContainer(path, j.fields), "url"))
  {
    var c :- Container(path, j);
    var url :- DecodeStringKey(c, "url");
    var title :- DecodeOptionalStringKey(c, "title");
    var content :- DecodeOptionalStringKey(c, "content");
    Success(DataOpinion(url, title, content))
  }

  /** An article and an opinion are read from the same JSON in the same way:
      only the tag tells them apart. */
  lemma ArticleAndOpinionShareShape(path: CodingPath, j: Json)
    ensures DecodeDataArticle(path, j).Success? <==> DecodeDataOpinion(path, j).Success?
    ensures DecodeDataArticle(path, j).Success? ==>
              var a := DecodeDataArticle(path, j).value;
              DecodeDataOpinion(path, j).value == DataOpinion(a.url, a.title, a.content)
  {
  }

  // ---------------------------------------------------------------- the tag

  datatype DataTypeString = Image | Video | Article | Opinion

  function FromRawValue(s: string): (t: Option<DataTypeString>)
    ensures t.Some? <==> s == "image" || s == "video" || s == "article" || s == "opinion"
  {
    match s
    case "image" => Some(Image)
    case "video" => Some(Video)
    case "article" => Some(Article)
    case "opinion" => Some(Opinion)
    case _ => None
  }

  /** The raw value of each case is its name, and reading it back gives the case. */
  function RawValue(t: DataTypeString): (s: string)
    ensures FromRawValue(s) == Some(t)
  {
    match t
    case Image => "image"
    case Video => "video"
    case Article => "article"
    case Opinion => "opinion"
  }

  lemma FromRawValueInvertsRawValue(s: string)
    ensures FromRawValue(s).Some? ==> RawValue(FromRawValue(s).value) == s
  {
  }

  function InvalidTag(path: CodingPath, raw: string): DecodingError {
    DataCorrupted(Context(path, "Cannot initialize DataTypeString from invalid String value " + raw))
  }

  /** The synthesised decoder of a `String`-backed enum: a string that is one
      of the four raw values; a string that is not is corrupted data; a value
      that is not a string fails as `String` does. */
  function DecodeDataTypeString(path: CodingPath, j: Json): (r: Decoded<DataTypeString>)
    ensures r.Success? <==> j.Str? && FromRawValue(j.s).Some?
    ensures r.Success? ==> RawValue(r.value) == j.s
    ensures j.Str? && FromRawValue(j.s).None? ==> r == Failure(InvalidTag(path, j.s))
    ensures !j.Str? ==> r == Failure(DecodeString(path, j).error)
  {
    var raw :- DecodeString(path, j);
    match FromRawValue(raw)
    case Some(t) => FromRawValueInvertsRawValue(raw); Success(t)
    case None => Failure(InvalidTag(path, raw))
  }

  const DataTypeStringType: Decodable<DataTypeString> := Decodable("DataTypeString", DecodeDataTypeString)

  // ---------------------------------------------------------------- the sum type

  datatype AssociatedDataTypeEnum =
    | ImageCase(image: DataImage)
    | VideoCase(video: DataVideo)
    | ArticleCase(article: DataArticle)
    | OpinionCase(opinion: DataOpinion)

  /** The case's name, as a tag. */
  function Tag(e: AssociatedDataTypeEnum): DataTypeString {
    match e
    case ImageCase(_) => Image
    case VideoCase(_) => Video
    case ArticleCase(_) => Article
    case OpinionCase(_) => Opinion
  }

  // ---------------------------------------------------------------- decodable payloads
  // The existential `Decodable` and the metatypes `Decodable.Type` that the
  // dispatching decoders use, closed over the four payload records.

  datatype PayloadType = DataImageType | DataVideoType | DataArticleType | DataOpinionType

  datatype AnyPayload =
    | AnyImage(image: DataImage)
    | AnyVideo(video: DataVideo)
    | AnyArticle(article: DataArticle)
    | AnyOpinion(opinion: DataOpinion)

  /** The dynamic type of a payload. */
  function TypeOf(v: AnyPayload): PayloadType {
    match v
    case AnyImage(_) => DataImageType
    case AnyVideo(_) => DataVideoType
    case AnyArticle(_) => DataArticleType
    case AnyOpinion(_) => DataOpinionType
  }

  /** The payload type each case of the sum type is declared with. */
  function CaseType(t: DataTypeString): (pt: PayloadType)
    ensures CaseTag(pt) == t
  {
    match t
    case Image => DataImageType
    case Video => DataVideoType
    case Article => DataArticleType
    case Opinion => DataOpinionType
  }

  /** The case declared with a payload type. */
  function CaseTag(pt: PayloadType): (t: DataTypeString) {
    match pt
    case DataImageType => Image
    case DataVideoType => Video
    case DataArticleType => Article
    case DataOpinionType => Opinion
  }

  /** A case's associated value, seen as a decodable payload; its type is the
      one the case is declared with. */
  function Payload(e: AssociatedDataTypeEnum): (v: AnyPayload)
    ensures TypeOf(v) == CaseType(Tag(e))
  {
    match e
    case ImageCase(x) => AnyImage(x)
    case VideoCase(x) => AnyVideo(x)
    case ArticleCase(x) => AnyArticle(x)
    case OpinionCase(x) => AnyOpinion(x)
  }

  /** A sum value is determined by its tag and its payload. */
  lemma TagAndPayloadDetermineCase(e1: AssociatedDataTypeEnum, e2: AssociatedDataTypeEnum)
    ensures Tag(e1) == Tag(e2) && Payload(e1) == Payload(e2) ==> e1 == e2
  {
  }

  /** `pt.init(from: decoder)`: decodes with the record decoder of `pt`, with
      the same success, value and error; whatever it yields has dynamic type `pt`. */
  function DecodePayload(pt: PayloadType, path: CodingPath, j: Json): (r: Decoded<AnyPayload>)
    ensures r.Success? ==> TypeOf(r.value) == pt
    ensures pt == DataImageType ==>
              (r.Success? <==> DecodeDataImage(path, j).Success?) &&
              (r.Success? ==> r.value == AnyImage(DecodeDataImage(path, j).value)) &&
              (r.Failure? ==> r.error == DecodeDataImage(path, j).error)
    ensures pt == DataVideoType ==>
              (r.Success? <==> DecodeDataVideo(path, j).Success?) &&
              (r.Success? ==> r.value == AnyVideo(DecodeDataVideo(path, j).value)) &&
              (r.Failure? ==> r.error == DecodeDataVideo(path, j).error)
    ensures pt == DataArticleType ==>
              (r.Success? <==> DecodeDataArticle(path, j).Success?) &&
              (r.Success? ==> r.value == AnyArticle(DecodeDataArticle(path, j).value)) &&
              (r.Failure? ==> r.error == DecodeDataArticle(path, j).error)
    ensures pt == DataOpinionType ==>
              (r.Success? <==> DecodeDataOpinion(path, j).Success?) &&
              (r.Success? ==> r.value == AnyOpinion(DecodeDataOpinion(path, j).value)) &&
              (r.Failure? ==> r.error == DecodeDataOpinion(path, j).error)
  {
    match pt
    case DataImageType =>
      var x :- DecodeDataImage(path, j);
      Success(AnyImage(x))
    case DataVideoType =>
      var x :- DecodeDataVideo(path, j);
      Success(AnyVideo(x))
    case DataArticleType =>
      var x :- DecodeDataArticle(path, j);
      Success(AnyArticle(x))
    case DataOpinionType =>
      var x :- DecodeDataOpinion(path, j);
      Success(AnyOpinion(x))
  }

  // ---------------------------------------------------------------- sample feed

  function ImageRecord(url: string, caption: string): Json {
    Obj([("type", Str("image")), ("url", Str(url)), ("caption", Str(caption))])
  }

  function VideoRecord(url: string, title: string, length: string): Json {
    Obj([("type", Str("video")), ("url", Str(url)), ("title", Str(title)), ("length", Str(length))])
  }

  function ArticleRecord(url: string, title: string, content: string): Json {
    Obj([("type", Str("article")), ("url", Str(url)), ("title", Str(title)), ("content", Str(content))])
  }

  function OpinionRecord(url: string, title: string, content: string): Json {
    Obj([("type", Str("opinion")), ("url", Str(url)), ("title", Str(title)), ("content", Str(content))])
  }

  /** A tagged record of each shape carries its tag and decodes as its payload. */
  lemma ImageRecordDecodes(path: CodingPath, url: string, caption: string)
    ensures Lookup(ImageRecord(url, caption).fields, "type") == Some(Str("image"))
    ensures DecodeDataImage(path, ImageRecord(url, caption)) == Success(DataImage(url, Some(caption)))
  {
    var f := ImageRecord(url, caption).fields;
    LookupFirst(f, 0);
    LookupFirst(f, 1);
    LookupFirst(f, 2);
  }

  lemma VideoRecordDecodes(path: CodingPath, url: string, title: string, length: string)
    ensures Lookup(VideoRecord(url, title, length).fields, "type") == Some(Str("video"))
    ensures DecodeDataVideo(path, VideoRecord(url, title, length)) == Success(DataVideo(url, Some(title), Some(length)))
  {
    var f := VideoRecord(url, title, length).fields;
    LookupFirst(f, 0);
    LookupFirst(f, 1);
    LookupFirst(f, 2);
    LookupFirst(f, 3);
  }

  lemma ArticleRecordDecodes(path: CodingPath, url: string, title: string, content: string)
    ensures Lookup(ArticleRecord(url, title, content).fields, "type") == Some(Str("article"))
    ensures DecodeDataArticle(path, ArticleRecord(url, title, content)) ==
            Success(DataArticle(url, Some(title), Some(content)))
  {
    var f := ArticleRecord(url, title, content).fields;
    LookupFirst(f, 0);
    LookupFirst(f, 1);
    LookupFirst(f, 2);
    LookupFirst(f, 3);
  }

  lemma OpinionRecordDecodes(path: CodingPath, url: string, title: string, content: string)
    ensures Lookup(OpinionRecord(url, title, content).fields, "type") == Some(Str("opinion"))
    ensures DecodeDataOpinion(path, OpinionRecord(url, title, content)) ==
            Success(DataOpinion(url, Some(title), Some(content)))
  {
    var f := OpinionRecord(url, title, content).fields;
    LookupFirst(f, 0);
    LookupFirst(f, 1);
    LookupFirst(f, 2);
    LookupFirst(f, 3);
  }

  const SampleUrl: string := "http://placekitten.com/200/300"

  /** `arrayOfDataObjectsString()`, as the tree its JSON text parses to. */
  const SampleArray: Json := Arr([
    ImageRecord(SampleUrl, "foof"),
    VideoRecord(SampleUrl, "foof", "5m"),
    ArticleRecord(SampleUrl, "foof", "asdfadsdf"),
    OpinionRecord(SampleUrl, "foof", "asdfadsdf"),
    ImageRecord(SampleUrl, "foof")
  ])

  /** The payloads of the sample feed, in order. */
  const SampleRecords: seq<AssociatedDataTypeEnum> := [
    ImageCase(DataImage(SampleUrl, Some("foof"))),
    VideoCase(DataVideo(SampleUrl, Some("foof"), Some("5m"))),
    ArticleCase(DataArticle(SampleUrl, Some("foof"), Some("asdfadsdf"))),
    OpinionCase(DataOpinion(SampleUrl, Some("foof"), Some("asdfadsdf"))),
    ImageCase(DataImage(SampleUrl, Some("foof")))
  ]
}
