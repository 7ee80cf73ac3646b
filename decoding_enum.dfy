/** The first draft of tag-dispatched decoding: a record's "type" field picks
    the payload type from a fixed registry, the whole record is decoded as
    that type, and the (tag, payload) pair is turned into the sum type. */
module DecodingEnum {
  import opened Wrappers
  import opened Json
  import opened JsonDecoder
  import opened AssociatedDataTypeEnum

  /** `MyDecodedEnum.cases`: the payload type registered for each tag. */
  const Cases: map<DataTypeString, PayloadType> :=
    map[Image := DataImageType, Video := DataVideoType, Article := DataArticleType, Opinion := DataOpinionType]

  /** The registry has an entry for every tag, so the forced lookup
      `cases[type]!` never traps, and each entry is the payload type the sum
      type declares for that tag. */
  lemma CasesIsExhaustive(t: DataTypeString)
    ensures t in Cases && Cases[t] == CaseType(t)
  {
  }

  datatype MyDecodedEnum = MyDecodedEnum(tag: DataTypeString, anyValue: AnyPayload)

  /** The payload has the type the registry gives for the tag. */
  predicate IsConsistent(d: MyDecodedEnum) {
    d.tag in Cases && TypeOf(d.anyValue) == Cases[d.tag]
  }

  /** The outcome of `container.decode(DataTypeString.self, forKey: .type)`. */
  function ReadTag(path: CodingPath, fields: seq<(string, Json)>): Decoded<DataTypeString> {
    DecodeKey(KeyedContainer(path, fields), "type", DataTypeStringType)
  }

  /** Reading the tag in JSON terms: the key must be present and hold one of
      the four raw values; a missing key and an invalid value each give their
      own error, at the record's path and at the "type" key respectively. */
  lemma ReadTagInJsonTerms(path: CodingPath, fields: seq<(string, Json)>)
    ensures ReadTag(path, fields).Success? <==>
              Lookup(fields, "type").Some? && Lookup(fields, "type").value.Str? &&
              FromRawValue(Lookup(fields, "type").value.s).Some?
    ensures ReadTag(path, fields).Success? ==>
              RawValue(ReadTag(path, fields).value) == Lookup(fields, "type").value.s
    ensures Lookup(fields, "type").None? ==>
              ReadTag(path, fields) == Failure(MissingKey(KeyedContainer(path, fields), "type"))
    ensures Lookup(fields, "type").Some? && Lookup(fields, "type").value.Str? &&
            FromRawValue(Lookup(fields, "type").value.s).None? ==>
              ReadTag(path, fields) == Failure(InvalidTag(path + [Key("type")], Lookup(fields, "type").value.s))
  {
  }

  /** `MyDecodedEnum.init(from:)`. A value that is not an object and a tag
      that cannot be read are rethrown unchanged; otherwise the whole record,
      at the same path, is decoded as the registry's type for the tag, and a
      payload failure propagates. A decoded value is always consistent. */
  function Decode(path: CodingPath, j: Json): (r: Decoded<MyDecodedEnum>)
    ensures r.Success? ==> IsConsistent(r.value)
    ensures !j.Obj? ==> r == Failure(Container(path, j).error)
    ensures j.Obj? && ReadTag(path, j.fields).Failure? ==> r == Failure(ReadTag(path, j.fields).error)
    ensures j.Obj? && ReadTag(path, j.fields).Success? ==>
              var tag := ReadTag(path, j.fields).value;
              var payload := DecodePayload(CaseType(tag), path, j);
              (r.Success? <==> payload.Success?) &&
              (r.Success? ==> r.value == MyDecodedEnum(tag, payload.value)) &&
              (r.Failure? ==> r.error == payload.error)
  {
    var container :- Container(path, j);
    var tag :- DecodeKey(container, "type", DataTypeStringType);
    CasesIsExhaustive(tag);
    var dataType := Cases[tag];
    var anyValue :- DecodePayload(dataType, path, j);
    Success(MyDecodedEnum(tag, anyValue))
  }

  const MyDecodedEnumType: Decodable<MyDecodedEnum> := Decodable("MyDecodedEnum", Decode)

  /** `AssociatedDataTypeEnum.init(other:)`: the case named by the tag, holding
      the payload. The cast `other.value()` is the destructor of the payload's
      case, so consistency is exactly what makes it succeed. */
  function EnumFromOther(other: MyDecodedEnum): (e: AssociatedDataTypeEnum)
    requires IsConsistent(other)
    ensures Tag(e) == other.tag
    ensures Payload(e) == other.anyValue
  {
    match other.tag
    case Image => ImageCase(other.anyValue.image)
    case Video => VideoCase(other.anyValue.video)
    case Article => ArticleCase(other.anyValue.article)
    case Opinion => OpinionCase(other.anyValue.opinion)
  }

  /** `.map { AssociatedDataTypeEnum(other: $0) }` */
  function EnumsFromOthers(records: seq<MyDecodedEnum>): (es: seq<AssociatedDataTypeEnum>)
    requires forall i :: 0 <= i < |records| ==> IsConsistent(records[i])
    ensures |es| == |records|
    ensures forall i :: 0 <= i < |records| ==> Tag(es[i]) == records[i].tag && Payload(es[i]) == records[i].anyValue
  {
    seq(|records|, i requires 0 <= i < |records| => EnumFromOther(records[i]))
  }

  /** `JSONDecoder().decode([MyDecodedEnum].self, …).map { AssociatedDataTypeEnum(other: $0) }` */
  function DecodeFeed(path: CodingPath, j: Json): (r: Decoded<seq<AssociatedDataTypeEnum>>)
    ensures r.Success? <==> DecodeArray(MyDecodedEnumType, path, j).Success?
    ensures r.Success? ==> r.value == EnumsFromOthers(DecodeArray(MyDecodedEnumType, path, j).value)
    ensures r.Failure? ==> r.error == DecodeArray(MyDecodedEnumType, path, j).error
  {
    var records :- DecodeArray(MyDecodedEnumType, path, j);
    Success(EnumsFromOthers(records))
  }

  /** The decoded record at index `i` of a feed. */
  function DecodeElement(path: CodingPath, elems: seq<Json>, i: nat): Decoded<MyDecodedEnum>
    requires i < |elems|
  {
    Decode(path + [Index(i)], elems[i])
  }

  /** A feed fails as a whole when any record fails, with the error of the
      first failing record; otherwise it holds one sum value per record, in
      input order, each carrying that record's tag and payload. */
  lemma FeedIsAllOrNothing(path: CodingPath, j: Json)
    ensures DecodeFeed(path, j).Success? <==>
              j.Arr? && forall i :: 0 <= i < |j.elems| ==> DecodeElement(path, j.elems, i).Success?
    ensures DecodeFeed(path, j).Success? ==>
              var es := DecodeFeed(path, j).value;
              |es| == |j.elems| &&
              forall i :: 0 <= i < |j.elems| ==>
                Tag(es[i]) == DecodeElement(path, j.elems, i).value.tag &&
                Payload(es[i]) == DecodeElement(path, j.elems, i).value.anyValue
    ensures j.Arr? && DecodeFeed(path, j).Failure? ==>
              exists i :: 0 <= i < |j.elems| && DecodeElement(path, j.elems, i) == Failure(DecodeFeed(path, j).error) &&
                          forall i' :: 0 <= i' < i ==> DecodeElement(path, j.elems, i').Success?
    ensures !j.Arr? ==> DecodeFeed(path, j).Failure?
  {
    if j.Arr? {
      assert forall i :: 0 <= i < |j.elems| ==>
        DecodeElement(path, j.elems, i) == DecodeAt(MyDecodedEnumType, path, j.elems, i);
    }
  }

  /** A record of each shape decodes to its tag and its payload. */
  lemma ImageRecordIsDecoded(path: CodingPath, url: string, caption: string)
    ensures Decode(path, ImageRecord(url, caption)) == Success(MyDecodedEnum(Image, AnyImage(DataImage(url, Some(caption)))))
  {
    ImageRecordDecodes(path, url, caption);
  }

  lemma VideoRecordIsDecoded(path: CodingPath, url: string, title: string, length: string)
    ensures Decode(path, VideoRecord(url, title, length)) ==
            Success(MyDecodedEnum(Video, AnyVideo(DataVideo(url, Some(title), Some(length)))))
  {
    VideoRecordDecodes(path, url, title, length);
  }

  lemma ArticleRecordIsDecoded(path: CodingPath, url: string, title: string, content: string)
    ensures Decode(path, ArticleRecord(url, title, content)) ==
            Success(MyDecodedEnum(Article, AnyArticle(DataArticle(url, Some(title), Some(content)))))
  {
    ArticleRecordDecodes(path, url, title, content);
  }

  lemma OpinionRecordIsDecoded(path: CodingPath, url: string, title: string, content: string)
    ensures Decode(path, OpinionRecord(url, title, content)) ==
            Success(MyDecodedEnum(Opinion, AnyOpinion(DataOpinion(url, Some(title), Some(content)))))
  {
    OpinionRecordDecodes(path, url, title, content);
  }

  /** Decoding one record of the sample feed. */
  lemma SampleElementDecodes(i: nat)
    requires i < 5
    ensures DecodeElement([], SampleArray.elems, i) == Success(MyDecodedEnum(Tag(SampleRecords[i]), Payload(SampleRecords[i])))
  {
    var path := [] + [Index(i)];
    var e := SampleArray.elems[i];
    var v := MyDecodedEnum(Tag(SampleRecords[i]), Payload(SampleRecords[i]));
    if i == 0 {
      assert e == ImageRecord(SampleUrl, "foof") && v == MyDecodedEnum(Image, AnyImage(DataImage(SampleUrl, Some("foof"))));
      ImageRecordIsDecoded(path, SampleUrl, "foof");
    } else if i == 1 {
      assert e == VideoRecord(SampleUrl, "foof", "5m") &&
             v == MyDecodedEnum(Video, AnyVideo(DataVideo(SampleUrl, Some("foof"), Some("5m"))));
      VideoRecordIsDecoded(path, SampleUrl, "foof", "5m");
    } else if i == 2 {
      assert e == ArticleRecord(SampleUrl, "foof", "asdfadsdf") &&
             v == MyDecodedEnum(Article, AnyArticle(DataArticle(SampleUrl, Some("foof"), Some("asdfadsdf"))));
      ArticleRecordIsDecoded(path, SampleUrl, "foof", "asdfadsdf");
    } else if i == 3 {
      assert e == OpinionRecord(SampleUrl, "foof", "asdfadsdf") &&
             v == MyDecodedEnum(Opinion, AnyOpinion(DataOpinion(SampleUrl, Some("foof"), Some("asdfadsdf"))));
      OpinionRecordIsDecoded(path, SampleUrl, "foof", "asdfadsdf");
    } else {
      assert e == ImageRecord(SampleUrl, "foof") && v == MyDecodedEnum(Image, AnyImage(DataImage(SampleUrl, Some("foof"))));
      ImageRecordIsDecoded(path, SampleUrl, "foof");
    }
  }

  /** The sample feed decodes to five values tagged image, video, article,
      opinion and image, in that order. */
  lemma SampleFeedDecodes()
    ensures DecodeFeed([], SampleArray) == Success(SampleRecords)
  {
    forall i | 0 <= i < 5 ensures DecodeElement([], SampleArray.elems, i).Success? {
      SampleElementDecodes(i);
    }
    FeedIsAllOrNothing([], SampleArray);
    var es := DecodeFeed([], SampleArray).value;
    assert |es| == |SampleRecords|;
    forall i | 0 <= i < 5 ensures es[i] == SampleRecords[i] {
      SampleElementDecodes(i);
      TagAndPayloadDetermineCase(es[i], SampleRecords[i]);
    }
    assert es == SampleRecords;
  }
}
