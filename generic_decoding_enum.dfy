/** The generic form of tag-dispatched decoding: `DecodingEnum<Info>` reads a
    tag of type `Info.TypeEnum`, asks `Info.associatedType(for:)` which
    payload type goes with it, decodes the whole record as that type, and
    `Info.associatedTypeEnum(for:)` turns the pair into the sum type. */
module GenericDecodingEnum {
  import opened Wrappers
  import opened Json
  import opened JsonDecoder
  import opened AssociatedDataTypeEnum
  import Draft = DecodingEnum

  /** `DecodingEnum<Info>`: the tag and the payload, as a decodable existential. */
  datatype DecodingEnum<TypeEnum> = DecodingEnum(tag: TypeEnum, anyValue: AnyPayload)

  /** The protocol `EnumDecodingInfo`: how the tag type decodes, the payload
      type for each tag, and the conversion to the sum type, whose casts may
      assume what its precondition says. */
  datatype EnumDecodingInfo<!TypeEnum, Sum> = EnumDecodingInfo(
    typeEnum: Decodable<TypeEnum>,
    associatedType: TypeEnum -> PayloadType,
    associatedTypeEnum: DecodingEnum<TypeEnum> --> Sum)

  /** The payload has the type `associatedType` gives for the tag. */
  predicate IsConsistent<TypeEnum, Sum>(info: EnumDecodingInfo<TypeEnum, Sum>, d: DecodingEnum<TypeEnum>) {
    TypeOf(d.anyValue) == info.associatedType(d.tag)
  }

  /** Every `value()` cast inside `associatedTypeEnum` succeeds on a consistent value. */
  ghost predicate CastsSucceed<TypeEnum(!new), Sum>(info: EnumDecodingInfo<TypeEnum, Sum>) {
    forall d: DecodingEnum<TypeEnum> :: IsConsistent(info, d) ==> info.associatedTypeEnum.requires(d)
  }

  /** The outcome of `container.decode(TypeEnum.self, forKey: CodingKeys.type)`. */
  function ReadTag<TypeEnum, Sum>(info: EnumDecodingInfo<TypeEnum, Sum>, path: CodingPath, fields: seq<(string, Json)>): Decoded<TypeEnum> {
    DecodeKey(KeyedContainer(path, fields), "type", info.typeEnum)
  }

  /** `DecodingEnum.init(from:)`. A value that is not an object and a tag that
      cannot be read are rethrown unchanged; otherwise the whole record, at
      the same path, is decoded as `associatedType(for: type)`, and a payload
      failure propagates. A decoded value is always consistent. */
  function Decode<TypeEnum, Sum>(info: EnumDecodingInfo<TypeEnum, Sum>, path: CodingPath, j: Json): (r: Decoded<DecodingEnum<TypeEnum>>)
    ensures r.Success? ==> IsConsistent(info, r.value)
    ensures !j.Obj? ==> r == Failure(Container(path, j).error)
    ensures j.Obj? && ReadTag(info, path, j.fields).Failure? ==> r == Failure(ReadTag(info, path, j.fields).error)
    ensures j.Obj? && ReadTag(info, path, j.fields).Success? ==>
              var tag := ReadTag(info, path, j.fields).value;
              var payload := DecodePayload(info.associatedType(tag), path, j);
              (r.Success? <==> payload.Success?) &&
              (r.Success? ==> r.value == DecodingEnum(tag, payload.value)) &&
              (r.Failure? ==> r.error == payload.error)
  {
    var container :- Container(path, j);
    var tag :- DecodeKey(container, "type", info.typeEnum);
    var dataType := info.associatedType(tag);
    var anyValue :- DecodePayload(dataType, path, j);
    Success(DecodingEnum(tag, anyValue))
  }

  function DecodingEnumType<TypeEnum, Sum>(info: EnumDecodingInfo<TypeEnum, Sum>): (t: Decodable<DecodingEnum<TypeEnum>>)
    ensures forall path, j :: t.decode(path, j) == Decode(info, path, j)
  {
    Decodable("DecodingEnum", (path, j) => Decode(info, path, j))
  }

  /** `enumValue` */
  function EnumValue<TypeEnum, Sum>(info: EnumDecodingInfo<TypeEnum, Sum>, d: DecodingEnum<TypeEnum>): Sum
    requires info.associatedTypeEnum.requires(d)
  {
    info.associatedTypeEnum(d)
  }

  /** `.map { $0.enumValue }` */
  function EnumValues<TypeEnum(!new), Sum>(info: EnumDecodingInfo<TypeEnum, Sum>, ds: seq<DecodingEnum<TypeEnum>>): (es: seq<Sum>)
    requires CastsSucceed(info)
    requires forall i :: 0 <= i < |ds| ==> IsConsistent(info, ds[i])
    ensures |es| == |ds|
    ensures forall i :: 0 <= i < |ds| ==> es[i] == info.associatedTypeEnum(ds[i])
  {
    seq(|ds|, i requires 0 <= i < |ds| => EnumValue(info, ds[i]))
  }

  /** `JSONDecoder().decode([MyDecodedEnum].self, …).map { $0.enumValue }`, for
      any info whose casts succeed: the array decode's outcome, each record
      mapped to its sum value. */
  function DecodeFeed<TypeEnum(!new), Sum>(info: EnumDecodingInfo<TypeEnum, Sum>, path: CodingPath, j: Json): (r: Decoded<seq<Sum>>)
    requires CastsSucceed(info)
    ensures r.Success? <==> DecodeArray(DecodingEnumType(info), path, j).Success?
    ensures r.Success? ==> r.value == EnumValues(info, DecodeArray(DecodingEnumType(info), path, j).value)
    ensures r.Failure? ==> r.error == DecodeArray(DecodingEnumType(info), path, j).error
  {
    var ds :- DecodeArray(DecodingEnumType(info), path, j);
    assert forall i :: 0 <= i < |ds| ==> IsConsistent(info, ds[i]) by {
      forall i | 0 <= i < |ds| ensures IsConsistent(info, ds[i]) {
        assert DecodeAt(DecodingEnumType(info), path, j.elems, i) == Success(ds[i]);
      }
    }
    Success(EnumValues(info, ds))
  }

  // ---------------------------------------------------------------- MyDecodingInfo

  /** `MyDecodingInfo.associatedType(for:)`: total, one payload type per tag,
      distinct for distinct tags, and the one the sum type declares. */
  function AssociatedType(t: DataTypeString): (pt: PayloadType)
    ensures pt == CaseType(t)
    ensures CaseTag(pt) == t
  {
    match t
    case Image => DataImageType
    case Video => DataVideoType
    case Article => DataArticleType
    case Opinion => DataOpinionType
  }

  /** `MyDecodingInfo.associatedTypeEnum(for:)`: the case with the tag's name,
      holding the payload; each `other.value()` cast is the destructor of the
      payload's case and needs the payload to have the tag's type. */
  function AssociatedTypeEnum(other: DecodingEnum<DataTypeString>): (e: AssociatedDataTypeEnum)
    requires TypeOf(other.anyValue) == AssociatedType(other.tag)
    ensures Tag(e) == other.tag
    ensures Payload(e) == other.anyValue
  {
    match other.tag
    case Image => ImageCase(other.anyValue.image)
    case Video => VideoCase(other.anyValue.video)
    case Article => ArticleCase(other.anyValue.article)
    case Opinion => OpinionCase(other.anyValue.opinion)
  }

  const MyDecodingInfo: EnumDecodingInfo<DataTypeString, AssociatedDataTypeEnum> :=
    EnumDecodingInfo(DataTypeStringType, AssociatedType, AssociatedTypeEnum)

  /** The casts in `MyDecodingInfo.associatedTypeEnum(for:)` never fail on a
      value built by `DecodingEnum.init(from:)`. */
  lemma MyDecodingInfoCastsSucceed()
    ensures CastsSucceed(MyDecodingInfo)
  {
    forall d: DecodingEnum<DataTypeString> | IsConsistent(MyDecodingInfo, d)
      ensures MyDecodingInfo.associatedTypeEnum.requires(d)
    {
      assert TypeOf(d.anyValue) == AssociatedType(d.tag);
    }
  }

  // ---------------------------------------------------------------- draft and generic agree

  /** The draft's registry and the generic switch give the same payload type. */
  lemma RegistryAgreesWithSwitch(t: DataTypeString)
    ensures t in Draft.Cases && Draft.Cases[t] == AssociatedType(t)
  {
    Draft.CasesIsExhaustive(t);
  }

  /** On every input the draft decoder and `DecodingEnum<MyDecodingInfo>` fail
      together with the same error, or succeed together with the same tag,
      the same payload and the same sum value. */
  lemma DraftAgreesWithGeneric(path: CodingPath, j: Json)
    ensures Draft.Decode(path, j).Success? <==> Decode(MyDecodingInfo, path, j).Success?
    ensures Draft.Decode(path, j).Failure? ==> Draft.Decode(path, j).error == Decode(MyDecodingInfo, path, j).error
    ensures Draft.Decode(path, j).Success? ==>
              var d := Draft.Decode(path, j).value;
              var g := Decode(MyDecodingInfo, path, j).value;
              d.tag == g.tag && d.anyValue == g.anyValue &&
              Draft.EnumFromOther(d) == AssociatedTypeEnum(g)
  {
    if j.Obj? {
      assert Draft.ReadTag(path, j.fields) == ReadTag(MyDecodingInfo, path, j.fields);
      var tag := ReadTag(MyDecodingInfo, path, j.fields);
      if tag.Success? {
        RegistryAgreesWithSwitch(tag.value);
        if Draft.Decode(path, j).Success? {
          var d := Draft.Decode(path, j).value;
          TagAndPayloadDetermineCase(Draft.EnumFromOther(d), AssociatedTypeEnum(Decode(MyDecodingInfo, path, j).value));
        }
      }
    }
  }

  /** The decoded record at index `i` of a feed. */
  function DecodeElement(path: CodingPath, elems: seq<Json>, i: nat): Decoded<DecodingEnum<DataTypeString>>
    requires i < |elems|
  {
    Decode(MyDecodingInfo, path + [Index(i)], elems[i])
  }

  /** `JSONDecoder().decode([MyDecodedEnum].self, …).map { $0.enumValue }`:
      fails as a whole when any record fails, with the error of the first
      failing record; otherwise one sum value per record, in input order,
      each carrying that record's tag and payload. */
  function DecodeMyFeed(path: CodingPath, j: Json): (r: Decoded<seq<AssociatedDataTypeEnum>>)
    ensures r.Success? <==> j.Arr? && forall i :: 0 <= i < |j.elems| ==> DecodeElement(path, j.elems, i).Success?
    ensures r.Success? ==>
              |r.value| == |j.elems| &&
              forall i :: 0 <= i < |j.elems| ==>
                Tag(r.value[i]) == DecodeElement(path, j.elems, i).value.tag &&
                Payload(r.value[i]) == DecodeElement(path, j.elems, i).value.anyValue
    ensures j.Arr? && r.Failure? ==>
              exists i :: 0 <= i < |j.elems| && DecodeElement(path, j.elems, i) == Failure(r.error) &&
                          forall i' :: 0 <= i' < i ==> DecodeElement(path, j.elems, i').Success?
    ensures !j.Arr? ==> r.Failure?
  {
    MyDecodingInfoCastsSucceed();
    assert j.Arr? ==> forall i :: 0 <= i < |j.elems| ==>
      DecodeElement(path, j.elems, i) == DecodeAt(DecodingEnumType(MyDecodingInfo), path, j.elems, i);
    DecodeFeed(MyDecodingInfo, path, j)
  }

  /** The two feeds agree: the same failure, or the same sum values in the same order. */
  lemma DraftFeedAgreesWithGeneric(path: CodingPath, j: Json)
    ensures Draft.DecodeFeed(path, j) == DecodeMyFeed(path, j)
  {
    Draft.FeedIsAllOrNothing(path, j);
    if j.Arr? {
      forall i | 0 <= i < |j.elems|
        ensures Draft.DecodeElement(path, j.elems, i).Success? <==> DecodeElement(path, j.elems, i).Success?
        ensures Draft.DecodeElement(path, j.elems, i).Failure? ==>
                  Draft.DecodeElement(path, j.elems, i).error == DecodeElement(path, j.elems, i).error
        ensures Draft.DecodeElement(path, j.elems, i).Success? ==>
                  Draft.DecodeElement(path, j.elems, i).value.tag == DecodeElement(path, j.elems, i).value.tag &&
                  Draft.DecodeElement(path, j.elems, i).value.anyValue == DecodeElement(path, j.elems, i).value.anyValue
      {
        DraftAgreesWithGeneric(path + [Index(i)], j.elems[i]);
      }
      var d := Draft.DecodeFeed(path, j);
      var g := DecodeMyFeed(path, j);
      if d.Success? {
        assert g.Success? && |d.value| == |g.value|;
        forall i | 0 <= i < |d.value| ensures d.value[i] == g.value[i] {
          TagAndPayloadDetermineCase(d.value[i], g.value[i]);
        }
        assert d.value == g.value;
      } else {
        var k :| 0 <= k < |j.elems| && Draft.DecodeElement(path, j.elems, k) == Failure(d.error) &&
                 forall i' :: 0 <= i' < k ==> Draft.DecodeElement(path, j.elems, i').Success?;
        var m :| 0 <= m < |j.elems| && DecodeElement(path, j.elems, m) == Failure(g.error) &&
                 forall i' :: 0 <= i' < m ==> DecodeElement(path, j.elems, i').Success?;
        assert k == m;
      }
    }
  }

  /** The sample feed decodes the same way through the generic decoder. */
  lemma SampleFeedDecodes()
    ensures DecodeMyFeed([], SampleArray) == Success(SampleRecords)
  {
    Draft.SampleFeedDecodes();
    DraftFeedAgreesWithGeneric([], SampleArray);
  }

  /** One record whose tag is not a known raw value fails the whole feed. */
  lemma UnknownTagFailsFeed(path: CodingPath, j: Json, k: nat)
    requires j.Arr? && k < |j.elems| && j.elems[k].Obj?
    requires Lookup(j.elems[k].fields, "type").Some? && Lookup(j.elems[k].fields, "type").value.Str?
    requires FromRawValue(Lookup(j.elems[k].fields, "type").value.s).None?
    ensures DecodeMyFeed(path, j).Failure?
  {
    Draft.ReadTagInJsonTerms(path + [Index(k)], j.elems[k].fields);
    assert Draft.ReadTag(path + [Index(k)], j.elems[k].fields) == ReadTag(MyDecodingInfo, path + [Index(k)], j.elems[k].fields);
    assert DecodeElement(path, j.elems, k).Failure?;
  }
}
