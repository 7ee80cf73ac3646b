# APIModels in Dafny

A pure model of the decoding layer of the "APIModels" Swift playground and
proofs about it. The playground shows three ways of taming uncertain JSON
from a server:

- **Dirty to clean import** (ImportModel page). A permissive `API` model has
  almost every field optional and is decoded as-is. Failable initialisers
  then build a strict `Clean` model from it. Required fields drop the record
  when missing, soft fields get defaults, and child lists are filtered with
  `compactMap`.
- **Custom value decoders** (CustomSerialization page):
  - `StringOrInt` and a left-biased `Either<L, R>`;
  - `ValueOrArray<T>`, which accepts one value or an array of them;
  - `NilOr<T>`, which turns any failure into `nil`;
  - the alias `Identifier = NilOr<Either<String, Int>>`.
- **Tag-dispatched decoding of a heterogeneous feed** (pages DecodingEnum
  and GenericDecodingEnum, and `Sources/AssociatedDataTypeEnum.swift`):
  - each record's `"type"` string picks the payload struct;
  - the record is decoded as that struct;
  - the pair (tag, payload) becomes a case of a Swift enum with associated
    values.

  There is a first draft with a static registry dictionary and a generic
  version, `DecodingEnum<Info: EnumDecodingInfo>`.

Everything in the core is a value computation, so the model uses datatypes,
functions and lemmas throughout.

- **JSON trees.** JSON text is not parsed here. Input is a `Json` tree, and an
  object is a list of members; the first member with a key wins.
- **`JSONDecoder`.** Foundation's `JSONDecoder` behaviour, as far as the core
  relies on it, is module `JsonDecoder`:
  - the coding path;
  - the four `DecodingError` kinds;
  - primitives, with Swift `Int` as 64-bit;
  - keyed containers, `decode(forKey:)` and `decodeIfPresent`;
  - all-or-nothing arrays with index path components;
  - optionals.
- **Metatypes.** A Swift metatype `T.self` becomes a `Decodable<T>` record
  holding the type name and its decode function.
- **Existential payloads.** The existential `anyValue: Decodable` becomes the
  closed datatype `AnyPayload`, with `PayloadType` naming the four payload
  structs. A forced cast `other.value()` becomes a case destructor; its
  precondition, that the payload has the type the tag asks for, is proved
  from the decoder's contract.
- **Foundation parsers.** `URL(string:)`, the short-style date formatter and
  the ISO 8601 formatter are abstract functions `string -> Option<…>` in
  `Foundation.Formatters`. URLs and dates are opaque types. The wall-clock
  `Date()` is a parameter `now`.

Modules:
`Wrappers` (Option, Result), `Json`, `JsonDecoder`, `Seqs` (`compactMap`),
`Decimal` (integer to decimal text), `Foundation`, `CustomSerialization`,
`AssociatedDataTypeEnum`, `DecodingEnum` (the draft), `GenericDecodingEnum`,
`API` and `Clean` (both in `import_model.dfy`).

## Model

| member | source | states |
|---|---|---|
| Json.LookupFindsMember | APIModels.playground/Pages/DecodingEnum.xcplaygroundpage/Contents.swift:34 | a keyed lookup finds a value exactly when some member has the key, and the value found is a member's value |
| Json.LookupFirst | APIModels.playground/Pages/DecodingEnum.xcplaygroundpage/Contents.swift:34 | a member whose key does not occur earlier is the one a lookup of that key returns |
| JsonDecoder.DecodeString | APIModels.playground/Pages/CustomSerialization.xcplaygroundpage/Contents.swift:18 | decoding `String` succeeds exactly on a JSON string and gives it; null fails with valueNotFound, any other value with typeMismatch, both at the current path |
| JsonDecoder.DecodeInt | APIModels.playground/Pages/CustomSerialization.xcplaygroundpage/Contents.swift:13 | decoding `Int` succeeds exactly on a number within 64-bit range and gives it; out of range is dataCorrupted, null valueNotFound, other kinds typeMismatch |
| JsonDecoder.DecodeBool | APIModels.playground/Pages/ImportModel.xcplaygroundpage/Contents.swift:23 | decoding `Bool` succeeds exactly on a JSON boolean; null and other kinds fail as for the other primitives |
| JsonDecoder.Container | APIModels.playground/Pages/DecodingEnum.xcplaygroundpage/Contents.swift:31 | a keyed container exists exactly for an object and holds its members at the same path; null gives valueNotFound and other kinds typeMismatch |
| JsonDecoder.DecodeKey | APIModels.playground/Pages/DecodingEnum.xcplaygroundpage/Contents.swift:34 | `decode(_:forKey:)`: a missing key is keyNotFound; a present one is decoded at the path extended by the key, whatever its outcome |
| JsonDecoder.DecodeIfPresent | APIModels.playground/Pages/ImportModel.xcplaygroundpage/Contents.swift:20-38 | `decodeIfPresent`: an absent key or null is `nil`; any other value must decode, and its failure propagates |
| JsonDecoder.DecodeElements | APIModels.playground/Pages/DecodingEnum.xcplaygroundpage/Contents.swift:56 | decoding the elements from an index on succeeds exactly when each does, keeps one value per element in order, and otherwise fails with the error of the first failing element |
| JsonDecoder.DecodeArray | APIModels.playground/Pages/DecodingEnum.xcplaygroundpage/Contents.swift:56 | an array decodes all-or-nothing, element `i` at path index `i`, with the first failure's error; null gives valueNotFound and other kinds typeMismatch |
| JsonDecoder.DecodeOptional | APIModels.playground/Pages/ImportModel.xcplaygroundpage/Contents.swift:21 | an optional element is `nil` exactly on null and otherwise follows the inner decode |
| JsonDecoder.DecodeSingleValue | APIModels.playground/Pages/CustomSerialization.xcplaygroundpage/Contents.swift:13 | `singleValueContainer().decode(T.self)`: null is valueNotFound for every `T`; any other value is decoded as `T` at the same path |
| JsonDecoder.SingleValueRefusesNullOptional | APIModels.playground/Pages/CustomSerialization.xcplaygroundpage/Contents.swift:74 | decoding `U?` directly reads null as `nil`, but through the single-value container the same null is valueNotFound |
| JsonDecoder.DecodeStringKey | APIModels.playground/Sources/AssociatedDataTypeEnum.swift:5 | a required string field decodes exactly when the key holds a string; a missing key is keyNotFound |
| JsonDecoder.DecodeOptionalStringKey | APIModels.playground/Sources/AssociatedDataTypeEnum.swift:6 | an optional string field decodes exactly when the key is absent, null or a string, giving the string or `nil` |
| Seqs.FilterMapKeepsOnlyValues | APIModels.playground/Pages/ImportModel.xcplaygroundpage/Contents.swift:90 | `compactMap` never lengthens a list, gives nothing when every element maps to `nil`, keeps the length when none does, and yields only values some element maps to |
| Seqs.FilterMapAppend | APIModels.playground/Pages/ImportModel.xcplaygroundpage/Contents.swift:90 | `compactMap` of a concatenation is the concatenation of the `compactMap`s, so survivors keep their relative order |
| Seqs.FilterMapCons | APIModels.playground/Pages/ImportModel.xcplaygroundpage/Contents.swift:110 | the first element contributes its value, or nothing, ahead of the rest |
| Seqs.FilterMapSingleton | APIModels.playground/Pages/ImportModel.xcplaygroundpage/Contents.swift:110 | a one-element list contributes its value or nothing |
| Seqs.FilterMapExtensional | APIModels.playground/Pages/ImportModel.xcplaygroundpage/Contents.swift:110 | `compactMap` depends only on what the closure returns on the list's elements |
| Decimal.ParseInt | APIModels.playground/Pages/CustomSerialization.xcplaygroundpage/Contents.swift:29 | the reading of decimal text (used to state what string interpolation of an `Int` means) succeeds exactly on an optional minus and a non-empty digit string |
| Decimal.IntToStringRoundTrip | APIModels.playground/Pages/CustomSerialization.xcplaygroundpage/Contents.swift:29 | the decimal text of any integer reads back as that integer |
| Decimal.NatToString | APIModels.playground/Pages/CustomSerialization.xcplaygroundpage/Contents.swift:29 | the digits of a natural number are canonical: at least one digit and no leading zero |
| Decimal.IntToString | APIModels.playground/Pages/CustomSerialization.xcplaygroundpage/Contents.swift:29 | `"\(int)"` is canonical decimal: a minus sign exactly for negative numbers, no leading zero and never `-0` |
| Decimal.CanonicalIsUnique | APIModels.playground/Pages/CustomSerialization.xcplaygroundpage/Contents.swift:29 | two canonical decimal texts that read back as the same integer are the same text, so the rendering of an `Int` is determined by its value |
| CustomSerialization.DecodeStringOrInt | APIModels.playground/Pages/CustomSerialization.xcplaygroundpage/Contents.swift:12-24 | `Int` is tried first: an in-range number gives `.int`, a string gives `.string`, and exactly the values that are neither fail, with valueNotFound "expected String or integer" at the current path |
| CustomSerialization.ToString | APIModels.playground/Pages/CustomSerialization.xcplaygroundpage/Contents.swift:26-31 | `toString` gives a string unchanged and an integer as its canonical decimal text (no leading zero, no `-0`), which reads back as that integer |
| CustomSerialization.DecodeEither | APIModels.playground/Pages/CustomSerialization.xcplaygroundpage/Contents.swift:41-53 | left-biased, each side read through the single-value container: null always fails; otherwise `Left` whenever it decodes, whether or not `Right` would; `Right` only when `Left` fails; failure exactly on null or when both fail, with valueNotFound "expected L or R" |
| CustomSerialization.EitherType | APIModels.playground/Pages/CustomSerialization.xcplaygroundpage/Contents.swift:40 | the metatype `Either<L, R>.self` is named after both sides and decodes as `DecodeEither` on every input |
| CustomSerialization.DecodeValueOrArrayAsWritten | APIModels.playground/Pages/CustomSerialization.xcplaygroundpage/Contents.swift:59-67 | as written, decoding throws valueNotFound on every input, even after a branch has assigned the value |
| CustomSerialization.DecodeValueOrArray | APIModels.playground/Pages/CustomSerialization.xcplaygroundpage/Contents.swift:56-67 | as intended, both attempts through the single-value container: null fails; a single `T` gives a one-element list, otherwise an array of `T` is taken as it is; failure exactly on null or when neither decodes, with valueNotFound "expected T or [T]" |
| CustomSerialization.ValueOrArrayAsWrittenRejectsScalar | APIModels.playground/Pages/CustomSerialization.xcplaygroundpage/Contents.swift:60-66 | on the string "x" the code as written fails where the intended decoder gives `["x"]` |
| CustomSerialization.ValueOrArrayOfStrings | APIModels.playground/Pages/CustomSerialization.xcplaygroundpage/Contents.swift:56-67 | for `T = String`: a string gives itself alone, an array of strings gives those strings in order, and anything else fails |
| CustomSerialization.DecodeNilOr | APIModels.playground/Pages/CustomSerialization.xcplaygroundpage/Contents.swift:70-76 | `NilOr<T>` never fails; it holds a value exactly when the input is not null and decodes as `T`, and then holds that value |
| CustomSerialization.WrappersRefuseNullOfOptional | APIModels.playground/Pages/CustomSerialization.xcplaygroundpage/Contents.swift:42-74 | with a null-accepting `T = U?`, null still makes `Either` and `ValueOrArray` fail and `NilOr` hold `nil`, because the single-value container refuses null first |
| CustomSerialization.NilOrType | APIModels.playground/Pages/CustomSerialization.xcplaygroundpage/Contents.swift:71 | the metatype `NilOr<T>.self` decodes as `DecodeNilOr` on every input |
| CustomSerialization.DecodeIdentifier | APIModels.playground/Pages/CustomSerialization.xcplaygroundpage/Contents.swift:5 | an `Identifier` never fails: a string is `.left`, an in-range integer `.right`, anything else `nil` |
| AssociatedDataTypeEnum.DecodeDataImage | APIModels.playground/Sources/AssociatedDataTypeEnum.swift:4-7 | `DataImage` decodes exactly from an object with a string `url` and an absent, null or string `caption`, copying them; a missing `url` is keyNotFound |
| AssociatedDataTypeEnum.DecodeDataVideo | APIModels.playground/Sources/AssociatedDataTypeEnum.swift:9-13 | the same for `DataVideo` with optional `title` and `length` |
| AssociatedDataTypeEnum.DecodeDataArticle | APIModels.playground/Sources/AssociatedDataTypeEnum.swift:15-19 | the same for `DataArticle` with optional `title` and `content` |
| AssociatedDataTypeEnum.DecodeDataOpinion | APIModels.playground/Sources/AssociatedDataTypeEnum.swift:21-25 | the same for `DataOpinion` with optional `title` and `content` |
| AssociatedDataTypeEnum.ArticleAndOpinionShareShape | APIModels.playground/Sources/AssociatedDataTypeEnum.swift:15-25 | an article and an opinion accept exactly the same objects and read the same fields from them |
| AssociatedDataTypeEnum.FromRawValue | APIModels.playground/Sources/AssociatedDataTypeEnum.swift:27-32 | `DataTypeString(rawValue:)` accepts exactly the four case names, case-sensitively |
| AssociatedDataTypeEnum.RawValue | APIModels.playground/Sources/AssociatedDataTypeEnum.swift:27-32 | every tag's raw value reads back as that tag |
| AssociatedDataTypeEnum.FromRawValueInvertsRawValue | APIModels.playground/Sources/AssociatedDataTypeEnum.swift:27-32 | a string that names a tag is that tag's raw value |
| AssociatedDataTypeEnum.DecodeDataTypeString | APIModels.playground/Sources/AssociatedDataTypeEnum.swift:27 | a tag decodes exactly from a string naming one; another string is dataCorrupted "Cannot initialize DataTypeString from invalid String value …" |
| AssociatedDataTypeEnum.CaseType | APIModels.playground/Sources/AssociatedDataTypeEnum.swift:34-39 | each case's associated type is named by the tag of the same name |
| AssociatedDataTypeEnum.Payload | APIModels.playground/Sources/AssociatedDataTypeEnum.swift:34-39 | the associated value of each case has that case's associated type |
| AssociatedDataTypeEnum.TagAndPayloadDetermineCase | APIModels.playground/Sources/AssociatedDataTypeEnum.swift:34-39 | two enum values with the same tag and payload are equal, so (tag, payload) identifies a case |
| AssociatedDataTypeEnum.DecodePayload | APIModels.playground/Pages/DecodingEnum.xcplaygroundpage/Contents.swift:40 | `dataType.init(from:)`: the result always has the requested payload type and succeeds, fails and carries a value exactly as that struct's decoder does |
| AssociatedDataTypeEnum.ImageRecordDecodes | APIModels.playground/Sources/AssociatedDataTypeEnum.swift:44 | an image record of the sample's shape carries its tag and decodes to its url and caption |
| AssociatedDataTypeEnum.VideoRecordDecodes | APIModels.playground/Sources/AssociatedDataTypeEnum.swift:45 | the same for a video record |
| AssociatedDataTypeEnum.ArticleRecordDecodes | APIModels.playground/Sources/AssociatedDataTypeEnum.swift:46 | the same for an article record |
| AssociatedDataTypeEnum.OpinionRecordDecodes | APIModels.playground/Sources/AssociatedDataTypeEnum.swift:47 | the same for an opinion record |
| DecodingEnum.CasesIsExhaustive | APIModels.playground/Pages/DecodingEnum.xcplaygroundpage/Contents.swift:12-17 | the registry has an entry for every tag, so the forced lookup `cases[type]!` never traps, and each entry is the type the enum associates with that tag |
| DecodingEnum.ReadTagInJsonTerms | APIModels.playground/Pages/DecodingEnum.xcplaygroundpage/Contents.swift:33-37 | reading the tag succeeds exactly when `"type"` holds one of the four names; a missing key is keyNotFound and an unknown name is dataCorrupted at the `type` key |
| DecodingEnum.Decode | APIModels.playground/Pages/DecodingEnum.xcplaygroundpage/Contents.swift:30-41 | a non-object and a tag failure are rethrown unchanged; otherwise the whole record at the same path is decoded as the registry's type, its failure propagates, and a success pairs tag and payload consistently |
| DecodingEnum.EnumFromOther | APIModels.playground/Pages/DecodingEnum.xcplaygroundpage/Contents.swift:44-53 | `init(other:)` on a consistent record gives the case named by the tag, holding the record's payload |
| DecodingEnum.EnumsFromOthers | APIModels.playground/Pages/DecodingEnum.xcplaygroundpage/Contents.swift:56 | the mapped list has one enum value per record, in order, each with that record's tag and payload |
| DecodingEnum.DecodeFeed | APIModels.playground/Pages/DecodingEnum.xcplaygroundpage/Contents.swift:56 | decoding the feed succeeds and fails with `[MyDecodedEnum]` decoding, and on success is the mapped list |
| DecodingEnum.FeedIsAllOrNothing | APIModels.playground/Pages/DecodingEnum.xcplaygroundpage/Contents.swift:56 | the feed succeeds exactly when every record decodes, then holds one value per record in input order; otherwise it fails with the first failing record's error |
| DecodingEnum.ImageRecordIsDecoded | APIModels.playground/Pages/DecodingEnum.xcplaygroundpage/Contents.swift:30-41 | an image record decodes to the image tag and its payload |
| DecodingEnum.VideoRecordIsDecoded | APIModels.playground/Pages/DecodingEnum.xcplaygroundpage/Contents.swift:30-41 | a video record decodes to the video tag and its payload |
| DecodingEnum.ArticleRecordIsDecoded | APIModels.playground/Pages/DecodingEnum.xcplaygroundpage/Contents.swift:30-41 | an article record decodes to the article tag and its payload |
| DecodingEnum.OpinionRecordIsDecoded | APIModels.playground/Pages/DecodingEnum.xcplaygroundpage/Contents.swift:30-41 | an opinion record decodes to the opinion tag and its payload |
| DecodingEnum.SampleElementDecodes | APIModels.playground/Sources/AssociatedDataTypeEnum.swift:44-48 | each of the five sample records decodes to the tag and payload of the expected enum value |
| DecodingEnum.SampleFeedDecodes | APIModels.playground/Sources/AssociatedDataTypeEnum.swift:41-50 | the sample feed decodes to image, video, article, opinion, image, in that order, with the sample's fields |
| GenericDecodingEnum.Decode | APIModels.playground/Pages/GenericDecodingEnum.xcplaygroundpage/Contents.swift:31-42 | for any `EnumDecodingInfo`: non-objects and tag failures are rethrown unchanged, otherwise the record is decoded as `associatedType(for:)` of its tag, and a success is consistent |
| GenericDecodingEnum.DecodingEnumType | APIModels.playground/Pages/GenericDecodingEnum.xcplaygroundpage/Contents.swift:14 | the metatype `DecodingEnum<Info>.self` decodes as `Decode` on every input |
| GenericDecodingEnum.EnumValues | APIModels.playground/Pages/GenericDecodingEnum.xcplaygroundpage/Contents.swift:23-25 | mapping `enumValue` gives one value per record, each `associatedTypeEnum(for:)` of that record, defined whenever the info's casts succeed on consistent records |
| GenericDecodingEnum.DecodeFeed | APIModels.playground/Pages/GenericDecodingEnum.xcplaygroundpage/Contents.swift:70 | the generic feed succeeds and fails with `[DecodingEnum<Info>]` decoding and on success is the mapped list |
| GenericDecodingEnum.AssociatedType | APIModels.playground/Pages/GenericDecodingEnum.xcplaygroundpage/Contents.swift:48-55 | `associatedType(for:)` is the enum's associated type for the tag, and distinct tags get distinct types |
| GenericDecodingEnum.AssociatedTypeEnum | APIModels.playground/Pages/GenericDecodingEnum.xcplaygroundpage/Contents.swift:57-64 | on a record whose payload has the tag's type, the result is the case with the tag's name, holding the payload |
| GenericDecodingEnum.MyDecodingInfoCastsSucceed | APIModels.playground/Pages/GenericDecodingEnum.xcplaygroundpage/Contents.swift:57-64 | the `as!` casts inside `associatedTypeEnum(for:)` never fail on a record the decoder produced |
| GenericDecodingEnum.RegistryAgreesWithSwitch | APIModels.playground/Pages/GenericDecodingEnum.xcplaygroundpage/Contents.swift:48-55 | the draft's registry dictionary and the generic switch map each tag to the same type |
| GenericDecodingEnum.DraftAgreesWithGeneric | APIModels.playground/Pages/GenericDecodingEnum.xcplaygroundpage/Contents.swift:31-42 | on every input the draft decoder and `DecodingEnum<MyDecodingInfo>` succeed together, fail with the same error, and decode the same tag and payload |
| GenericDecodingEnum.DecodeMyFeed | APIModels.playground/Pages/GenericDecodingEnum.xcplaygroundpage/Contents.swift:70 | the generic feed is all-or-nothing: it succeeds exactly when every record decodes, keeps order, and otherwise reports the first failing record's error |
| GenericDecodingEnum.DraftFeedAgreesWithGeneric | APIModels.playground/Pages/GenericDecodingEnum.xcplaygroundpage/Contents.swift:70 | the draft's feed (`map { init(other:) }`) and the generic feed (`map { $0.enumValue }`) give the same result on every input |
| GenericDecodingEnum.SampleFeedDecodes | APIModels.playground/Sources/AssociatedDataTypeEnum.swift:41-50 | through the generic decoder, the sample feed decodes to the same five values in order |
| GenericDecodingEnum.UnknownTagFailsFeed | APIModels.playground/Pages/GenericDecodingEnum.xcplaygroundpage/Contents.swift:35 | one record whose tag is not a known name fails the whole feed; no partial result is produced |
| API.DecodeComment | APIModels.playground/Pages/ImportModel.xcplaygroundpage/Contents.swift:34-38 | a dirty comment decodes exactly from an object whose three fields are each absent, null or a string, and holds those strings |
| API.DecodeCommentsInJsonTerms | APIModels.playground/Pages/ImportModel.xcplaygroundpage/Contents.swift:31 | `[Comment?]` decodes exactly from an array whose entries are null or decodable comments, with one entry per element in order, `nil` for null |
| API.DecodeUser | APIModels.playground/Pages/ImportModel.xcplaygroundpage/Contents.swift:26-32 | a dirty user decodes exactly from an object with optional string fields and a required `comments` array, holding those fields and comments; without `comments` it fails |
| API.DecodeUsersInJsonTerms | APIModels.playground/Pages/ImportModel.xcplaygroundpage/Contents.swift:21 | `[User?]` decodes like `[Comment?]`: one entry per element, in order, `nil` for null |
| API.DecodeResponse | APIModels.playground/Pages/ImportModel.xcplaygroundpage/Contents.swift:20-24 | a dirty response decodes exactly from an object with a required `data` array of optional users, an optional string `lastUpdated` and an optional boolean `lastPage` |
| API.CommentRecordDecodes | APIModels.playground/Pages/ImportModel.xcplaygroundpage/Contents.swift:131 | a comment object with all three fields decodes with all three present |
| API.ForeignObjectDecodesAsEmptyComment | APIModels.playground/Pages/ImportModel.xcplaygroundpage/Contents.swift:140 | an object with none of the comment keys, such as `{"foo": …}`, decodes as a comment with every field `nil` |
| API.UserRecordDecodes | APIModels.playground/Pages/ImportModel.xcplaygroundpage/Contents.swift:126-133 | a user object with id, both names and comments but no picture decodes with those fields and a `nil` picture |
| API.OneCommentDecodes | APIModels.playground/Pages/ImportModel.xcplaygroundpage/Contents.swift:130-132 | a one-element comment array decodes to its comment |
| API.TwoCommentsDecode | APIModels.playground/Pages/ImportModel.xcplaygroundpage/Contents.swift:138-141 | a two-element comment array decodes to its two comments in order |
| API.TwoUsersDecode | APIModels.playground/Pages/ImportModel.xcplaygroundpage/Contents.swift:125-143 | a two-element user array decodes to its two users in order |
| API.IdOnlyUserDecodes | APIModels.playground/Pages/ImportModel.xcplaygroundpage/Contents.swift:26-32 | a user object with only an id and comments decodes with every other field `nil` |
| API.SampleFirstUserDecodes | APIModels.playground/Pages/ImportModel.xcplaygroundpage/Contents.swift:126-133 | the sample's first user decodes to its id, names and one comment |
| API.SampleSecondUserDecodes | APIModels.playground/Pages/ImportModel.xcplaygroundpage/Contents.swift:134-142 | the sample's second user decodes to its id, names, its comment and an all-`nil` comment from `{"foo": …}` |
| API.SampleUsersDecode | APIModels.playground/Pages/ImportModel.xcplaygroundpage/Contents.swift:125-143 | the sample's `data` array decodes to both users in order |
| API.SampleDecodes | APIModels.playground/Pages/ImportModel.xcplaygroundpage/Contents.swift:123-150 | the whole sample payload decodes to the expected dirty response, with `lastUpdated` and `lastPage: true` |
| Clean.CommentFromApi | APIModels.playground/Pages/ImportModel.xcplaygroundpage/Contents.swift:94-106 | a comment converts exactly when it exists, has an id and a text, and has a time stamp the short date formatter parses; id and text are copied and the time stamp is the parsed date |
| Clean.UserFromApi | APIModels.playground/Pages/ImportModel.xcplaygroundpage/Contents.swift:77-92 | a user converts exactly when it exists and has an id (even the empty string); the names are copied; the picture is the parsed URL or `nil` and never drops the user; the comments are the `compactMap` of the comment conversion |
| Clean.ResponseFromApi | APIModels.playground/Pages/ImportModel.xcplaygroundpage/Contents.swift:108-114 | never `nil`; the users are the `compactMap` of the user conversion; `lastUpdated` is the parsed ISO 8601 date, or `now` when absent or unparsable; `lastPage` is true exactly when given as true |
| Clean.UserCommentsAreSurvivors | APIModels.playground/Pages/ImportModel.xcplaygroundpage/Contents.swift:89-90 | a converted user has no more comments than the dirty one, each the conversion of some dirty comment, with the survivors of any prefix before those of the rest |
| Clean.UserSurvivesLosingAllComments | APIModels.playground/Pages/ImportModel.xcplaygroundpage/Contents.swift:89-90 | a user whose every comment fails still converts, with an empty comment list |
| Clean.ConversionIsDeterministic | APIModels.playground/Pages/ImportModel.xcplaygroundpage/Contents.swift:77-114 | the clean response depends only on the dirty response, on what the three parsers return and on `now` |
| Clean.CommentsComeBack | APIModels.playground/Pages/ImportModel.xcplaygroundpage/Contents.swift:90 | for every list of clean comments, writing them out and converting back keeps exactly the comments whose rendered time stamp the short formatter parses, each holding the parsed date, in order |
| Clean.CommentsRereadIff | APIModels.playground/Pages/ImportModel.xcplaygroundpage/Contents.swift:90 | rereading keeps a list of comments unchanged exactly when every time stamp parses back to itself |
| Clean.CommentsRoundTrip | APIModels.playground/Pages/ImportModel.xcplaygroundpage/Contents.swift:90 | written-out comments convert back to the same list if and only if every time stamp parses back to itself |
| Clean.UserComesBack | APIModels.playground/Pages/ImportModel.xcplaygroundpage/Contents.swift:77-92 | every written-out clean user converts back (it has an id), with the same id and names, the URL its picture string parses to, and the comments that come back |
| Clean.UserRereadIff | APIModels.playground/Pages/ImportModel.xcplaygroundpage/Contents.swift:77-92 | a reread user equals the original exactly when its picture URL and every comment time stamp parse back to themselves |
| Clean.UserRoundTrip | APIModels.playground/Pages/ImportModel.xcplaygroundpage/Contents.swift:77-92 | a written-out clean user converts back to itself if and only if its picture URL and every comment time stamp parse back |
| Clean.UsersComeBack | APIModels.playground/Pages/ImportModel.xcplaygroundpage/Contents.swift:110 | written-out users convert back to the users that come back, one for one, in order |
| Clean.UsersRereadIff | APIModels.playground/Pages/ImportModel.xcplaygroundpage/Contents.swift:110 | a reread list of users equals the original exactly when every user parses back |
| Clean.UsersRereadLength | APIModels.playground/Pages/ImportModel.xcplaygroundpage/Contents.swift:110 | rereading keeps the number of users |
| Clean.UsersRoundTrip | APIModels.playground/Pages/ImportModel.xcplaygroundpage/Contents.swift:110 | no written-out user is dropped, and the list converts back to itself if and only if every user parses back |
| Clean.ResponseComesBack | APIModels.playground/Pages/ImportModel.xcplaygroundpage/Contents.swift:108-114 | for every clean response, the conversion of its written-out form holds the users that come back, the date its ISO 8601 rendering parses to or `now`, and the same `lastPage` |
| Clean.ResponseRoundTrip | APIModels.playground/Pages/ImportModel.xcplaygroundpage/Contents.swift:108-114 | a response whose date and users parse back converts back to itself whatever `now` is; conversely, when it comes back unchanged every user parsed back, and its date did too unless it equals `now` |
| Clean.UserWithOneCommentConverts | APIModels.playground/Pages/ImportModel.xcplaygroundpage/Contents.swift:77-106 | `{id: "1", comments: [{id: "2", text: "hi", timeStamp: "6/12/18"}]}` decodes and converts to user "1" with that one comment when the date parses |
| Clean.UserWithoutIdIsDropped | APIModels.playground/Pages/ImportModel.xcplaygroundpage/Contents.swift:79-82 | `{firstName: "x", comments: []}` decodes but does not convert |
| Clean.UnparsableTimeStampDropsComment | APIModels.playground/Pages/ImportModel.xcplaygroundpage/Contents.swift:96-101 | a comment whose time stamp does not parse is dropped and its user converts without it |
| Clean.SampleFirstUserImports | APIModels.playground/Pages/ImportModel.xcplaygroundpage/Contents.swift:126-133 | the sample's first user converts, keeping its comment exactly when "6/12/18" parses |
| Clean.SampleSecondUserImports | APIModels.playground/Pages/ImportModel.xcplaygroundpage/Contents.swift:134-142 | the sample's second user converts; the `{"foo": …}` entry is dropped whatever the date parser does |
| Clean.SampleResponseImports | APIModels.playground/Pages/ImportModel.xcplaygroundpage/Contents.swift:108-114 | the sample's dirty response converts to both users, the parsed update time or `now`, and `lastPage` true |
| Clean.SampleImport | APIModels.playground/Pages/ImportModel.xcplaygroundpage/Contents.swift:123-153 | the sample payload decodes and converts to the expected clean response for every set of parsers and every `now` |

## Left out

- `Sources/ConvenienceInitializers.swift` is not part of this model. Its three conversions (`toURL`, `toDate(with:)`, which uses `Formatter.short`, and `toIso8601Date`) are the abstract functions of `Foundation.Formatters`. Its `JSONEncoder` convenience initialiser is left out with the encoder itself.
- JSON text parsing and encoding (`data(using:)`, `JSONDecoder().decode(_:from:)`, `JSONEncoder().encode`) belong to Foundation. The model starts from a `Json` tree and stops at the clean value. The round-trip lemmas use a model-side rendering (`Clean.ResponseToApi`), not the playground's encoder. The renderings are arbitrary functions: what comes back is stated for every value, and a value comes back unchanged only when its own renderings parse back to it. A short-style date parser never returns a time of day, so a comment dated at any other time comes back with a different date.
- JSON numbers are integers: floating point is not modelled. Only string, integer and boolean primitives are decoded because the core uses nothing else.
- Objects with repeated keys resolve to the first occurrence. Foundation's own choice for duplicates is not modelled.
- Foundation's error messages are reproduced only where the core builds them (`StringOrInt`, `Either`, `ValueOrArray`) and for the invalid raw value of `DataTypeString`. The texts of the other messages are approximated: those of the primitive decoders, of the single-value container's null check, and of keyNotFound, where Foundation prints the `CodingKey` value itself rather than only its string. Error kinds and coding paths are modelled exactly.
- The wall-clock `Date()` in `Clean.Response.init?` is the parameter `now`.
- The URL and date types are opaque; their equality is the only thing the model uses.
- `extension String: Error`, the `fatalError` guard and the `print` loops are driver code with no logic of their own.
- The Introduction page declares strict structs and has no logic.
- `anyValue: Decodable` and `value<T>()` with `as!` are replaced by the closed `AnyPayload` and case destructors. The model has no dynamic casts, and a failed cast cannot be written in it; the lemmas prove the casts the source makes succeed.
- Swift's class identity for the draft's `MyDecodedEnum` (a `class`) is not modelled. It is never mutated, so it is a value here.
- `GenericDecodingEnum.Decode` leaves the tag type generic but the payload types closed: an `EnumDecodingInfo` can only name the four payload structs as associated types.
- The documented intent differs from the code in three places; the model follows the code:
  - a user's `id` is only required to be present, and the empty string is accepted;
  - a dirty field of the wrong type (an `id` that is a number, say) makes the whole synthesised decode fail rather than dropping one record;
  - an unknown tag fails with dataCorrupted from `DataTypeString(rawValue:)`, not with a dedicated error kind.

## Findings

| source | as written | input that shows it | evidently intended | confidence | as-written member | corrected member |
|---|---|---|---|---|---|---|
| APIModels.playground/Pages/CustomSerialization.xcplaygroundpage/Contents.swift:59-67 | after either branch assigns `self.value`, control falls through to the `throw`, so every input fails | the JSON string `"x"` as `ValueOrArray<String>` | return after a successful assignment: `"x"` gives `["x"]`, and an array gives its elements | high, not executed | CustomSerialization.DecodeValueOrArrayAsWritten (with CustomSerialization.ValueOrArrayAsWrittenRejectsScalar) | CustomSerialization.DecodeValueOrArray |
